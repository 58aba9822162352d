/**
 * Drag-and-drop reordering of the project, education and other-item lists.
 *
 * When a drag ends over a different item, the handler moves the dragged item to
 * the drop position (`arrayMove` of dnd-kit) and then writes every item back to
 * the store with `display_order` set to its new position, one request after the
 * other. The first request that throws ends the loop: the items before it are
 * written, the rest are not, and the list is not fetched again.
 */
module Reorder {
  import opened Wrappers
  import Seqs

  /** A stored record: its id, its `display_order` and its other fields. */
  datatype Entry<T> = Entry(id: string, displayOrder: int, fields: T)

  /** The ids of a list, in list order. */
  function Ids<T>(s: seq<Entry<T>>): (r: seq<string>)
    ensures |r| == |s|
    ensures forall i :: 0 <= i < |s| ==> r[i] == s[i].id
  {
    if s == [] then [] else [s[0].id] + Ids(s[1..])
  }

  /** `list.findIndex((x) => x.id === id)`: the first position with that id, or -1. */
  function FindIndex<T>(s: seq<Entry<T>>, id: string): (i: int)
    ensures -1 <= i < |s|
    ensures i >= 0 ==> s[i].id == id && forall j :: 0 <= j < i ==> s[j].id != id
    ensures i == -1 <==> forall j :: 0 <= j < |s| ==> s[j].id != id
  {
    if s == [] then -1
    else if s[0].id == id then 0
    else
      var k := FindIndex(s[1..], id);
      if k == -1 then -1 else k + 1
  }

  // ---------------------------------------------------------------------------
  // arrayMove

  /** `array.splice(i, 1)`: the list without position `i`. */
  function RemoveAt<T>(s: seq<T>, i: nat): (r: seq<T>)
    requires i < |s|
    ensures |r| == |s| - 1
  {
    s[..i] + s[i + 1..]
  }

  /** `array.splice(i, 0, x)`: the list with `x` inserted before position `i`. */
  function InsertAt<T>(s: seq<T>, i: nat, x: T): (r: seq<T>)
    requires i <= |s|
    ensures |r| == |s| + 1
  {
    s[..i] + [x] + s[i..]
  }

  /** `arrayMove(array, from, to)`: take the item at `from` out and put it back at `to`. */
  function ArrayMove<T>(s: seq<T>, from: nat, to: nat): seq<T>
    requires from < |s| && to < |s|
  {
    InsertAt(RemoveAt(s, from), to, s[from])
  }

  /**
   * The moved list has the same length and the same items, the moved item sits at
   * `to`, and the other items keep their relative order.
   */
  lemma ArrayMoveSpec<T>(s: seq<T>, from: nat, to: nat)
    requires from < |s| && to < |s|
    ensures |ArrayMove(s, from, to)| == |s|
    ensures multiset(ArrayMove(s, from, to)) == multiset(s)
    ensures ArrayMove(s, from, to)[to] == s[from]
    ensures RemoveAt(ArrayMove(s, from, to), to) == RemoveAt(s, from)
  {
    var t := RemoveAt(s, from);
    var r := ArrayMove(s, from, to);
    assert s == s[..from] + [s[from]] + s[from + 1..];
    assert r == t[..to] + [s[from]] + t[to..];
    assert t == t[..to] + t[to..];
    calc {
      multiset(r);
      multiset(t[..to]) + multiset{s[from]} + multiset(t[to..]);
      multiset(t) + multiset{s[from]};
      multiset(s[..from]) + multiset(s[from + 1..]) + multiset{s[from]};
      multiset(s);
    }
    assert r[..to] == t[..to];
    assert r[to + 1..] == t[to..];
  }

  /** Moving back from `to` to `from` restores the list. */
  lemma ArrayMoveInverse<T>(s: seq<T>, from: nat, to: nat)
    requires from < |s| && to < |s|
    ensures ArrayMove(ArrayMove(s, from, to), to, from) == s
  {
    ArrayMoveSpec(s, from, to);
    var r := ArrayMove(s, from, to);
    var back := ArrayMove(r, to, from);
    var t := RemoveAt(s, from);
    assert RemoveAt(r, to) == t;
    assert back == t[..from] + [s[from]] + t[from..];
    assert t[..from] == s[..from];
    assert t[from..] == s[from + 1..];
  }

  /** Position by position: where each item of the moved list comes from. */
  lemma ArrayMoveAt<T>(s: seq<T>, from: nat, to: nat, i: nat)
    requires from < |s| && to < |s| && i < |s|
    ensures ArrayMove(s, from, to)[i] ==
      if i == to then s[from]
      else if from <= i < to then s[i + 1]
      else if to < i <= from then s[i - 1]
      else s[i]
  {
  }

  /** Moving an item moves its id. */
  lemma MovedIds<T>(s: seq<Entry<T>>, from: nat, to: nat)
    requires from < |s| && to < |s|
    ensures Ids(ArrayMove(s, from, to)) == ArrayMove(Ids(s), from, to)
  {
    var r := ArrayMove(s, from, to);
    var ids := Ids(s);
    var moved := ArrayMove(ids, from, to);
    assert |r| == |moved| == |s|;
    forall i | 0 <= i < |s|
      ensures Ids(r)[i] == moved[i]
    {
      ArrayMoveAt(s, from, to, i);
      ArrayMoveAt(ids, from, to, i);
      var k := if i == to then from else if from <= i < to then i + 1 else if to < i <= from then i - 1 else i;
      assert r[i] == s[k] && moved[i] == ids[k];
    }
  }

  /** A list without repeated ids keeps none when an item is moved. */
  lemma MovedIdsDistinct<T>(s: seq<Entry<T>>, from: nat, to: nat)
    requires from < |s| && to < |s| && Seqs.Distinct(Ids(s))
    ensures Seqs.Distinct(Ids(ArrayMove(s, from, to)))
  {
    MovedIds(s, from, to);
    ArrayMoveSpec(Ids(s), from, to);
    Seqs.DistinctPermutation(Ids(s), ArrayMove(Ids(s), from, to));
  }

  // ---------------------------------------------------------------------------
  // The store and the rewrite loop

  /** Entry `e` as the loop sends it: the same record with `display_order: i`. */
  function Renumbered<T>(e: Entry<T>, i: int): (r: Entry<T>)
    ensures r.id == e.id && r.fields == e.fields && r.displayOrder == i
  {
    e.(displayOrder := i)
  }

  /** The store after the first `k` writes of the loop over `list`. */
  function Rewrite<T>(m: map<string, Entry<T>>, list: seq<Entry<T>>, k: nat): map<string, Entry<T>>
    requires k <= |list|
  {
    if k == 0 then m else Rewrite(m, list, k - 1)[list[k - 1].id := Renumbered(list[k - 1], k - 1)]
  }

  /**
   * After `k` writes over a list without repeated ids, the first `k` items are
   * stored renumbered to their positions and every other record is untouched.
   */
  lemma {:induction false} RewriteSpec<T>(m: map<string, Entry<T>>, list: seq<Entry<T>>, k: nat)
    requires k <= |list| && Seqs.Distinct(Ids(list))
    ensures forall i :: 0 <= i < k ==>
      list[i].id in Rewrite(m, list, k) && Rewrite(m, list, k)[list[i].id] == Renumbered(list[i], i)
    ensures forall id :: (forall i :: 0 <= i < k ==> list[i].id != id) ==>
      (id in Rewrite(m, list, k) <==> id in m) && (id in m ==> Rewrite(m, list, k)[id] == m[id])
  {
    if k > 0 {
      RewriteSpec(m, list, k - 1);
      forall i | 0 <= i < k - 1
        ensures list[i].id != list[k - 1].id
      {
        assert Ids(list)[i] != Ids(list)[k - 1];
      }
    }
  }

  /**
   * After the whole loop the stored orders of the listed items are exactly
   * 0 .. n-1, in list order, with every other field as it was in the list.
   */
  lemma RewriteAll<T>(m: map<string, Entry<T>>, list: seq<Entry<T>>)
    requires Seqs.Distinct(Ids(list))
    ensures forall i :: 0 <= i < |list| ==>
      && list[i].id in Rewrite(m, list, |list|)
      && Rewrite(m, list, |list|)[list[i].id].displayOrder == i
      && Rewrite(m, list, |list|)[list[i].id].fields == list[i].fields
  {
    RewriteSpec(m, list, |list|);
  }

  /** A record store reached through update requests that may throw. */
  class Store<T> {
    /** The stored records by id. */
    var records: map<string, Entry<T>>
    /** The ids whose update request throws. */
    const failing: set<string>

    constructor (records: map<string, Entry<T>>, failing: set<string>)
      ensures this.records == records && this.failing == failing
    {
      this.records := records;
      this.failing := failing;
    }

    /** `updateX(id, e)`: stores `e` under `id`, or throws and stores nothing. */
    method Update(id: string, e: Entry<T>) returns (ok: bool)
      modifies this
      ensures ok <==> id !in failing
      ensures ok ==> records == old(records)[id := e]
      ensures !ok ==> records == old(records)
    {
      ok := id !in failing;
      if ok {
        records := records[id := e];
      }
    }
  }

  /** None of the first `k` ids of `list` is one whose update throws. */
  predicate Passes<T>(list: seq<Entry<T>>, k: nat, failing: set<string>)
    requires k <= |list|
  {
    forall j :: 0 <= j < k ==> list[j].id !in failing
  }

  /** The writes get one item further when its update succeeds. */
  lemma PassesStep<T>(list: seq<Entry<T>>, k: nat, failing: set<string>)
    requires k < |list| && Passes(list, k, failing) && list[k].id !in failing
    ensures Passes(list, k + 1, failing)
  {
  }

  /** What a drag end ends with. */
  datatype Outcome = Skipped | Refetched | Failed(at: nat)

  /** `over && active.id !== over.id && list`. */
  predicate Moves<T>(list: Option<seq<Entry<T>>>, active: string, over: Option<string>) {
    over.Some? && active != over.value && list.Some?
  }

  /** The reordered list. */
  function Moved<T>(list: seq<Entry<T>>, active: string, over: string): seq<Entry<T>>
    requires FindIndex(list, active) >= 0 && FindIndex(list, over) >= 0
  {
    ArrayMove(list, FindIndex(list, active), FindIndex(list, over))
  }

  /**
   * `handleDragEnd` of the project, education and other-item editors. The ids
   * dnd-kit reports belong to the displayed list.
   */
  method HandleDragEnd<T>(store: Store<T>, list: Option<seq<Entry<T>>>, active: string, over: Option<string>)
      returns (outcome: Outcome)
    requires Moves(list, active, over) ==>
      FindIndex(list.value, active) >= 0 && FindIndex(list.value, over.value) >= 0
    modifies store
    ensures !Moves(list, active, over) ==> outcome == Skipped && store.records == old(store.records)
    ensures Moves(list, active, over) ==> !outcome.Skipped?
    ensures Moves(list, active, over) && outcome.Refetched? ==>
      var moved := Moved(list.value, active, over.value);
      && (forall i :: 0 <= i < |moved| ==> moved[i].id !in store.failing)
      && store.records == Rewrite(old(store.records), moved, |moved|)
    ensures Moves(list, active, over) && outcome.Failed? ==>
      var moved := Moved(list.value, active, over.value);
      && outcome.at < |moved|
      && moved[outcome.at].id in store.failing
      && (forall i :: 0 <= i < outcome.at ==> moved[i].id !in store.failing)
      && store.records == Rewrite(old(store.records), moved, outcome.at)
  {
    if !Moves(list, active, over) {
      return Skipped;
    }
    var moved := ArrayMove(list.value, FindIndex(list.value, active), FindIndex(list.value, over.value));
    var failedAt := WriteOrder(store, moved);
    if failedAt.Some? {
      return Failed(failedAt.value);
    }
    return Refetched;
  }

  /**
   * The `for` loop of `handleDragEnd`: writes the items one after the other,
   * each with its position as `display_order`, and stops at the first update that
   * throws, reporting its position.
   */
  method WriteOrder<T>(store: Store<T>, list: seq<Entry<T>>) returns (failedAt: Option<nat>)
    modifies store
    ensures failedAt.None? ==>
      Passes(list, |list|, store.failing) && store.records == Rewrite(old(store.records), list, |list|)
    ensures failedAt.Some? ==>
      && failedAt.value < |list|
      && list[failedAt.value].id in store.failing
      && Passes(list, failedAt.value, store.failing)
      && store.records == Rewrite(old(store.records), list, failedAt.value)
  {
    var i := 0;
    while i < |list|
      invariant 0 <= i <= |list|
      invariant store.records == Rewrite(old(store.records), list, i)
      invariant Passes(list, i, store.failing)
    {
      var ok := store.Update(list[i].id, Renumbered(list[i], i));
      if !ok {
        return Some(i);
      }
      PassesStep(list, i, store.failing);
      i := i + 1;
    }
    return None;
  }
}
