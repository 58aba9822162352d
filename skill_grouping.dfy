/**
 * Grouping skills by category, as the résumé, the career statement and the
 * skills editor do: a `reduce` over the skills into an initially empty object,
 * creating `acc[category] = []` when `acc[category]` is falsy and pushing the
 * skill, then listing the groups with `Object.entries`.
 *
 * Two properties of JavaScript objects shape the result:
 *  - `Object.entries` lists the keys that are array indices ("0", "7", "42")
 *    first, in ascending numeric order, and the other keys in creation order;
 *  - an empty object literal already answers the names of `Object.prototype`
 *    ("constructor", "toString", "__proto__", ...) with a truthy value that has
 *    no `push`, so a skill whose category is one of them makes the reduce throw.
 */
module SkillGrouping {
  import opened Wrappers
  import Js
  import Seqs
  import opened Profile

  /** One `[category, categorySkills]` pair of `Object.entries`. */
  datatype Group = Group(category: string, skills: seq<Skill>)

  // ---------------------------------------------------------------------------
  // Reference definitions

  /** The skills whose category is in `cats`, in input order. */
  function InCategories(s: seq<Skill>, cats: set<string>): (r: seq<Skill>)
    ensures |r| <= |s|
    ensures forall x :: x in r <==> x in s && x.category in cats
  {
    if s == [] then []
    else
      var x := s[|s| - 1];
      assert s == s[..|s| - 1] + [x];
      var r0 := InCategories(s[..|s| - 1], cats);
      if x.category in cats then r0 + [x] else r0
  }

  /** The skills of one category, in input order. */
  function InCategory(s: seq<Skill>, c: string): seq<Skill> {
    InCategories(s, {c})
  }

  /** The distinct categories, in the order of their first occurrence. */
  function Categories(s: seq<Skill>): (r: seq<string>)
    ensures forall c :: c in r <==> exists i :: 0 <= i < |s| && s[i].category == c
    ensures Seqs.Distinct(r)
  {
    if s == [] then []
    else
      var c := s[|s| - 1].category;
      var r0 := Categories(s[..|s| - 1]);
      assert forall i :: 0 <= i < |s| - 1 ==> s[..|s| - 1][i] == s[i];
      if c in r0 then r0 else r0 + [c]
  }

  /** The numeric value of an array-index key. */
  function KeyValue(k: string): nat {
    if Js.AllDigits(k) then Js.DigitsValue(k) else 0
  }

  /** Ascending by `key`. */
  ghost predicate Ascending<T>(ks: seq<T>, key: T -> nat) {
    forall i, j :: 0 <= i < j < |ks| ==> key(ks[i]) <= key(ks[j])
  }

  /** The keys that are array indices, in creation order. */
  function IndexKeys(ks: seq<string>): (r: seq<string>)
    ensures multiset(r) <= multiset(ks)
    ensures forall k :: k in r <==> k in ks && Js.IsArrayIndex(k)
  {
    if ks == [] then []
    else
      var k := ks[|ks| - 1];
      assert ks == ks[..|ks| - 1] + [k];
      var r0 := IndexKeys(ks[..|ks| - 1]);
      if Js.IsArrayIndex(k) then r0 + [k] else r0
  }

  /** The other keys, in creation order. */
  function NamedKeys(ks: seq<string>): (r: seq<string>)
    ensures forall k :: k in r <==> k in ks && !Js.IsArrayIndex(k)
  {
    if ks == [] then []
    else
      var k := ks[|ks| - 1];
      assert ks == ks[..|ks| - 1] + [k];
      var r0 := NamedKeys(ks[..|ks| - 1]);
      if !Js.IsArrayIndex(k) then r0 + [k] else r0
  }

  /** Inserts `k` into a list ascending by `key`, before the first element with a key not below it. */
  function InsertBy<T>(sorted: seq<T>, k: T, key: T -> nat): (r: seq<T>)
    ensures multiset(r) == multiset(sorted) + multiset{k}
    ensures forall x :: x in r ==> x == k || x in sorted
  {
    if sorted == [] then [k]
    else if key(k) <= key(sorted[0]) then [k] + sorted
    else
      assert sorted == [sorted[0]] + sorted[1..];
      [sorted[0]] + InsertBy(sorted[1..], k, key)
  }

  /** Insertion keeps an ascending list ascending. */
  lemma {:induction false} InsertByAscending<T>(sorted: seq<T>, k: T, key: T -> nat)
    requires Ascending(sorted, key)
    ensures Ascending(InsertBy(sorted, k, key), key)
  {
    if sorted != [] && key(k) > key(sorted[0]) {
      var rest := InsertBy(sorted[1..], k, key);
      InsertByAscending(sorted[1..], k, key);
      var v := key(sorted[0]);
      forall x | x in sorted[1..]
        ensures v <= key(x)
      {
        var m :| 0 <= m < |sorted[1..]| && sorted[1..][m] == x;
        assert sorted[m + 1] == x;
      }
      assert forall x :: x in rest ==> v <= key(x);
      var r := [sorted[0]] + rest;
      forall i, j | 0 <= i < j < |r|
        ensures key(r[i]) <= key(r[j])
      {
        if i > 0 {
          assert r[i] == rest[i - 1] && r[j] == rest[j - 1];
        } else {
          assert r[j] in rest;
        }
      }
    }
  }

  /** Insertion sort by `key`. */
  function SortBy<T>(ks: seq<T>, key: T -> nat): (r: seq<T>)
    ensures multiset(r) == multiset(ks)
    ensures Ascending(r, key)
  {
    if ks == [] then []
    else
      assert ks == ks[..|ks| - 1] + [ks[|ks| - 1]];
      var sorted := SortBy(ks[..|ks| - 1], key);
      InsertByAscending(sorted, ks[|ks| - 1], key);
      InsertBy(sorted, ks[|ks| - 1], key)
  }

  /** The order in which `Object.entries` lists the own keys of an object created in order `ks`. */
  function EntryOrder(ks: seq<string>): seq<string> {
    SortBy(IndexKeys(ks), KeyValue) + NamedKeys(ks)
  }

  /** One group per key, in key order. */
  function GroupsFor(s: seq<Skill>, ks: seq<string>): (r: seq<Group>)
    ensures |r| == |ks|
    ensures forall i :: 0 <= i < |ks| ==> r[i] == Group(ks[i], InCategory(s, ks[i]))
  {
    if ks == [] then [] else [Group(ks[0], InCategory(s, ks[0]))] + GroupsFor(s, ks[1..])
  }

  /** `Object.entries(groupedSkills)` when the reduce does not throw. */
  function Grouped(s: seq<Skill>): seq<Group> {
    GroupsFor(s, EntryOrder(Categories(s)))
  }

  /** The category column of a list of groups. */
  function Keys(gs: seq<Group>): (r: seq<string>)
    ensures |r| == |gs|
    ensures forall i :: 0 <= i < |gs| ==> r[i] == gs[i].category
  {
    if gs == [] then [] else [gs[0].category] + Keys(gs[1..])
  }

  /** All skills of all groups, group after group. */
  function Flatten(gs: seq<Group>): seq<Skill> {
    if gs == [] then [] else gs[0].skills + Flatten(gs[1..])
  }

  /**
   * A category the reduce cannot create a list for: every `Object.prototype`
   * member is truthy, so `acc[c]` is never replaced by `[]`, and it has no
   * `push`. A fresh accumulator inherits these members, so such a category
   * throws on its first occurrence and never becomes a key.
   */
  predicate Throws(c: string) {
    c in Js.ObjectPrototypeKeys
  }

  // ---------------------------------------------------------------------------
  // The reduce as written

  /**
   * Runs the reduce over `skills`. It fails with the index of the first skill
   * whose category names an `Object.prototype` member; otherwise it lists the
   * groups in `Object.entries` order.
   */
  method GroupSkills(skills: seq<Skill>) returns (r: Result<seq<Group>, nat>)
    ensures r.Success? <==> Accepts(skills)
    ensures r.Success? ==> r.value == Grouped(skills)
    ensures r.Failure? ==> && r.error < |skills| && Throws(skills[r.error].category)
                           && Accepts(skills[..r.error])
  {
    var keys: seq<string> := [];
    var acc: map<string, seq<Skill>> := map[];
    var i := 0;
    while i < |skills|
      invariant 0 <= i <= |skills|
      invariant Accumulated(skills[..i], keys, acc)
      invariant Accepts(skills[..i])
    {
      var skill := skills[i];
      if Throws(skill.category) {
        return Failure(i);
      }
      AcceptsStep(skills, i);
      PushStep(skills, i, keys, acc);
      keys, acc := PushKeys(keys, acc, skill), PushAcc(acc, skill);
      i := i + 1;
    }
    assert skills[..i] == skills;
    FinishGrouping(skills, keys, acc);
    return Success(Entries(acc, EntryOrder(keys)));
  }

  /** No category of `s` names an `Object.prototype` member, so the reduce runs to the end. */
  predicate Accepts(s: seq<Skill>) {
    forall i :: 0 <= i < |s| ==> !Throws(s[i].category)
  }

  /** A prefix the reduce got through grows by one skill it can push. */
  lemma AcceptsStep(s: seq<Skill>, i: nat)
    requires i < |s| && Accepts(s[..i]) && !Throws(s[i].category)
    ensures Accepts(s[..i + 1])
  {
    assert forall j :: 0 <= j < i ==> s[..i + 1][j] == s[..i][j];
  }

  /** Listing the finished accumulator in `Object.entries` order gives the reference groups. */
  lemma FinishGrouping(s: seq<Skill>, keys: seq<string>, acc: map<string, seq<Skill>>)
    requires Accumulated(s, keys, acc)
    ensures forall k :: k in EntryOrder(keys) ==> k in acc
    ensures Entries(acc, EntryOrder(keys)) == Grouped(s)
  {
    var order := EntryOrder(keys);
    EntryOrderPermutation(keys);
    assert forall k :: k in order ==> k in multiset(keys);
    EntriesOfAccumulator(acc, order, s);
  }

  /**
   * The accumulator after a prefix of the skills: one key per category seen, in
   * first-seen order, each holding that category's skills so far.
   */
  ghost predicate Accumulated(prefix: seq<Skill>, keys: seq<string>, acc: map<string, seq<Skill>>) {
    && keys == Categories(prefix)
    && acc.Keys == set k | k in keys
    && forall k :: k in acc ==> acc[k] == InCategory(prefix, k)
  }

  /** The keys after the reduce has seen `x`: its category is added if it is new. */
  function PushKeys(keys: seq<string>, acc: map<string, seq<Skill>>, x: Skill): seq<string> {
    if x.category in acc then keys else keys + [x.category]
  }

  /** The accumulator after the reduce has seen `x`: `x` is pushed onto its category's list. */
  function PushAcc(acc: map<string, seq<Skill>>, x: Skill): map<string, seq<Skill>> {
    var l := if x.category in acc then acc[x.category] else [];
    acc[x.category := l + [x]]
  }

  /** One step of the reduce keeps the accumulator in step with the skills seen. */
  lemma PushStep(s: seq<Skill>, i: nat, keys: seq<string>, acc: map<string, seq<Skill>>)
    requires i < |s| && Accumulated(s[..i], keys, acc)
    ensures Accumulated(s[..i + 1], PushKeys(keys, acc, s[i]), PushAcc(acc, s[i]))
  {
    var x := s[i];
    var prefix := s[..i];
    var t := s[..i + 1];
    assert t == prefix + [x];
    assert t[..|t| - 1] == prefix;
    assert Categories(t) == PushKeys(keys, acc, x);
    var acc' := PushAcc(acc, x);
    forall k | k in acc'
      ensures acc'[k] == InCategory(t, k)
    {
      if k == x.category && x.category !in acc {
        InCategoriesNone(prefix, {k});
      }
    }
  }

  /** `Object.entries(acc)` for own keys listed in `order`. */
  function Entries(acc: map<string, seq<Skill>>, order: seq<string>): seq<Group>
    requires forall k :: k in order ==> k in acc
  {
    if order == [] then [] else [Group(order[0], acc[order[0]])] + Entries(acc, order[1..])
  }

  /** Reading the finished accumulator gives the reference groups. */
  lemma {:induction false} EntriesOfAccumulator(acc: map<string, seq<Skill>>, order: seq<string>, s: seq<Skill>)
    requires forall k :: k in order ==> k in acc
    requires forall k :: k in acc ==> acc[k] == InCategory(s, k)
    ensures Entries(acc, order) == GroupsFor(s, order)
  {
    if order != [] {
      EntriesOfAccumulator(acc, order[1..], s);
    }
  }

  // ---------------------------------------------------------------------------
  // Properties of the filter and of the first-seen list

  /** Filtering distributes over concatenation: order within a group is input order. */
  lemma {:induction false} InCategoriesAppend(a: seq<Skill>, b: seq<Skill>, cats: set<string>)
    ensures InCategories(a + b, cats) == InCategories(a, cats) + InCategories(b, cats)
  {
    if b == [] {
      assert a + b == a;
    } else {
      var b0 := b[..|b| - 1];
      assert (a + b)[..|a + b| - 1] == a + b0;
      InCategoriesAppend(a, b0, cats);
    }
  }

  /** Filtering by two disjoint category sets splits the filter of their union. */
  lemma {:induction false} InCategoriesUnion(s: seq<Skill>, x: set<string>, y: set<string>)
    requires x !! y
    ensures multiset(InCategories(s, x + y)) == multiset(InCategories(s, x)) + multiset(InCategories(s, y))
  {
    if s != [] {
      InCategoriesUnion(s[..|s| - 1], x, y);
    }
  }

  /** Filtering by a set that holds no category keeps nothing. */
  lemma {:induction false} InCategoriesNone(s: seq<Skill>, cats: set<string>)
    requires forall i :: 0 <= i < |s| ==> s[i].category !in cats
    ensures InCategories(s, cats) == []
  {
    if s != [] {
      InCategoriesNone(s[..|s| - 1], cats);
    }
  }

  /** Filtering by a set that holds every category keeps everything. */
  lemma {:induction false} InCategoriesAll(s: seq<Skill>, cats: set<string>)
    requires forall i :: 0 <= i < |s| ==> s[i].category in cats
    ensures InCategories(s, cats) == s
  {
    if s != [] {
      assert s == s[..|s| - 1] + [s[|s| - 1]];
      InCategoriesAll(s[..|s| - 1], cats);
    }
  }

  /** The position of the first skill of category `c`, or `|s|` when there is none. */
  function FirstIndex(s: seq<Skill>, c: string): (i: nat)
    ensures i <= |s|
    ensures i < |s| ==> s[i].category == c
    ensures forall k :: 0 <= k < i ==> s[k].category != c
  {
    if s == [] then 0
    else if s[0].category == c then 0
    else 1 + FirstIndex(s[1..], c)
  }

  /** Categories are listed in the order in which their first skill occurs. */
  lemma {:induction false} CategoriesFirstSeen(s: seq<Skill>)
    ensures forall i, j :: 0 <= i < j < |Categories(s)| ==>
      FirstIndex(s, Categories(s)[i]) < FirstIndex(s, Categories(s)[j])
  {
    if s != [] {
      var t := s[..|s| - 1];
      var c := s[|s| - 1].category;
      CategoriesFirstSeen(t);
      var ct := Categories(t);
      assert forall k :: 0 <= k < |t| ==> t[k] == s[k];
      forall d | d in ct
        ensures FirstIndex(s, d) == FirstIndex(t, d)
      {
        var a := FirstIndex(s, d);
        var b := FirstIndex(t, d);
        assert b < |t| && s[b].category == d;
        assert a < |t| ==> t[a].category == d;
      }
      if c !in ct {
        assert Categories(s) == ct + [c];
        forall d | d in ct
          ensures FirstIndex(s, d) < |t|
        {
          assert FirstIndex(t, d) < |t|;
        }
        assert forall k :: 0 <= k < |t| ==> s[k].category != c;
        assert FirstIndex(s, c) == |t|;
      }
    }
  }

  // ---------------------------------------------------------------------------
  // Properties of the entries order

  lemma {:induction false} IndexKeysNamedKeysPermutation(ks: seq<string>)
    ensures multiset(IndexKeys(ks)) + multiset(NamedKeys(ks)) == multiset(ks)
  {
    if ks != [] {
      assert ks == ks[..|ks| - 1] + [ks[|ks| - 1]];
      IndexKeysNamedKeysPermutation(ks[..|ks| - 1]);
    }
  }

  /** `Object.entries` lists every own key exactly as often as it was created. */
  lemma EntryOrderPermutation(ks: seq<string>)
    ensures multiset(EntryOrder(ks)) == multiset(ks)
  {
    IndexKeysNamedKeysPermutation(ks);
  }

  /**
   * Array-index keys come first, in ascending numeric order; then the other keys,
   * in creation order.
   */
  lemma EntryOrderShape(ks: seq<string>)
    ensures var r := EntryOrder(ks); var m := |IndexKeys(ks)|;
      && m <= |r|
      && (forall i :: 0 <= i < m ==> Js.IsArrayIndex(r[i]))
      && (forall i :: m <= i < |r| ==> !Js.IsArrayIndex(r[i]))
      && Ascending(r[..m], KeyValue)
      && r[m..] == NamedKeys(ks)
  {
    var sorted := SortBy(IndexKeys(ks), KeyValue);
    var r := EntryOrder(ks);
    forall i | 0 <= i < |sorted|
      ensures Js.IsArrayIndex(sorted[i])
    {
      assert sorted[i] in multiset(IndexKeys(ks));
    }
    assert r[..|sorted|] == sorted;
  }

  lemma {:induction false} NamedKeysOfNamed(ks: seq<string>)
    requires forall i :: 0 <= i < |ks| ==> !Js.IsArrayIndex(ks[i])
    ensures IndexKeys(ks) == [] && NamedKeys(ks) == ks
  {
    if ks != [] {
      assert ks == ks[..|ks| - 1] + [ks[|ks| - 1]];
      NamedKeysOfNamed(ks[..|ks| - 1]);
    }
  }

  /** Without array-index keys, `Object.entries` lists keys in creation order. */
  lemma EntryOrderOfNamed(ks: seq<string>)
    requires forall i :: 0 <= i < |ks| ==> !Js.IsArrayIndex(ks[i])
    ensures EntryOrder(ks) == ks
  {
    NamedKeysOfNamed(ks);
  }

  // ---------------------------------------------------------------------------
  // Properties of the grouping

  lemma {:induction false} FlattenGroupsFor(s: seq<Skill>, ks: seq<string>)
    requires Seqs.Distinct(ks)
    ensures multiset(Flatten(GroupsFor(s, ks))) == multiset(InCategories(s, set k | k in ks))
  {
    if ks == [] {
      InCategoriesNone(s, {});
      assert (set k | k in ks) == {};
    } else {
      var rest := ks[1..];
      assert Seqs.Distinct(rest);
      FlattenGroupsFor(s, rest);
      var x := {ks[0]};
      var y := set k | k in rest;
      assert ks[0] !in rest;
      assert (set k | k in ks) == x + y;
      InCategoriesUnion(s, x, y);
      assert GroupsFor(s, ks)[1..] == GroupsFor(s, rest);
    }
  }

  lemma EntryOrderOfCategories(s: seq<Skill>)
    ensures Seqs.Distinct(EntryOrder(Categories(s)))
    ensures forall c :: c in EntryOrder(Categories(s)) <==> c in Categories(s)
  {
    EntryOrderPermutation(Categories(s));
    Seqs.DistinctPermutation(Categories(s), EntryOrder(Categories(s)));
    forall c
      ensures c in EntryOrder(Categories(s)) <==> c in Categories(s)
    {
      assert c in EntryOrder(Categories(s)) <==> c in multiset(EntryOrder(Categories(s)));
    }
  }

  /**
   * The groups partition the skills: every skill occurs in the groups exactly as
   * often as in the input.
   */
  lemma GroupedPermutation(s: seq<Skill>)
    ensures multiset(Flatten(Grouped(s))) == multiset(s)
  {
    var ks := EntryOrder(Categories(s));
    EntryOrderOfCategories(s);
    FlattenGroupsFor(s, ks);
    InCategoriesAll(s, set k | k in ks);
  }

  /**
   * One group per category present, no two with the same category, and each
   * holds exactly the skills of its category in input order.
   */
  lemma GroupedPartition(s: seq<Skill>)
    ensures forall i :: 0 <= i < |Grouped(s)| ==>
      Grouped(s)[i].skills == InCategory(s, Grouped(s)[i].category) && Grouped(s)[i].skills != []
    ensures Seqs.Distinct(Keys(Grouped(s)))
    ensures forall c :: c in Keys(Grouped(s)) <==> exists i :: 0 <= i < |s| && s[i].category == c
  {
    var ks := EntryOrder(Categories(s));
    EntryOrderOfCategories(s);
    assert Keys(Grouped(s)) == ks;
    forall i | 0 <= i < |ks|
      ensures InCategory(s, ks[i]) != []
    {
      assert ks[i] in Categories(s);
      var k :| 0 <= k < |s| && s[k].category == ks[i];
      assert s[k] in InCategory(s, ks[i]);
    }
  }

  lemma CategoriesOfNamed(s: seq<Skill>)
    requires forall i :: 0 <= i < |s| ==> !Js.IsArrayIndex(s[i].category)
    ensures forall i :: 0 <= i < |Categories(s)| ==> !Js.IsArrayIndex(Categories(s)[i])
  {
    var cs := Categories(s);
    forall i | 0 <= i < |cs|
      ensures !Js.IsArrayIndex(cs[i])
    {
      assert cs[i] in cs;
    }
  }

  /** With no numeric category name, the groups come in first-seen order. */
  lemma GroupedFirstSeenOrder(s: seq<Skill>)
    requires forall i :: 0 <= i < |s| ==> !Js.IsArrayIndex(s[i].category)
    ensures Keys(Grouped(s)) == Categories(s)
    ensures forall i, j :: 0 <= i < j < |Grouped(s)| ==>
      FirstIndex(s, Grouped(s)[i].category) < FirstIndex(s, Grouped(s)[j].category)
  {
    var cs := Categories(s);
    CategoriesOfNamed(s);
    EntryOrderOfNamed(cs);
    var gs := Grouped(s);
    assert gs == GroupsFor(s, cs);
    assert Keys(gs) == cs;
    CategoriesFirstSeen(s);
  }

  /** There is a group exactly when there is a skill. */
  lemma GroupedEmpty(s: seq<Skill>)
    ensures Grouped(s) == [] <==> s == []
  {
    GroupedPartition(s);
    if s != [] {
      assert s[0].category in Keys(Grouped(s));
    }
  }

  /** A category named after an `Object.prototype` member makes the reduce throw. */
  lemma ConstructorCategoryThrows()
    ensures Throws([Skill("1", "constructor", "Java", 2)][0].category)
  {
  }
}
