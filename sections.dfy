/**
 * The section checkboxes of the two documents. Each document keeps a map from
 * section to "include it"; a checkbox replaces the map by a copy with one flag
 * negated (`{ ...prev, [section]: !prev[section] }`).
 */
module Sections {

  datatype Section = Basic | Introduce | Career | Skills | Education | Projects

  /** Which sections the reader has chosen to include. */
  type Flags = map<Section, bool>

  /** `{ ...prev, [section]: !prev[section] }`. */
  function Toggle(flags: Flags, section: Section): Flags
    requires section in flags
  {
    flags[section := !flags[section]]
  }

  /** The toggled flag is negated; every other flag keeps its value; no flag appears or disappears. */
  lemma ToggleFlipsOne(flags: Flags, section: Section)
    requires section in flags
    ensures Toggle(flags, section).Keys == flags.Keys
    ensures Toggle(flags, section)[section] == !flags[section]
    ensures forall s :: s in flags && s != section ==> Toggle(flags, section)[s] == flags[s]
  {
  }

  /** Toggling the same section twice gives back the map. */
  lemma ToggleTwice(flags: Flags, section: Section)
    requires section in flags
    ensures Toggle(Toggle(flags, section), section) == flags
  {
  }

  /** Toggles of different sections commute. */
  lemma ToggleCommutes(flags: Flags, a: Section, b: Section)
    requires a in flags && b in flags
    ensures Toggle(Toggle(flags, a), b) == Toggle(Toggle(flags, b), a)
  {
  }

  /** Whether `section` is chosen; a section without a checkbox never is. */
  predicate Chosen(flags: Flags, section: Section) {
    section in flags && flags[section]
  }

  /** The sections of `order` that `shown` admits, in order. */
  function Picked(order: seq<Section>, shown: Section -> bool): seq<Section> {
    if order == [] then []
    else (if shown(order[0]) then [order[0]] else []) + Picked(order[1..], shown)
  }

  /** The sections of `s` climb strictly in `rank`. */
  predicate Climbs(s: seq<Section>, rank: Section -> nat) {
    forall i, j :: 0 <= i < j < |s| ==> rank(s[i]) < rank(s[j])
  }

  /**
   * Picking keeps exactly the admitted sections of `order` and keeps their order:
   * when `order` climbs in `rank`, so does what is picked.
   */
  lemma {:induction false} PickedSpec(order: seq<Section>, shown: Section -> bool, rank: Section -> nat)
    requires Climbs(order, rank)
    ensures forall s :: s in Picked(order, shown) <==> s in order && shown(s)
    ensures Climbs(Picked(order, shown), rank)
  {
    if order != [] {
      var rest := Picked(order[1..], shown);
      assert Climbs(order[1..], rank) by {
        forall i, j | 0 <= i < j < |order| - 1
          ensures rank(order[1..][i]) < rank(order[1..][j])
        {
          assert order[1..][i] == order[i + 1] && order[1..][j] == order[j + 1];
        }
      }
      PickedSpec(order[1..], shown, rank);
      assert order == [order[0]] + order[1..];
      if shown(order[0]) {
        var p := [order[0]] + rest;
        forall i, j | 0 <= i < j < |p|
          ensures rank(p[i]) < rank(p[j])
        {
          assert p[j] == rest[j - 1];
          if i == 0 {
            assert p[j] in rest;
            assert p[j] in order[1..];
            var k :| 0 <= k < |order| - 1 && order[1..][k] == p[j];
            assert order[k + 1] == p[j];
          } else {
            assert p[i] == rest[i - 1];
          }
        }
      }
    }
  }

  /** The blocks of the sections of `order` that `shown` admits, in order. */
  function Layout<B>(order: seq<Section>, shown: Section -> bool, block: Section -> B): seq<B> {
    if order == [] then []
    else (if shown(order[0]) then [block(order[0])] else []) + Layout(order[1..], shown, block)
  }

  /** The section of each block, in order. */
  function SectionsOf<B>(bs: seq<B>, section: B -> Section): (r: seq<Section>)
    ensures |r| == |bs|
    ensures forall i :: 0 <= i < |bs| ==> r[i] == section(bs[i])
  {
    if bs == [] then [] else [section(bs[0])] + SectionsOf(bs[1..], section)
  }

  lemma {:induction false} SectionsOfAppend<B>(a: seq<B>, b: seq<B>, section: B -> Section)
    ensures SectionsOf(a + b, section) == SectionsOf(a, section) + SectionsOf(b, section)
  {
    if a != [] {
      assert (a + b)[1..] == a[1..] + b;
      SectionsOfAppend(a[1..], b, section);
    }
  }

  /** When the block of every listed section names that section, a layout shows exactly the picked sections. */
  lemma {:induction false} LayoutSections<B>(order: seq<Section>, shown: Section -> bool,
                                             block: Section -> B, section: B -> Section)
    requires forall s :: s in order ==> section(block(s)) == s
    ensures SectionsOf(Layout(order, shown, block), section) == Picked(order, shown)
  {
    if order != [] {
      assert order == [order[0]] + order[1..];
      LayoutSections(order[1..], shown, block, section);
      var head := if shown(order[0]) then [block(order[0])] else [];
      SectionsOfAppend(head, Layout(order[1..], shown, block), section);
    }
  }

  /** The `selectedSections` state of a document page. */
  class Selection {
    var selected: Flags

    constructor (initial: Flags)
      ensures selected == initial
    {
      selected := initial;
    }

    /** `toggleSection(section)`. */
    method ToggleSection(section: Section)
      requires section in selected
      modifies this
      ensures selected == Toggle(old(selected), section)
    {
      selected := selected[section := !selected[section]];
    }
  }
}
