/**
 * The list edits of the project and career editors: the tech-stack chips
 * (`addTech`, `removeTech`), the achievement list (`addAchievement`,
 * `removeAchievement`) and the indent level an achievement is displayed with.
 * Each edit builds a new array and replaces the form's copy; an edit returns the
 * new list together with the new contents of its text input.
 */
module ListEdits {
  import Js
  import Seqs

  /** A list and the text input that feeds it. */
  datatype Edit = Edit(list: seq<string>, input: string)

  // ---------------------------------------------------------------------------
  // Tech stack

  /**
   * `addTech`: appends the trimmed input and clears it when the trimmed input is
   * neither empty nor already listed; otherwise leaves both as they are.
   */
  function AddTech(list: seq<string>, input: string): Edit {
    var t := Js.Trim(input);
    if t != [] && t !in list then Edit(list + [t], "") else Edit(list, input)
  }

  /**
   * The list grows exactly when the trimmed input is new and not blank; it then
   * grows by that text at the end and the input is cleared. Otherwise the list
   * and the input stay as they were.
   */
  lemma AddTechOutcome(list: seq<string>, input: string)
    ensures var r := AddTech(list, input); var t := Js.Trim(input);
      && |list| <= |r.list| && r.list[..|list|] == list
      && (|r.list| > |list| <==> t != [] && t !in list)
      && (|r.list| > |list| ==> r.list == list + [t] && r.input == "")
      && (|r.list| == |list| ==> r.input == input)
  {
    var t := Js.Trim(input);
    if t != [] && t !in list {
      assert (list + [t])[..|list|] == list;
    }
  }

  /** `addTech` never introduces a duplicate, a blank entry or untrimmed text. */
  lemma AddTechKeepsDistinct(list: seq<string>, input: string)
    requires Seqs.Distinct(list)
    ensures Seqs.Distinct(AddTech(list, input).list)
    ensures forall i :: |list| <= i < |AddTech(list, input).list| ==>
      var x := AddTech(list, input).list[i]; x != [] && Js.Trim(x) == x
  {
    var t := Js.Trim(input);
    Js.TrimIdempotent(input);
    if t != [] && t !in list {
      var r := list + [t];
      forall i, j | 0 <= i < j < |r|
        ensures r[i] != r[j]
      {
        if j == |list| {
          assert r[i] in list;
        }
      }
    }
  }

  /** `removeTech(tech)`: `filter((t) => t !== tech)`. */
  function RemoveTech(list: seq<string>, tech: string): (r: seq<string>)
    ensures |r| <= |list|
    ensures forall x :: x in r <==> x in list && x != tech
  {
    if list == [] then []
    else
      assert list == [list[0]] + list[1..];
      var rest := RemoveTech(list[1..], tech);
      if list[0] != tech then [list[0]] + rest else rest
  }

  /** The filter keeps the order of what it keeps. */
  lemma {:induction false} RemoveTechAppend(a: seq<string>, b: seq<string>, tech: string)
    ensures RemoveTech(a + b, tech) == RemoveTech(a, tech) + RemoveTech(b, tech)
  {
    if a == [] {
      assert a + b == b;
    } else {
      assert (a + b)[1..] == a[1..] + b;
      RemoveTechAppend(a[1..], b, tech);
    }
  }

  /** Removing a tech that is not listed changes nothing. */
  lemma {:induction false} RemoveTechAbsent(list: seq<string>, tech: string)
    requires tech !in list
    ensures RemoveTech(list, tech) == list
  {
    if list != [] {
      assert list == [list[0]] + list[1..];
      RemoveTechAbsent(list[1..], tech);
    }
  }

  /** Removing what `addTech` just added gives back the list before it. */
  lemma RemoveAddedTech(list: seq<string>, input: string)
    requires Js.Trim(input) != [] && Js.Trim(input) !in list
    ensures RemoveTech(AddTech(list, input).list, Js.Trim(input)) == list
  {
    var t := Js.Trim(input);
    RemoveTechAppend(list, [t], t);
    RemoveTechAbsent(list, t);
    assert RemoveTech([t], t) == [];
  }

  // ---------------------------------------------------------------------------
  // Achievements

  /**
   * `addAchievement`: appends the trimmed input and clears it when it is not
   * blank; otherwise leaves both as they are. Repeats are allowed.
   */
  function AddAchievement(list: seq<string>, input: string): Edit {
    var t := Js.Trim(input);
    if t != [] then Edit(list + [t], "") else Edit(list, input)
  }

  /**
   * The list grows by the trimmed input, and the input is cleared, exactly when
   * the input is not all white space; otherwise nothing changes.
   */
  lemma AddAchievementOutcome(list: seq<string>, input: string)
    ensures var r := AddAchievement(list, input);
      && |list| <= |r.list| && r.list[..|list|] == list
      && (|r.list| > |list| <==> exists i :: 0 <= i < |input| && !Js.IsSpace(input[i]))
      && (|r.list| > |list| ==> r.list == list + [Js.Trim(input)] && r.input == "")
      && (|r.list| == |list| ==> r.input == input)
  {
    var t := Js.Trim(input);
    if t != [] {
      assert (list + [t])[..|list|] == list;
    }
  }

  /** `removeAchievement(index)`: `filter((_, i) => i !== index)`. */
  function RemoveAchievement(list: seq<string>, index: int): (r: seq<string>)
    ensures 0 <= index < |list| ==> r == list[..index] + list[index + 1..]
    ensures !(0 <= index < |list|) ==> r == list
  {
    if list == [] then []
    else
      var n := |list| - 1;
      var init := list[..n];
      assert list == init + [list[n]];
      var rest := RemoveAchievement(init, index);
      if n != index then rest + [list[n]] else rest
  }

  /** Removing the entry `addAchievement` just appended gives back the list before it. */
  lemma RemoveAddedAchievement(list: seq<string>, input: string)
    requires Js.Trim(input) != []
    ensures RemoveAchievement(AddAchievement(list, input).list, |list|) == list
  {
    assert (list + [Js.Trim(input)])[..|list|] == list;
  }

  // ---------------------------------------------------------------------------
  // Indent level

  /** `Math.min(Math.floor(indent / 2), 2)` for the leading white space of the entry. */
  function IndentLevel(achievement: string): (level: nat)
    ensures level <= 2
    ensures level < 2 ==> 2 * level <= Js.LeadingSpaces(achievement) < 2 * level + 2
    ensures level == 2 <==> Js.LeadingSpaces(achievement) >= 4
  {
    var indent := Js.LeadingSpaces(achievement);
    if indent / 2 < 2 then indent / 2 else 2
  }

  /** `n` spaces. */
  function Spaces(n: nat): (s: string)
    ensures |s| == n && forall i :: 0 <= i < n ==> s[i] == ' '
  {
    if n == 0 then [] else [' '] + Spaces(n - 1)
  }

  /** Leading white space of `n` spaces before text that starts with something else. */
  lemma {:induction false} LeadingSpacesOfIndented(n: nat, text: string)
    requires text == [] || !Js.IsSpace(text[0])
    ensures Js.LeadingSpaces(Spaces(n) + text) == n
  {
    if n > 0 {
      assert (Spaces(n) + text)[1..] == Spaces(n - 1) + text;
      LeadingSpacesOfIndented(n - 1, text);
    } else {
      assert Spaces(n) + text == text;
    }
  }

  /** Two spaces per level, at most two levels: 2 spaces give 1, 4 give 2, 6 still give 2. */
  lemma IndentLevelOfSpaces(n: nat, text: string)
    requires text == [] || !Js.IsSpace(text[0])
    ensures IndentLevel(Spaces(n) + text) == if n / 2 < 2 then n / 2 else 2
    ensures n == 2 ==> IndentLevel(Spaces(n) + text) == 1
    ensures n == 4 || n == 6 ==> IndentLevel(Spaces(n) + text) == 2
    ensures n < 2 ==> IndentLevel(Spaces(n) + text) == 0
  {
    LeadingSpacesOfIndented(n, text);
  }

  /**
   * `addAchievement` trims, so what it appends starts without white space and is
   * displayed at level 0: indented entries come only from stored data.
   */
  lemma AddedAchievementLevel(list: seq<string>, input: string)
    requires Js.Trim(input) != []
    ensures var r := AddAchievement(list, input).list; |r| > 0 && IndentLevel(r[|r| - 1]) == 0
  {
    assert AddAchievement(list, input).list == list + [Js.Trim(input)];
  }
}
