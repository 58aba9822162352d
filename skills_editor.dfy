/**
 * The skills editor: the skill form and its level choice, and the grouped list
 * it shows, which is empty before the skills load.
 */
module SkillsEditor {
  import opened Wrappers
  import Js
  import opened Profile
  import SkillGrouping
  import ResumePage

  /** The form's fields, with the id once a stored skill is loaded. */
  datatype SkillForm = SkillForm(id: Option<string>, category: string, name: string, level: Level)

  /** The empty form: no category, no name, level 2. */
  function DefaultForm(): (f: SkillForm)
    ensures f.id.None? && f.category == "" && f.name == "" && f.level == 2
  {
    SkillForm(None, "", "", 2)
  }

  /** `setFormData(skill)`. */
  function FormOf(s: Skill): (f: SkillForm)
    ensures f.id == Some(s.id) && f.category == s.category && f.name == s.name && f.level == s.level
  {
    SkillForm(Some(s.id), s.category, s.name, s.level)
  }

  /** The level options in the select, in order: each value with its label. */
  function LevelOptions(): (r: seq<(Level, string)>)
    ensures |r| == 3
    ensures forall i :: 0 <= i < 3 ==> r[i].0 == i + 1
    ensures forall i :: 0 <= i < 3 ==> r[i].1 == Js.IntToString(i + 1) + " - " + ResumePage.LevelText(i + 1)
  {
    [(1, "1 - " + ResumePage.LevelText(1)), (2, "2 - " + ResumePage.LevelText(2)), (3, "3 - " + ResumePage.LevelText(3))]
  }

  /** Every level can be chosen, by exactly one option, and no other value can. */
  lemma LevelOptionsExact(level: int)
    ensures (exists i :: 0 <= i < |LevelOptions()| && LevelOptions()[i].0 == level) <==> 1 <= level <= 3
  {
    if 1 <= level <= 3 {
      assert LevelOptions()[level - 1].0 == level;
    }
  }

  /**
   * What the list is built from: no groups before the skills load, the groups of
   * the loaded skills, or `None` when the reduce throws in the component body and
   * the page does not render.
   */
  function Listing(skills: Option<seq<Skill>>): Option<seq<SkillGrouping.Group>> {
    match skills
    case None => Some([])
    case Some(s) => if SkillGrouping.Accepts(s) then Some(SkillGrouping.Grouped(s)) else None
  }

  /**
   * `skills ? skills.reduce(...) : {}`: before the skills load there are no
   * groups; afterwards the grouping may fail as `SkillGrouping.GroupSkills` does.
   */
  method GroupedSkills(skills: Option<seq<Skill>>) returns (r: Result<seq<SkillGrouping.Group>, nat>)
    ensures skills.None? ==> r == Success([])
    ensures skills.Some? && r.Success? ==> r.value == SkillGrouping.Grouped(skills.value)
    ensures skills.Some? ==>
      (r.Success? <==> forall i :: 0 <= i < |skills.value| ==> !SkillGrouping.Throws(skills.value[i].category))
    ensures r.Success? <==> Listing(skills).Some?
    ensures r.Success? ==> r.value == Listing(skills).value
  {
    if skills.None? {
      return Success([]);
    }
    r := SkillGrouping.GroupSkills(skills.value);
  }

  /** The "등록된 기술이 없습니다." message shows exactly when there are no groups. */
  predicate ShowsNoSkillsMessage(groups: seq<SkillGrouping.Group>) {
    |groups| == 0
  }

  /**
   * On a page that renders, the message shows before the skills load and when
   * there are none, and only then; a page that does not render has skills.
   */
  lemma NoSkillsMessage(skills: Option<seq<Skill>>)
    ensures skills.None? ==> ShowsNoSkillsMessage([])
    ensures skills.Some? ==> (ShowsNoSkillsMessage(SkillGrouping.Grouped(skills.value)) <==> skills.value == [])
    ensures Listing(skills).Some? ==>
      (ShowsNoSkillsMessage(Listing(skills).value) <==> skills.None? || skills.value == [])
    ensures Listing(skills).None? ==> skills.Some? && skills.value != []
  {
    if skills.Some? {
      SkillGrouping.GroupedEmpty(skills.value);
    }
  }

  class Editor {
    var form: SkillForm
    var isEditing: bool
    var editingId: Option<string>

    constructor ()
      ensures form == DefaultForm() && !isEditing && editingId == None
    {
      form := DefaultForm();
      isEditing := false;
      editingId := None;
    }

    /** `resetForm`: back to the state the page starts in. */
    method ResetForm()
      modifies this
      ensures form == DefaultForm() && !isEditing && editingId == None
    {
      form := DefaultForm();
      isEditing := false;
      editingId := None;
    }

    /** `handleEdit(skill)`. */
    method HandleEdit(s: Skill)
      modifies this
      ensures form == FormOf(s) && editingId == Some(s.id) && isEditing
    {
      form := FormOf(s);
      editingId := Some(s.id);
      isEditing := true;
    }

    /** Choosing a level in the select. */
    method SetLevel(level: Level)
      modifies this
      ensures form == old(form).(level := level)
      ensures isEditing == old(isEditing) && editingId == old(editingId)
    {
      form := form.(level := level);
    }
  }
}
