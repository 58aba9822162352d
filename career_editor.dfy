/**
 * The career editor's form state. The form is a partial record: loading a
 * stored career copies it as it is, so its achievement list may be missing
 * (null in the stored row), which every list edit reads as empty.
 */
module CareerEditor {
  import opened Wrappers
  import Js
  import ListEdits
  import Reorder

  /** A stored career. */
  datatype CareerRecord = CareerRecord(
    id: string,
    company: string,
    position: string,
    startDate: string,
    endDate: Option<string>,
    current: bool,
    description: Option<string>,
    achievements: Option<seq<string>>,
    logoUrl: Option<string>,
    logoFit: Option<string>)

  /** `Partial<Career>`: the record being written, with the id once a stored one is loaded. */
  datatype CareerForm = CareerForm(
    id: Option<string>,
    company: string,
    position: string,
    startDate: string,
    endDate: Option<string>,
    current: bool,
    description: Option<string>,
    achievements: Option<seq<string>>,
    logoUrl: Option<string>,
    logoFit: Option<string>)

  /** The empty form: not current, every text "", no achievements, the logo fitted with "contain". */
  function DefaultForm(): (f: CareerForm)
    ensures f.id.None? && !f.current
    ensures f.company == "" && f.position == "" && f.startDate == ""
    ensures f.endDate == Some("") && f.description == Some("") && f.logoUrl == Some("")
    ensures f.achievements == Some([])
    ensures f.logoFit == Some("contain")
  {
    CareerForm(None, "", "", "", Some(""), false, Some(""), Some([]), Some(""), Some("contain"))
  }

  /** `setFormData(career)`: the record as it is. */
  function FormOf(c: CareerRecord): (f: CareerForm)
    ensures f.id == Some(c.id) && f.achievements == c.achievements && f.current == c.current
    ensures f.company == c.company && f.position == c.position && f.startDate == c.startDate
    ensures f.endDate == c.endDate && f.description == c.description
    ensures f.logoUrl == c.logoUrl && f.logoFit == c.logoFit
  {
    CareerForm(Some(c.id), c.company, c.position, c.startDate, c.endDate, c.current,
      c.description, c.achievements, c.logoUrl, c.logoFit)
  }

  /** The achievements as the edits read them: `formData.achievements || []`. */
  function Achievements(f: CareerForm): (r: seq<string>)
    ensures f.achievements.Some? ==> r == f.achievements.value
    ensures f.achievements.None? ==> r == []
  {
    f.achievements.GetOr([])
  }

  class Editor {
    var form: CareerForm
    var achievementInput: string
    var isEditing: bool
    var editingId: Option<string>

    constructor ()
      ensures form == DefaultForm() && achievementInput == "" && !isEditing && editingId == None
    {
      form := DefaultForm();
      achievementInput := "";
      isEditing := false;
      editingId := None;
    }

    /** The end-date picker is disabled while the career is current. */
    function EndDateDisabled(): (b: bool)
      reads this
      ensures b <==> form.current
    {
      form.current
    }

    /** `resetForm`: back to the state the page starts in. */
    method ResetForm()
      modifies this
      ensures form == DefaultForm() && achievementInput == "" && !isEditing && editingId == None
    {
      form := DefaultForm();
      achievementInput := "";
      isEditing := false;
      editingId := None;
    }

    /** `handleEdit(career)`. */
    method HandleEdit(c: CareerRecord)
      modifies this
      ensures form == FormOf(c) && editingId == Some(c.id) && isEditing
      ensures achievementInput == old(achievementInput)
    {
      form := FormOf(c);
      editingId := Some(c.id);
      isEditing := true;
    }

    /**
     * The "current" checkbox: `current` takes the checked value and the end date
     * is cleared either way; nothing else changes.
     */
    method SetCurrent(checked: bool)
      modifies this
      ensures form == old(form).(current := checked, endDate := Some(""))
      ensures EndDateDisabled() <==> checked
      ensures achievementInput == old(achievementInput)
      ensures isEditing == old(isEditing) && editingId == old(editingId)
    {
      form := form.(current := checked, endDate := Some(""));
    }

    /**
     * `addAchievement`: when the input is not blank the list, read as empty when
     * missing, grows by the trimmed input and the input is cleared; otherwise
     * nothing changes, a missing list included.
     */
    method AddAchievement()
      modifies this
      ensures var e := ListEdits.AddAchievement(Achievements(old(form)), old(achievementInput));
        && achievementInput == e.input
        && (Js.Trim(old(achievementInput)) != [] ==> form == old(form).(achievements := Some(e.list)))
        && (Js.Trim(old(achievementInput)) == [] ==> form == old(form))
      ensures isEditing == old(isEditing) && editingId == old(editingId)
    {
      var t := Js.Trim(achievementInput);
      if t != [] {
        form := form.(achievements := Some(Achievements(form) + [t]));
        achievementInput := "";
      }
    }

    /**
     * `removeAchievement(index)`: `achievements?.filter(...) || []`, so the list
     * is present afterwards even when it was missing.
     */
    method RemoveAchievement(index: int)
      modifies this
      ensures form == old(form).(achievements := Some(ListEdits.RemoveAchievement(Achievements(old(form)), index)))
      ensures achievementInput == old(achievementInput)
      ensures isEditing == old(isEditing) && editingId == old(editingId)
    {
      form := form.(achievements := Some(ListEdits.RemoveAchievement(Achievements(form), index)));
    }
  }

  /**
   * The career list's `handleDragEnd`: it computes the moved list, stores
   * nothing, and fetches the list again. The store is not in its frame, so no
   * record changes.
   */
  method HandleDragEnd<T>(store: Reorder.Store<T>, list: Option<seq<Reorder.Entry<T>>>, active: string, over: Option<string>)
      returns (outcome: Reorder.Outcome, reordered: Option<seq<Reorder.Entry<T>>>)
    requires Reorder.Moves(list, active, over) ==>
      Reorder.FindIndex(list.value, active) >= 0 && Reorder.FindIndex(list.value, over.value) >= 0
    ensures outcome.Refetched? <==> Reorder.Moves(list, active, over)
    ensures outcome.Skipped? <==> !Reorder.Moves(list, active, over)
    ensures reordered.Some? <==> Reorder.Moves(list, active, over)
    ensures reordered.Some? ==> reordered.value == Reorder.Moved(list.value, active, over.value)
  {
    if !Reorder.Moves(list, active, over) {
      return Reorder.Skipped, None;
    }
    var moved := Reorder.ArrayMove(list.value, Reorder.FindIndex(list.value, active), Reorder.FindIndex(list.value, over.value));
    return Reorder.Refetched, Some(moved);
  }
}
