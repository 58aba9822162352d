/**
 * The project editor's form state: the form fields, the tech and achievement
 * text inputs and which record is being edited. Reordering the project list is
 * `Reorder.HandleDragEnd`.
 */
module ProjectsEditor {
  import opened Wrappers
  import Js
  import Seqs
  import ListEdits

  /** A stored project; its lists may be null in a stored row. */
  datatype ProjectRecord = ProjectRecord(
    id: string,
    name: string,
    description: string,
    startDate: string,
    endDate: string,
    role: string,
    techStack: Option<seq<string>>,
    achievements: Option<seq<string>>,
    url: string,
    logoUrl: string,
    logoFit: string)

  /**
   * The form's fields. The state is typed without an id, but loading a record
   * spreads the record into it, so the id comes along; the empty form has none.
   */
  datatype ProjectForm = ProjectForm(
    id: Option<string>,
    name: string,
    description: string,
    startDate: string,
    endDate: string,
    role: string,
    techStack: seq<string>,
    achievements: seq<string>,
    url: string,
    logoUrl: string,
    logoFit: string)

  /** The empty form: every text "", both lists empty, the logo fitted with "contain". */
  function DefaultForm(): (f: ProjectForm)
    ensures f.id.None?
    ensures f.name == "" && f.description == "" && f.startDate == "" && f.endDate == ""
    ensures f.role == "" && f.url == "" && f.logoUrl == ""
    ensures f.techStack == [] && f.achievements == []
    ensures f.logoFit == "contain"
  {
    ProjectForm(None, "", "", "", "", "", [], [], "", "", "contain")
  }

  /** `{ ...project, tech_stack: project.tech_stack || [], achievements: project.achievements || [] }`. */
  function FormOf(p: ProjectRecord): (f: ProjectForm)
    ensures f.id == Some(p.id)
    ensures f.techStack == p.techStack.GetOr([]) && f.achievements == p.achievements.GetOr([])
    ensures p.techStack.Some? ==> f.techStack == p.techStack.value
    ensures p.techStack.None? ==> f.techStack == []
    ensures f.name == p.name && f.description == p.description && f.role == p.role && f.url == p.url
    ensures f.startDate == p.startDate && f.endDate == p.endDate
    ensures f.logoUrl == p.logoUrl && f.logoFit == p.logoFit
  {
    ProjectForm(Some(p.id), p.name, p.description, p.startDate, p.endDate, p.role,
      p.techStack.GetOr([]), p.achievements.GetOr([]), p.url, p.logoUrl, p.logoFit)
  }

  class Editor {
    var form: ProjectForm
    var techInput: string
    var achievementInput: string
    var isEditing: bool
    var editingId: Option<string>

    constructor ()
      ensures form == DefaultForm() && techInput == "" && achievementInput == ""
      ensures !isEditing && editingId == None
    {
      form := DefaultForm();
      techInput := "";
      achievementInput := "";
      isEditing := false;
      editingId := None;
    }

    /** `resetForm`: back to the state the page starts in. */
    method ResetForm()
      modifies this
      ensures form == DefaultForm() && techInput == "" && achievementInput == ""
      ensures !isEditing && editingId == None
    {
      form := DefaultForm();
      techInput := "";
      achievementInput := "";
      isEditing := false;
      editingId := None;
    }

    /** `handleEdit(project)`: load the record, with null lists read as empty. */
    method HandleEdit(p: ProjectRecord)
      modifies this
      ensures form == FormOf(p) && editingId == Some(p.id) && isEditing
      ensures techInput == old(techInput) && achievementInput == old(achievementInput)
    {
      form := FormOf(p);
      editingId := Some(p.id);
      isEditing := true;
    }

    /**
     * `addTech`: the list and the input become what `ListEdits.AddTech` gives; no
     * other field changes, and a list without repeats keeps none.
     */
    method AddTech()
      modifies this
      ensures var e := ListEdits.AddTech(old(form.techStack), old(techInput));
        form == old(form).(techStack := e.list) && techInput == e.input
      ensures Seqs.Distinct(old(form.techStack)) ==> Seqs.Distinct(form.techStack)
      ensures achievementInput == old(achievementInput)
      ensures isEditing == old(isEditing) && editingId == old(editingId)
    {
      var t := Js.Trim(techInput);
      if Seqs.Distinct(form.techStack) {
        ListEdits.AddTechKeepsDistinct(form.techStack, techInput);
      }
      if t != [] && t !in form.techStack {
        form := form.(techStack := form.techStack + [t]);
        techInput := "";
      }
    }

    /** `removeTech(tech)`: every entry equal to `tech` leaves the list. */
    method RemoveTech(tech: string)
      modifies this
      ensures form == old(form).(techStack := ListEdits.RemoveTech(old(form.techStack), tech))
      ensures tech !in form.techStack
      ensures techInput == old(techInput) && achievementInput == old(achievementInput)
      ensures isEditing == old(isEditing) && editingId == old(editingId)
    {
      form := form.(techStack := ListEdits.RemoveTech(form.techStack, tech));
    }

    /** `addAchievement`: the list and the input become what `ListEdits.AddAchievement` gives. */
    method AddAchievement()
      modifies this
      ensures var e := ListEdits.AddAchievement(old(form.achievements), old(achievementInput));
        form == old(form).(achievements := e.list) && achievementInput == e.input
      ensures techInput == old(techInput)
      ensures isEditing == old(isEditing) && editingId == old(editingId)
    {
      var t := Js.Trim(achievementInput);
      if t != [] {
        form := form.(achievements := form.achievements + [t]);
        achievementInput := "";
      }
    }

    /** `removeAchievement(index)`: the entry at `index`, if any, leaves the list. */
    method RemoveAchievement(index: int)
      modifies this
      ensures form == old(form).(achievements := ListEdits.RemoveAchievement(old(form.achievements), index))
      ensures 0 <= index < |old(form.achievements)| ==> |form.achievements| == |old(form.achievements)| - 1
      ensures techInput == old(techInput) && achievementInput == old(achievementInput)
      ensures isEditing == old(isEditing) && editingId == old(editingId)
    {
      form := form.(achievements := ListEdits.RemoveAchievement(form.achievements, index));
    }
  }
}
