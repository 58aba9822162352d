/**
 * The education editor's form state. Reordering the education list is
 * `Reorder.HandleDragEnd`.
 */
module EducationEditor {
  import opened Wrappers

  /** A stored education entry. */
  datatype EducationRecord = EducationRecord(
    id: string,
    school: string,
    major: string,
    degree: string,
    startDate: string,
    endDate: string,
    gpa: Option<string>,
    logoUrl: Option<string>,
    logoFit: Option<string>)

  /** The form's fields, with the id once a stored entry is loaded. */
  datatype EducationForm = EducationForm(
    id: Option<string>,
    school: string,
    major: string,
    degree: string,
    startDate: string,
    endDate: string,
    gpa: Option<string>,
    logoUrl: Option<string>,
    logoFit: Option<string>)

  /** The empty form: every text "", the logo fitted with "contain", no id. */
  function DefaultForm(): (f: EducationForm)
    ensures f.id.None?
    ensures f.school == "" && f.major == "" && f.degree == "" && f.startDate == "" && f.endDate == ""
    ensures f.gpa == Some("") && f.logoUrl == Some("")
    ensures f.logoFit == Some("contain")
  {
    EducationForm(None, "", "", "", "", "", Some(""), Some(""), Some("contain"))
  }

  /** `setFormData(education)`: the record as it is. */
  function FormOf(e: EducationRecord): (f: EducationForm)
    ensures f.id == Some(e.id)
    ensures f.school == e.school && f.major == e.major && f.degree == e.degree
    ensures f.startDate == e.startDate && f.endDate == e.endDate
    ensures f.gpa == e.gpa && f.logoUrl == e.logoUrl && f.logoFit == e.logoFit
  {
    EducationForm(Some(e.id), e.school, e.major, e.degree, e.startDate, e.endDate, e.gpa, e.logoUrl, e.logoFit)
  }

  class Editor {
    var form: EducationForm
    var isEditing: bool
    var editingId: Option<string>

    constructor ()
      ensures form == DefaultForm() && !isEditing && editingId == None
    {
      form := DefaultForm();
      isEditing := false;
      editingId := None;
    }

    /** `resetForm`: back to the state the page starts in. */
    method ResetForm()
      modifies this
      ensures form == DefaultForm() && !isEditing && editingId == None
    {
      form := DefaultForm();
      isEditing := false;
      editingId := None;
    }

    /** `handleEdit(education)`. */
    method HandleEdit(e: EducationRecord)
      modifies this
      ensures form == FormOf(e) && editingId == Some(e.id) && isEditing
    {
      form := FormOf(e);
      editingId := Some(e.id);
      isEditing := true;
    }
  }
}
