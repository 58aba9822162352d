/**
 * The editor of other items (papers, certificates, awards, ...): form state and
 * the submit rule. The category is free text; the suggested categories are only
 * offered in a list. Reordering the items is `Reorder.HandleDragEnd`.
 */
module OtherItemsEditor {
  import opened Wrappers
  import Seqs

  /** `COMMON_CATEGORIES`, the suggestions offered for the category field. */
  const CommonCategories: seq<string> := ["논문", "자격증", "수상", "특허", "출판", "강연", "봉사활동", "어학", "기타"]

  /** A stored item. */
  datatype OtherItem = OtherItem(
    id: string,
    title: string,
    category: string,
    organization: string,
    date: string,
    description: string,
    displayOrder: int)

  /** The form's fields, with the id once a stored item is loaded. */
  datatype ItemForm = ItemForm(
    id: Option<string>,
    title: string,
    category: string,
    organization: string,
    date: string,
    description: string,
    displayOrder: int)

  /** The empty form: every text "" and `display_order` 0. */
  function DefaultForm(): (f: ItemForm)
    ensures f.id.None? && f.displayOrder == 0
    ensures f.title == "" && f.category == "" && f.organization == "" && f.date == "" && f.description == ""
  {
    ItemForm(None, "", "", "", "", "", 0)
  }

  /** `setFormData(item)`: the record as it is. */
  function FormOf(i: OtherItem): (f: ItemForm)
    ensures f.id == Some(i.id) && f.title == i.title && f.category == i.category
    ensures f.organization == i.organization && f.date == i.date && f.description == i.description
    ensures f.displayOrder == i.displayOrder
  {
    ItemForm(Some(i.id), i.title, i.category, i.organization, i.date, i.description, i.displayOrder)
  }

  /** The form submits when its two required fields, category and title, are not empty. */
  predicate CanSubmit(f: ItemForm) {
    f.category != "" && f.title != ""
  }

  /** The suggestions are nine distinct non-empty names. */
  lemma SuggestionsDistinct()
    ensures |CommonCategories| == 9 && Seqs.Distinct(CommonCategories)
    ensures forall i :: 0 <= i < |CommonCategories| ==> CommonCategories[i] != ""
  {
    forall i, j | 0 <= i < j < |CommonCategories|
      ensures CommonCategories[i] != CommonCategories[j]
    {
      assert CommonCategories[i][0] != CommonCategories[j][0] || |CommonCategories[i]| != |CommonCategories[j]|;
    }
  }

  /**
   * Any category that is not empty is accepted, whether or not it is one of the
   * suggestions; an empty one never is, nor an empty title.
   */
  lemma CategoryIsFreeText(f: ItemForm)
    ensures CanSubmit(f) <==> f.category != "" && f.title != ""
    ensures f.title != "" && f.category != "" && f.category !in CommonCategories ==> CanSubmit(f)
    ensures !CanSubmit(DefaultForm())
  {
  }

  class Editor {
    var form: ItemForm
    var isEditing: bool
    var editingId: Option<string>

    constructor ()
      ensures form == DefaultForm() && !isEditing && editingId == None
    {
      form := DefaultForm();
      isEditing := false;
      editingId := None;
    }

    /** `resetForm`: back to the state the page starts in. */
    method ResetForm()
      modifies this
      ensures form == DefaultForm() && !isEditing && editingId == None
    {
      form := DefaultForm();
      isEditing := false;
      editingId := None;
    }

    /** `handleEdit(item)`. */
    method HandleEdit(i: OtherItem)
      modifies this
      ensures form == FormOf(i) && editingId == Some(i.id) && isEditing
    {
      form := FormOf(i);
      editingId := Some(i.id);
      isEditing := true;
    }

    /** Typing into the category field: any text is taken as it is. */
    method SetCategory(category: string)
      modifies this
      ensures form == old(form).(category := category)
      ensures isEditing == old(isEditing) && editingId == old(editingId)
    {
      form := form.(category := category);
    }
  }
}
