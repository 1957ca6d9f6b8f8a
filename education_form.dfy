/** The admin education form: the draft it edits, the current-study
    switch, and what it submits to the education routes. */
module EducationForm {
  import opened Wrappers
  import opened Tables
  import opened Schema
  import opened SchemaLaws
  import opened FormText

  /** The form's `InsertEducation` state; end date and description stay
      nullable, the other nullable columns hold a value. */
  datatype EducationDraft = EducationDraft(
    degree: string, institution: string, startDate: string, endDate: Option<string>,
    isCurrent: bool, description: Option<string>, displayOrder: int, isActive: bool)

  /** The initial state, and the state `resetForm` restores. */
  function EmptyDraft(): (d: EducationDraft)
    ensures d.endDate.None? && !d.isCurrent && d.description.None?
    ensures d.displayOrder == 0 && d.isActive
  {
    EducationDraft("", "", "", None, false, None, 0, true)
  }

  /** `handleEdit`: a stored education loaded into the draft. */
  function EditDraft(x: Education): (d: EducationDraft)
    ensures d.degree == x.degree && d.institution == x.institution && d.startDate == x.startDate
    ensures d.endDate == x.endDate && d.description == x.description
    ensures d.isCurrent == OrElse(x.isCurrent, false) && d.isActive == OrElse(x.isActive, true)
    ensures d.displayOrder == OrZero(x.displayOrder)
  {
    EducationDraft(x.degree, x.institution, x.startDate, x.endDate, OrElse(x.isCurrent, false),
                   x.description, OrZero(x.displayOrder), OrElse(x.isActive, true))
  }

  /** The request body the draft is serialised into: every key present. */
  function DraftPayload(d: EducationDraft): NewEducation {
    NewEducation(d.degree, d.institution, d.startDate, Given(d.endDate), Given(Some(d.isCurrent)),
                 Given(d.description), Given(Some(d.displayOrder)), Given(Some(d.isActive)))
  }

  /** The education routes accept what the form sends, as it was sent. */
  lemma DraftAccepted(d: EducationDraft)
    ensures ParseEducation(EducationJson(DraftPayload(d))) == Some(DraftPayload(d))
    ensures ParseEducationPatch(EducationJson(DraftPayload(d))) == Some(EducationAsPatch(DraftPayload(d)))
  {
    EducationRoundTrip(DraftPayload(d));
    EducationPartialAcceptsFull(EducationJson(DraftPayload(d)));
  }

  /** An education entry created from a draft loads back into the same draft. */
  lemma EditCreatedRestoresDraft(d: EducationDraft, now: int)
    ensures EditDraft(InsertedEducation(DraftPayload(d), now)) == d
  {
  }

  class EducationEditor {
    var formData: EducationDraft
    var editingId: Option<Id>
    var showForm: bool

    constructor()
      ensures formData == EmptyDraft() && editingId == None && !showForm
    {
      formData := EmptyDraft();
      editingId := None;
      showForm := false;
    }

    /** The end date field, which is disabled while the switch is on:
        clearing it stores null. */
    method SetEndDate(text: string)
      requires !formData.isCurrent
      modifies this`formData
      ensures formData == old(formData).(endDate := EmptyToNull(text))
      ensures ShownText(formData.endDate) == text
    {
      formData := formData.(endDate := EmptyToNull(text));
    }

    /** The "currently studying here" switch: turning it on clears the end
        date, turning it off keeps whatever end date there is. */
    method SetCurrent(checked: bool)
      modifies this`formData
      ensures formData == old(formData).(isCurrent := checked, endDate := if checked then None else old(formData.endDate))
      ensures checked ==> EndDateLabel(formData.endDate) == "Present"
    {
      formData := formData.(isCurrent := checked, endDate := if checked then None else formData.endDate);
    }

    /** The description field: clearing it stores null. */
    method SetDescription(text: string)
      modifies this`formData
      ensures formData == old(formData).(description := EmptyToNull(text))
      ensures ShownText(formData.description) == text
    {
      formData := formData.(description := EmptyToNull(text));
    }

    /** The display order field, read with `parseInt(..) || 0`. */
    method SetDisplayOrder(text: string)
      modifies this`formData
      ensures formData == old(formData).(displayOrder := ParseIntOrZero(text))
    {
      formData := formData.(displayOrder := ParseIntOrZero(text));
    }

    /** `resetForm`. */
    method ResetForm()
      modifies this
      ensures formData == EmptyDraft() && editingId == None && !showForm
    {
      formData := EmptyDraft();
      editingId := None;
      showForm := false;
    }

    /** `handleEdit`: loads a stored education entry and opens the form on it. */
    method HandleEdit(edu: Row<Education>)
      modifies this`formData, this`editingId, this`showForm
      ensures formData == EditDraft(edu.data)
      ensures editingId == Some(edu.id) && showForm
    {
      formData := EditDraft(edu.data);
      editingId := Some(edu.id);
      showForm := true;
    }

    /** `handleSubmit`: an update of the education entry being edited, otherwise
        a create, with a body the route's validator reads back as the draft. */
    method HandleSubmit() returns (s: Submission<EducationDraft>)
      ensures s.Update? <==> editingId.Some?
      ensures s.Update? ==> s.id == editingId.value
      ensures s.data == formData
      ensures ParseEducation(EducationJson(DraftPayload(s.data))) == Some(DraftPayload(formData))
      ensures ParseEducationPatch(EducationJson(DraftPayload(s.data))) == Some(EducationAsPatch(DraftPayload(formData)))
    {
      s := Submit(editingId, formData);
      DraftAccepted(formData);
    }
  }
}
