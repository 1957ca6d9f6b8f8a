/** The admin experience form: the draft it edits, its achievement list,
    the current-position switch, and what it submits to the experience
    routes. */
module ExperienceForm {
  import opened Wrappers
  import opened Tables
  import opened Schema
  import opened SchemaLaws
  import opened FormText

  /** The form's `InsertExperience` state; end date and description stay
      nullable, the other nullable columns hold a value. */
  datatype ExperienceDraft = ExperienceDraft(
    jobTitle: string, company: string, startDate: string, endDate: Option<string>,
    isCurrent: bool, description: Option<string>, achievements: seq<string>,
    displayOrder: int, isActive: bool)

  /** The initial state, and the state `resetForm` restores. */
  function EmptyDraft(): (d: ExperienceDraft)
    ensures d.endDate.None? && !d.isCurrent && d.description.None?
    ensures d.achievements == [] && d.displayOrder == 0 && d.isActive
  {
    ExperienceDraft("", "", "", None, false, None, [], 0, true)
  }

  /** `handleEdit`: a stored experience loaded into the draft. */
  function EditDraft(x: Experience): (d: ExperienceDraft)
    ensures d.jobTitle == x.jobTitle && d.company == x.company && d.startDate == x.startDate
    ensures d.endDate == x.endDate && d.description == x.description
    ensures d.isCurrent == OrElse(x.isCurrent, false) && d.isActive == OrElse(x.isActive, true)
    ensures d.achievements == OrEmpty(x.achievements) && d.displayOrder == OrZero(x.displayOrder)
  {
    ExperienceDraft(x.jobTitle, x.company, x.startDate, x.endDate, OrElse(x.isCurrent, false),
                    x.description, OrEmpty(x.achievements), OrZero(x.displayOrder), OrElse(x.isActive, true))
  }

  /** The request body the draft is serialised into: every key present. */
  function DraftPayload(d: ExperienceDraft): NewExperience {
    NewExperience(d.jobTitle, d.company, d.startDate, Given(d.endDate), Given(Some(d.isCurrent)),
                  Given(d.description), Given(Some(d.achievements)), Given(Some(d.displayOrder)),
                  Given(Some(d.isActive)))
  }

  /** The experience routes accept what the form sends, as it was sent. */
  lemma DraftAccepted(d: ExperienceDraft)
    ensures ParseExperience(ExperienceJson(DraftPayload(d))) == Some(DraftPayload(d))
    ensures ParseExperiencePatch(ExperienceJson(DraftPayload(d))) == Some(ExperienceAsPatch(DraftPayload(d)))
  {
    ExperienceRoundTrip(DraftPayload(d));
    ExperiencePartialAcceptsFull(ExperienceJson(DraftPayload(d)));
  }

  /** An experience created from a draft loads back into the same draft. */
  lemma EditCreatedRestoresDraft(d: ExperienceDraft, now: int)
    ensures EditDraft(InsertedExperience(DraftPayload(d), now)) == d
  {
  }

  class ExperienceEditor {
    var formData: ExperienceDraft
    var editingId: Option<Id>
    var showForm: bool
    var achievementInput: string

    constructor()
      ensures formData == EmptyDraft() && editingId == None && !showForm && achievementInput == ""
    {
      formData := EmptyDraft();
      editingId := None;
      showForm := false;
      achievementInput := "";
    }

    /** The end date field, which is disabled while the switch is on:
        clearing it stores null. */
    method SetEndDate(text: string)
      requires !formData.isCurrent
      modifies this`formData
      ensures formData == old(formData).(endDate := EmptyToNull(text))
      ensures ShownText(formData.endDate) == text
    {
      formData := formData.(endDate := EmptyToNull(text));
    }

    /** The "currently working here" switch: turning it on clears the end
        date, turning it off keeps whatever end date there is. */
    method SetCurrent(checked: bool)
      modifies this`formData
      ensures formData == old(formData).(isCurrent := checked, endDate := if checked then None else old(formData.endDate))
      ensures checked ==> EndDateLabel(formData.endDate) == "Present"
    {
      formData := formData.(isCurrent := checked, endDate := if checked then None else formData.endDate);
    }

    /** The description field: clearing it stores null. */
    method SetDescription(text: string)
      modifies this`formData
      ensures formData == old(formData).(description := EmptyToNull(text))
      ensures ShownText(formData.description) == text
    {
      formData := formData.(description := EmptyToNull(text));
    }

    /** The display order field, read with `parseInt(..) || 0`. */
    method SetDisplayOrder(text: string)
      modifies this`formData
      ensures formData == old(formData).(displayOrder := ParseIntOrZero(text))
    {
      formData := formData.(displayOrder := ParseIntOrZero(text));
    }

    method SetAchievementInput(text: string)
      modifies this`achievementInput
      ensures achievementInput == text
    {
      achievementInput := text;
    }

    /** `addAchievement`: a non-blank input is appended trimmed, repeats
        allowed, and only then is the input cleared. */
    method AddAchievement()
      modifies this`formData, this`achievementInput
      ensures formData == old(formData).(achievements := AddTrimmed(old(formData.achievements), old(achievementInput)))
      ensures achievementInput == if Trim(old(achievementInput)) != "" then "" else old(achievementInput)
    {
      var t := Trim(achievementInput);
      if t != "" {
        formData := formData.(achievements := formData.achievements + [t]);
        achievementInput := "";
      }
    }

    /** `removeAchievement`: drops the entry at `index`, so of two equal
        achievements only the one clicked goes. */
    method RemoveAchievement(index: int)
      modifies this`formData
      ensures formData == old(formData).(achievements := RemoveAt(old(formData.achievements), index))
    {
      formData := formData.(achievements := RemoveAt(formData.achievements, index));
    }

    /** `resetForm`. */
    method ResetForm()
      modifies this
      ensures formData == EmptyDraft() && editingId == None && !showForm && achievementInput == ""
    {
      formData := EmptyDraft();
      editingId := None;
      showForm := false;
      achievementInput := "";
    }

    /** `handleEdit`: loads a stored experience and opens the form on it. */
    method HandleEdit(experience: Row<Experience>)
      modifies this`formData, this`editingId, this`showForm
      ensures formData == EditDraft(experience.data)
      ensures editingId == Some(experience.id) && showForm
    {
      formData := EditDraft(experience.data);
      editingId := Some(experience.id);
      showForm := true;
    }

    /** `handleSubmit`: an update of the experience being edited, otherwise
        a create, with a body the route's validator reads back as the draft. */
    method HandleSubmit() returns (s: Submission<ExperienceDraft>)
      ensures s.Update? <==> editingId.Some?
      ensures s.Update? ==> s.id == editingId.value
      ensures s.data == formData
      ensures ParseExperience(ExperienceJson(DraftPayload(s.data))) == Some(DraftPayload(formData))
      ensures ParseExperiencePatch(ExperienceJson(DraftPayload(s.data))) == Some(ExperienceAsPatch(DraftPayload(formData)))
    {
      s := Submit(editingId, formData);
      DraftAccepted(formData);
    }
  }
}
