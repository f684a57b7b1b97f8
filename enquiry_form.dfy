/**
 * The enquiry form: its field record, its error record, the checks that
 * gate submission, and the handlers that edit both records.
 */
module Enquiry {
  import opened Wrappers
  import opened JsText
  import opened AuthContext
  import opened LeadForms

  const NameRequired := "Name is required"
  const EnquirySuccess := "Thanks! Our team will contact you shortly."
  const EnquiryFailed := "Failed to submit enquiry"

  datatype FormData = FormData(
    name: string, phone: string, email: string, projectName: string, projectId: int, location: string)

  datatype Errors = Errors(name: string, phone: string, projectName: string, location: string)

  const NoErrors := Errors("", "", "", "")

  /** The name check: `name.trim()` must not be empty. */
  function NameError(name: string): (e: string)
    ensures e == "" <==> !AllWhitespace(name)
    ensures e == "" || e == NameRequired
  {
    TrimEmptyIff(name);
    if Trim(name) == "" then NameRequired else ""
  }

  /** The four errors `validateForm` records. */
  function CheckForm(d: FormData): (e: Errors)
    ensures e.name == "" <==> !AllWhitespace(d.name)
    ensures e.phone == "" <==> IsTenDigitNumeral(d.phone)
    ensures e.projectName == "" <==> d.projectId != 0
    ensures e.location == "" <==> d.location != ""
  {
    Errors(NameError(d.name), ValidatePhone(d.phone), ProjectError(d.projectId), LocationError(d.location))
  }

  predicate AllClear(e: Errors) {
    e.name == "" && e.phone == "" && e.projectName == "" && e.location == ""
  }

  /**
   * The form passes iff the name has a non-whitespace character, the phone
   * is ten digits, a project is chosen and the location is filled in: each
   * field blocks submission on its own.
   */
  lemma FormValidIff(d: FormData)
    ensures AllClear(CheckForm(d)) <==>
              && !AllWhitespace(d.name)
              && IsTenDigitNumeral(d.phone)
              && d.projectId != 0
              && d.location != ""
  {
  }

  /** A whitespace-only name is rejected. */
  lemma BlankNameRejected(d: FormData)
    requires AllWhitespace(d.name)
    ensures !AllClear(CheckForm(d))
  {
  }

  /**
   * Picking the placeholder entry clears the project error on screen
   * (`handleProjectSelect`), but the next validation blocks the form again.
   */
  lemma PlaceholderStillBlocks(d: FormData)
    ensures !AllClear(CheckForm(d.(projectName := Projects[0].name, projectId := Projects[0].id)))
  {
  }

  /** The request the submission sends: the name as typed, untrimmed. */
  function RequestOf(d: FormData): (r: LeadRequest)
    ensures r.customerName == d.name && r.mobileNumber == d.phone && r.email == d.email
    ensures r.location == d.location && r.projectName == d.projectName
    ensures r.countryCode == CountryCode && r.agentName == AgentName && r.referrer == None
    ensures r.remarks == Remarks
  {
    LeadRequest(d.name, d.phone, CountryCode, d.email, d.location, d.projectName, AgentName, None, Remarks)
  }

  class EnquiryForm {
    var formData: FormData
    var errors: Errors
    var showProjectDropdown: bool
    var isLoading: bool

    /** The phone starts as the session number (`mobile || ''`). */
    constructor (session: SessionStore)
      ensures formData == FormData("", MobileOf(session.authData), "", "", 0, "")
      ensures errors == NoErrors
      ensures !showProjectDropdown && !isLoading
    {
      formData := FormData("", MobileOf(session.authData), "", "", 0, "");
      errors := NoErrors;
      showProjectDropdown := false;
      isLoading := false;
    }

    /** `validateForm`: record the four errors and report whether all are clear. */
    method ValidateForm() returns (ok: bool)
      modifies this
      ensures errors == CheckForm(formData)
      ensures ok <==> AllClear(errors)
      ensures formData == old(formData)
      ensures showProjectDropdown == old(showProjectDropdown) && isLoading == old(isLoading)
    {
      errors := CheckForm(formData);
      ok := errors.name == "" && errors.phone == "" && errors.projectName == "" && errors.location == "";
    }

    /** `handleProjectSelect(project)`: only the project fields and the project error change. */
    method HandleProjectSelect(project: ProjectOption)
      modifies this
      ensures formData == old(formData).(projectName := project.name, projectId := project.id)
      ensures errors == old(errors).(projectName := "")
      ensures !showProjectDropdown && isLoading == old(isLoading)
    {
      formData := formData.(projectName := project.name, projectId := project.id);
      errors := errors.(projectName := "");
      showProjectDropdown := false;
    }

    method OpenProjectDropdown()
      modifies this
      ensures showProjectDropdown
      ensures formData == old(formData) && errors == old(errors) && isLoading == old(isLoading)
    {
      showProjectDropdown := true;
    }

    method ChangeName(text: string)
      modifies this
      ensures formData == old(formData).(name := text) && errors == old(errors).(name := "")
      ensures showProjectDropdown == old(showProjectDropdown) && isLoading == old(isLoading)
    {
      formData := formData.(name := text);
      errors := errors.(name := "");
    }

    method BlurName()
      modifies this
      ensures errors == old(errors).(name := NameError(formData.name))
      ensures formData == old(formData)
      ensures showProjectDropdown == old(showProjectDropdown) && isLoading == old(isLoading)
    {
      errors := errors.(name := NameError(formData.name));
    }

    method ChangePhone(text: string)
      modifies this
      ensures formData == old(formData).(phone := text) && errors == old(errors).(phone := "")
      ensures showProjectDropdown == old(showProjectDropdown) && isLoading == old(isLoading)
    {
      formData := formData.(phone := text);
      errors := errors.(phone := "");
    }

    method BlurPhone()
      modifies this
      ensures errors == old(errors).(phone := ValidatePhone(formData.phone))
      ensures formData == old(formData)
      ensures showProjectDropdown == old(showProjectDropdown) && isLoading == old(isLoading)
    {
      errors := errors.(phone := ValidatePhone(formData.phone));
    }

    /** The email is never checked, so editing it touches no error. */
    method ChangeEmail(text: string)
      modifies this
      ensures formData == old(formData).(email := text) && errors == old(errors)
      ensures showProjectDropdown == old(showProjectDropdown) && isLoading == old(isLoading)
    {
      formData := formData.(email := text);
    }

    method ChangeLocation(text: string)
      modifies this
      ensures formData == old(formData).(location := text) && errors == old(errors).(location := "")
      ensures showProjectDropdown == old(showProjectDropdown) && isLoading == old(isLoading)
    {
      formData := formData.(location := text);
      errors := errors.(location := "");
    }

    /**
     * `handleSubmit`, with `response` the gateway's answer to the request:
     * nothing is sent unless every check passes.
     */
    method HandleSubmit(response: SubmitFetch) returns (outcome: SubmitOutcome)
      modifies this
      ensures errors == CheckForm(formData) && formData == old(formData)
      ensures outcome.Blocked? <==> !AllClear(CheckForm(formData))
      ensures showProjectDropdown == old(showProjectDropdown)
      ensures outcome.Blocked? ==> isLoading == old(isLoading)
      ensures !outcome.Blocked? ==>
                && outcome == Sent(RequestOf(formData), SubmitAlert(response, EnquirySuccess, EnquiryFailed))
                && !isLoading
    {
      var ok := ValidateForm();
      if !ok {
        return Blocked;
      }
      isLoading := true;
      var request := RequestOf(formData);
      var alert := SubmitAlert(response, EnquirySuccess, EnquiryFailed);
      isLoading := false;
      outcome := Sent(request, alert);
    }
  }
}
