/**
 * The referral form. It differs from the enquiry form in three ways: the
 * name is checked without trimming, the phone starts empty, and a submission
 * needs the referrer record fetched on mount.
 */
module Referral {
  import opened Wrappers
  import opened JsText
  import opened Gateway
  import opened AuthContext
  import opened LeadForms

  const ReferralNameRequired := "Referral name is required"
  const ReferralSuccess := "Thank you for the referral. Our team will reach out accordingly."
  const ReferralFailed := "Failed to submit referral"

  datatype FormData = FormData(
    referralName: string, referralPhone: string, referralEmail: string,
    projectName: string, projectId: int, location: string)

  datatype Errors = Errors(referralPhone: string, referralName: string, projectName: string, location: string)

  const NoErrors := Errors("", "", "", "")

  /** The name check: only the empty string fails, with no trim. */
  function ReferralNameError(name: string): (e: string)
    ensures e == "" <==> name != ""
    ensures e == "" || e == ReferralNameRequired
  {
    if name == "" then ReferralNameRequired else ""
  }

  /** The four errors `validateForm` records; the email has none. */
  function CheckForm(d: FormData): (e: Errors)
    ensures e.referralPhone == "" <==> IsTenDigitNumeral(d.referralPhone)
    ensures e.referralName == "" <==> d.referralName != ""
    ensures e.projectName == "" <==> d.projectId != 0
    ensures e.location == "" <==> d.location != ""
  {
    Errors(ValidatePhone(d.referralPhone), ReferralNameError(d.referralName),
           ProjectError(d.projectId), LocationError(d.location))
  }

  predicate AllClear(e: Errors) {
    e.referralPhone == "" && e.projectName == "" && e.location == "" && e.referralName == ""
  }

  /** The form passes iff all four checks pass; the email plays no part. */
  lemma FormValidIff(d: FormData)
    ensures AllClear(CheckForm(d)) <==>
              && IsTenDigitNumeral(d.referralPhone)
              && d.referralName != ""
              && d.projectId != 0
              && d.location != ""
    ensures forall email :: AllClear(CheckForm(d.(referralEmail := email))) == AllClear(CheckForm(d))
  {
  }

  /** Unlike the enquiry form, a whitespace-only name passes the name check. */
  lemma BlankNameAccepted(d: FormData)
    requires d.referralName != "" && AllWhitespace(d.referralName)
    ensures CheckForm(d).referralName == ""
  {
  }

  /** Picking the placeholder entry passes `handleProjectSelect` but blocks validation. */
  lemma PlaceholderStillBlocks(d: FormData)
    ensures !AllClear(CheckForm(d.(projectName := Projects[0].name, projectId := Projects[0].id)))
  {
  }

  function RequestOf(d: FormData, referrer: Customer): (r: LeadRequest)
    ensures r.customerName == d.referralName && r.mobileNumber == d.referralPhone
    ensures r.email == d.referralEmail && r.location == d.location && r.projectName == d.projectName
    ensures r.countryCode == CountryCode && r.agentName == AgentName
    ensures r.referrer == Some((referrer.customerName, referrer.mobileNo))
    ensures r.remarks == Remarks
  {
    LeadRequest(d.referralName, d.referralPhone, CountryCode, d.referralEmail, d.location,
                d.projectName, AgentName, Some((referrer.customerName, referrer.mobileNo)), Remarks)
  }

  class ReferralForm {
    const mobile: string
    var formData: FormData
    var errors: Errors
    var referrerData: Option<Customer>
    var showProjectDropdown: bool
    var isLoading: bool

    /** `mobile` is the session number (`mobile || ''`), read when the screen is created. */
    constructor (session: SessionStore)
      ensures mobile == MobileOf(session.authData)
      ensures formData == FormData("", "", "", "", 0, "")
      ensures errors == NoErrors && referrerData == None
      ensures !showProjectDropdown && !isLoading
    {
      mobile := MobileOf(session.authData);
      formData := FormData("", "", "", "", 0, "");
      errors := NoErrors;
      referrerData := None;
      showProjectDropdown := false;
      isLoading := false;
    }

    /**
     * The mount effect: fetch the referrer only when the session number is
     * non-empty, keep the first row, and ignore empty answers and failures.
     */
    method LoadReferrer(response: Fetch<Customer>)
      modifies this
      ensures mobile != "" && FirstRecord(response).Some? ==> referrerData == FirstRecord(response)
      ensures mobile == "" || FirstRecord(response).None? ==> referrerData == old(referrerData)
      ensures formData == old(formData) && errors == old(errors)
      ensures showProjectDropdown == old(showProjectDropdown) && isLoading == old(isLoading)
    {
      if mobile != "" {
        var first := FirstRecord(response);
        if first.Some? {
          referrerData := first;
        }
      }
    }

    method ValidateForm() returns (ok: bool)
      modifies this
      ensures errors == CheckForm(formData)
      ensures ok <==> AllClear(errors)
      ensures formData == old(formData) && referrerData == old(referrerData)
      ensures showProjectDropdown == old(showProjectDropdown) && isLoading == old(isLoading)
    {
      errors := CheckForm(formData);
      ok := errors.referralPhone == "" && errors.projectName == "" && errors.location == ""
            && errors.referralName == "";
    }

    method HandleProjectSelect(project: ProjectOption)
      modifies this
      ensures formData == old(formData).(projectName := project.name, projectId := project.id)
      ensures errors == old(errors).(projectName := "")
      ensures referrerData == old(referrerData)
      ensures !showProjectDropdown && isLoading == old(isLoading)
    {
      formData := formData.(projectName := project.name, projectId := project.id);
      errors := errors.(projectName := "");
      showProjectDropdown := false;
    }

    method OpenProjectDropdown()
      modifies this
      ensures showProjectDropdown
      ensures formData == old(formData) && errors == old(errors)
      ensures referrerData == old(referrerData) && isLoading == old(isLoading)
    {
      showProjectDropdown := true;
    }

    method ChangeReferralName(text: string)
      modifies this
      ensures formData == old(formData).(referralName := text)
      ensures errors == old(errors).(referralName := "")
      ensures referrerData == old(referrerData)
      ensures showProjectDropdown == old(showProjectDropdown) && isLoading == old(isLoading)
    {
      formData := formData.(referralName := text);
      errors := errors.(referralName := "");
    }

    method ChangeReferralPhone(text: string)
      modifies this
      ensures formData == old(formData).(referralPhone := text)
      ensures errors == old(errors).(referralPhone := "")
      ensures referrerData == old(referrerData)
      ensures showProjectDropdown == old(showProjectDropdown) && isLoading == old(isLoading)
    {
      formData := formData.(referralPhone := text);
      errors := errors.(referralPhone := "");
    }

    method BlurReferralPhone()
      modifies this
      ensures errors == old(errors).(referralPhone := ValidatePhone(formData.referralPhone))
      ensures formData == old(formData) && referrerData == old(referrerData)
      ensures showProjectDropdown == old(showProjectDropdown) && isLoading == old(isLoading)
    {
      errors := errors.(referralPhone := ValidatePhone(formData.referralPhone));
    }

    method ChangeReferralEmail(text: string)
      modifies this
      ensures formData == old(formData).(referralEmail := text) && errors == old(errors)
      ensures referrerData == old(referrerData)
      ensures showProjectDropdown == old(showProjectDropdown) && isLoading == old(isLoading)
    {
      formData := formData.(referralEmail := text);
    }

    method ChangeLocation(text: string)
      modifies this
      ensures formData == old(formData).(location := text)
      ensures errors == old(errors).(location := "")
      ensures referrerData == old(referrerData)
      ensures showProjectDropdown == old(showProjectDropdown) && isLoading == old(isLoading)
    {
      formData := formData.(location := text);
      errors := errors.(location := "");
    }

    /**
     * `handleSubmit`. Building the request reads the referrer's fields, so
     * with no referrer it throws before any request and ends in the generic
     * connection alert.
     */
    method HandleSubmit(response: SubmitFetch) returns (outcome: SubmitOutcome)
      modifies this
      ensures errors == CheckForm(formData) && formData == old(formData)
      ensures referrerData == old(referrerData)
      ensures outcome.Blocked? <==> !AllClear(CheckForm(formData))
      ensures showProjectDropdown == old(showProjectDropdown)
      ensures outcome.Blocked? ==> isLoading == old(isLoading)
      ensures !outcome.Blocked? && referrerData.None? ==>
                outcome == Aborted(ErrorAlert(ConnectFailed)) && !isLoading
      ensures !outcome.Blocked? && referrerData.Some? ==>
                && outcome == Sent(RequestOf(formData, referrerData.value),
                                   SubmitAlert(response, ReferralSuccess, ReferralFailed))
                && !isLoading
    {
      var ok := ValidateForm();
      if !ok {
        return Blocked;
      }
      isLoading := true;
      match referrerData {
        case None =>
          outcome := Aborted(ErrorAlert(ConnectFailed));
        case Some(referrer) =>
          var request := RequestOf(formData, referrer);
          outcome := Sent(request, SubmitAlert(response, ReferralSuccess, ReferralFailed));
      }
      isLoading := false;
    }
  }
}
