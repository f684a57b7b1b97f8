/**
 * What the enquiry and referral forms share: the phone check (both screens
 * define the same `validatePhone`), the project list, the shared error
 * messages, and the shape of a lead submission and its answer.
 */
module LeadForms {
  import opened Wrappers
  import opened JsText
  import opened Navigation

  const PhoneRequired := "Phone number is required"
  const PhoneInvalid := "Please enter a valid 10-digit phone number"
  const ProjectRequired := "Please select a project"
  const LocationRequired := "Please select a location"
  const ConnectFailed := "Failed to connect to server. Please try again."
  const CountryCode := "+91"
  const AgentName := "VGN_360_MOBILE_APP"
  /** Both request URLs end in `Remarks=''`: the value is the two quote characters. */
  const Remarks := "''"

  /** The regular expression `^[0-9]{n}$`, consumed one character at a time. */
  predicate MatchesDigitRun(s: string, n: nat)
    decreases n
  {
    if n == 0 then s == [] else s != [] && IsAsciiDigit(s[0]) && MatchesDigitRun(s[1..], n - 1)
  }

  /** A ten-digit numeral: exactly ten characters, each an ASCII digit. */
  ghost predicate IsTenDigitNumeral(s: string) {
    |s| == 10 && forall i :: 0 <= i < |s| ==> IsAsciiDigit(s[i])
  }

  /** The regular expression accepts exactly the strings of `n` ASCII digits. */
  lemma {:induction false} DigitRunIff(s: string, n: nat)
    ensures MatchesDigitRun(s, n) <==> |s| == n && forall i :: 0 <= i < |s| ==> IsAsciiDigit(s[i])
    decreases n
  {
    if n > 0 && s != [] {
      DigitRunIff(s[1..], n - 1);
      assert forall i :: 1 <= i < |s| ==> s[i] == s[1..][i - 1];
    }
  }

  /** `validatePhone`: one message per failure class, "" when the number is valid. */
  function ValidatePhone(phone: string): (msg: string)
    ensures phone == "" ==> msg == PhoneRequired
    ensures phone != "" && !IsTenDigitNumeral(phone) ==> msg == PhoneInvalid
    ensures msg == "" <==> IsTenDigitNumeral(phone)
  {
    DigitRunIff(phone, 10);
    if phone == "" then PhoneRequired
    else if !MatchesDigitRun(phone, 10) then PhoneInvalid
    else ""
  }

  /** The two failure messages are told apart, and neither is the "valid" answer. */
  lemma PhoneMessagesDistinct()
    ensures PhoneRequired != PhoneInvalid && PhoneRequired != "" && PhoneInvalid != ""
  {
  }

  /** An entry of the project drop-down. */
  datatype ProjectOption = ProjectOption(id: int, name: string)

  const Projects: seq<ProjectOption> := [
    ProjectOption(0, "Select Project"),
    ProjectOption(1, "VGN Aspire Gardens"),
    ProjectOption(2, "VGN Heritage Springz"),
    ProjectOption(3, "VGN Highland"),
    ProjectOption(4, "VGN Pride De Villa"),
    ProjectOption(5, "VGN Grandeur"),
    ProjectOption(6, "VGN Paradise"),
    ProjectOption(7, "Others")
  ]

  /** The project error of both forms: set iff no project (id 0) is chosen. */
  function ProjectError(projectId: int): (e: string)
    ensures e == "" <==> projectId != 0
    ensures e == "" || e == ProjectRequired
  {
    if projectId == 0 then ProjectRequired else ""
  }

  /**
   * The drop-down's first entry is the 'Select Project' placeholder with id 0:
   * choosing it still leaves the project error set, while every real entry
   * clears it.
   */
  lemma PlaceholderIsNoProject()
    ensures Projects[0].name == "Select Project" && ProjectError(Projects[0].id) == ProjectRequired
    ensures forall k :: 1 <= k < |Projects| ==> ProjectError(Projects[k].id) == ""
  {
  }

  /** The location error of both forms: set iff the location is empty. */
  function LocationError(location: string): (e: string)
    ensures e == "" <==> location != ""
    ensures e == "" || e == LocationRequired
  {
    if location == "" then LocationRequired else ""
  }

  /** The fields a lead submission sends (referrer fields only for a referral). */
  datatype LeadRequest = LeadRequest(
    customerName: string, mobileNumber: string, countryCode: string, email: string,
    location: string, projectName: string, agentName: string, referrer: Option<(string, string)>,
    remarks: string)

  /** The answer of the lead endpoint: `data.status` and `data.msg` ("" when absent). */
  datatype SubmitFetch = SubmitThrown | SubmitReturned(status: bool, msg: string)

  datatype Alert = SuccessAlert(message: string, onOk: Route) | ErrorAlert(message: string)

  datatype SubmitOutcome =
    | Blocked                                     // validation failed, nothing sent
    | Aborted(alert: Alert)                       // failed before any request
    | Sent(request: LeadRequest, alert: Alert)

  /** The alert that ends a submission that reached the gateway. */
  function SubmitAlert(response: SubmitFetch, successMessage: string, failureMessage: string): (a: Alert)
    ensures a.SuccessAlert? <==> response.SubmitReturned? && response.status
    ensures a.SuccessAlert? ==> a == SuccessAlert(successMessage, DashboardRoute)
    ensures response.SubmitThrown? ==> a == ErrorAlert(ConnectFailed)
    ensures response.SubmitReturned? && !response.status ==>
              a == ErrorAlert(if response.msg != "" then response.msg else failureMessage)
  {
    match response
    case SubmitThrown => ErrorAlert(ConnectFailed)
    case SubmitReturned(status, msg) =>
      if status then SuccessAlert(successMessage, DashboardRoute)
      else ErrorAlert(if msg != "" then msg else failureMessage)
  }
}
