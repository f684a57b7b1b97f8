# Session, login and screen logic of a real-estate sales app, in Dafny

This project models the decision logic behind the screens of a React Native
app for real-estate customers. The app offers phone/OTP login, a dashboard
with a promotional carousel, two lead forms (enquiry and referral), and
read-only views of a customer's booked projects and payment receipts. All
the data comes from a remote REST API. The model covers:

- **Session store** (`AuthContext`). A class holding the `authData` map. It
  changes only through a shallow merge, where the keys of the new data win and
  every other key stays.
- **Login and OTP** (`Login`, `Otp`). Login has a length gate on the typed
  number. Its active test path hard-codes the session number `9884358122` and
  the OTP `1234`. The OTP screen has a four-slot buffer with per-slot edits,
  focus moves and the mount and resend auto-fill rules. Its active `verifyOtp`
  authenticates the session whatever the buffer holds. The commented-out
  server-verified path is not modelled.
- **Lead forms** (`LeadForms`, `Enquiry`, `Referral`). This covers the
  `validatePhone` check (exactly ten ASCII digits, one message per failure
  class), the four-field `validateForm`, and the field handlers. It also
  covers the submit guard and what a submission sends. The two source files
  define the same `validatePhone`. It is modelled once, in `LeadForms`, and
  the cited lines of `screens/EnquiryForm.js:54-59` have an identical copy
  at `screens/ReferalForm.js:82-87`.
- **Booked projects** (`BookedHistory`). This covers reshaping the answer
  rows with ids numbered from 1, and the case-insensitive substring search
  over name, unit and site. It also covers the load states, the render
  branch and the parameters handed to the details screen.
- **Project and receipt details** (`ProjectDetails`, `ReceiptDetails`). This
  covers the `loading → error | empty | data` outcome of the one fetch, the
  render priority, the 'N/A' fallbacks and the receipts-button rule. It also
  covers the expand/collapse toggle over receipt numbers.
- **Dashboard** (`Dashboard`). This covers the carousel's wrap-around step
  (six ticks return to the start), the `https://` prefix rule and the
  display-name fallback.

Shared modules model what the screens borrow from JavaScript:

- `JsText`: `toLowerCase` over ASCII, `includes`, `startsWith` and `trim`.
- `JsArray`: `filter`.
- `Gateway`: a call's outcome, `Thrown | Returned(rows)`.
- `Navigation`: routes and their parameters.

Conventions:

- Remote calls, alerts and navigation are values. A handler takes the
  gateway's answer as a parameter and returns the alert or route it would
  produce.
- JavaScript truthiness is written out. A string is falsy iff it is empty.
  An amount is falsy iff it is 0. A null text field is read as "" and a null
  amount as 0. That reading matches the source wherever it applies `|| 'N/A'`
  or a truthiness test. It does not match the unguarded `toLowerCase` calls
  of the booked-project search (see "## Findings") or the referrer fields
  written into a referral request (see "## Left out"). The resend answer's
  `OTPCode` is not read that way: a null or non-string code is kept apart,
  because `split` throws on it.
- Each screen reads the session number as `authData.mobile`. Its class
  takes the session store when it is created and keeps `MobileOf` of it.
- An empty answer array also stands for a falsy body, or a body whose
  `length` is not positive, since every screen treats those with the same
  `data && data.length > 0` test.

## Model

| member | source | states |
|---|---|---|
| `AuthContext.InitialAuthData` | screens/AuthContext.js:6-10 | the session starts with `mobile = ''` as its only key; `isAuthenticated` is absent |
| `AuthContext.Merge` | screens/AuthContext.js:13 | after a merge the keys are the union; every key of the new data has the new value, every other old key keeps its value |
| `AuthContext.MergeEmpty` | screens/AuthContext.js:13 | merging `{}` leaves the state unchanged |
| `AuthContext.MergeIdempotent` | screens/AuthContext.js:13 | merging the same partial record twice equals merging it once |
| `AuthContext.MergeSequence` | screens/AuthContext.js:12-14 | two successive updates equal one update with the combined partial records |
| `AuthContext.MobileOf` | screens/EnquiryForm.js:34-40 | the screens read `authData.mobile`, with a missing value read as the empty string |
| `AuthContext.SessionStore.constructor` | screens/AuthContext.js:6-10 | the store starts at the initial record |
| `AuthContext.SessionStore.UpdateAuthData` | screens/AuthContext.js:12-14 | the new state is the shallow merge of the old state and the new data; the `mobile` key is never lost |
| `Login.GateIgnoresDigits` | screens/LoginScreen.js:96 | the gate checks the length only: ten letters pass it |
| `Login.LoginScreen.constructor` | screens/LoginScreen.js:23 | the typed number starts empty |
| `Login.LoginScreen.SetMobile` | screens/LoginScreen.js:183-184 | typing replaces the number |
| `Login.LoginScreen.GenerateOtp` | screens/LoginScreen.js:82-93 | whatever was typed, the session number becomes `9884358122`, and the OTP screen gets `generatedOtp = '1234'`, that number and `otpDeliveryConfirmed = true` |
| `Login.LoginScreen.HandleGetOtp` | screens/LoginScreen.js:95-136 | it proceeds to `generateOtp` iff the typed number has exactly 10 characters; otherwise it raises the 'Invalid Number' alert and leaves the session unchanged |
| `Otp.SplitChars` | screens/OTPScreen.js:45 | splitting a code gives one slot per character, in order |
| `Otp.JoinSplitChars` | screens/OTPScreen.js:44-46 | the auto-filled slots spell back the code they came from |
| `Otp.SetSlot` | screens/OTPScreen.js:187-191 | slot `index` gets the text, every other slot is unchanged, and a four-slot buffer stays four slots |
| `Otp.FocusNext` | screens/OTPScreen.js:51-55 | focus moves to `index + 1` iff the value is non-empty and `index < 3`, so the target is at most 3 |
| `Otp.FocusPrevious` | screens/OTPScreen.js:57-61 | focus moves to `index - 1` iff the key is 'Backspace' and `index > 0` |
| `Otp.OtpScreen.constructor` | screens/OTPScreen.js:26-29 | the buffer starts as four empty strings |
| `Otp.OtpScreen.Mount` | screens/OTPScreen.js:36-49 | the buffer becomes the characters of `generatedOtp` iff delivery was confirmed and the code is non-empty with length 4; otherwise it is unchanged |
| `Otp.OtpScreen.HandleChangeText` | screens/OTPScreen.js:187-192 | the buffer is updated through `SetSlot` and focus follows `focusNext` |
| `Otp.OtpScreen.VerifyOtp` | screens/OTPScreen.js:119-126 | whatever the buffer holds, the session gets `isAuthenticated = true` and the route's `mobile`, and the app goes to AdScreen |
| `Otp.OtpScreen.ResendOtp` | screens/OTPScreen.js:129-159 | the buffer is overwritten with the characters of `OTPCode` only when `success` holds, the status is `DELIVRD` and the code is a string; a delivered answer whose code is null or not a string throws in `split` and ends in the error alert with the buffer kept; each outcome has its own alert |
| `Gateway.FirstRecord` | screens/Dashboard.js:99-100 | a non-empty answer yields its first row; an empty answer or a thrown call yields nothing |
| `LeadForms.DigitRunIff` | screens/EnquiryForm.js:55 | the pattern `^[0-9]{10}$` accepts exactly the strings of ten ASCII digits |
| `LeadForms.ValidatePhone` | screens/EnquiryForm.js:54-59 | empty input gives 'Phone number is required'; other input that is not ten ASCII digits gives the invalid-number message; the result is '' iff the input is ten ASCII digits |
| `LeadForms.PhoneMessagesDistinct` | screens/EnquiryForm.js:56-57 | the two failure messages differ from each other and from the valid answer |
| `LeadForms.ProjectError` | screens/EnquiryForm.js:64 | the project error is set iff `projectId` is 0 |
| `LeadForms.PlaceholderIsNoProject` | screens/EnquiryForm.js:20-29 | the drop-down's first entry, 'Select Project', has id 0 and so sets the project error; every other entry clears it |
| `LeadForms.LocationError` | screens/EnquiryForm.js:65 | the location error is set iff the location is empty |
| `LeadForms.SubmitAlert` | screens/EnquiryForm.js:105-115 | a true `status` gives the success alert, whose OK goes to Dashboard; a false one gives the server's `msg` or the fallback; a thrown call gives the connection message |
| `Enquiry.NameError` | screens/EnquiryForm.js:62 | the name error is set iff `name.trim()` is empty, that is iff the name is whitespace only |
| `Enquiry.CheckForm` | screens/EnquiryForm.js:61-72 | each of the four errors is '' exactly when its own field is valid |
| `Enquiry.FormValidIff` | screens/EnquiryForm.js:61-75 | the form passes iff the name has a non-whitespace character, the phone is ten digits, a project is chosen and the location is non-empty; each field blocks on its own |
| `Enquiry.BlankNameRejected` | screens/EnquiryForm.js:62 | a whitespace-only name is rejected |
| `Enquiry.PlaceholderStillBlocks` | screens/EnquiryForm.js:20-29 | choosing the 'Select Project' entry (id 0) leaves a form that does not pass validation |
| `Enquiry.RequestOf` | screens/EnquiryForm.js:93 | the request carries the name as typed (untrimmed), phone, email, location, project name, `+91`, the agent name and the constant `Remarks=''` |
| `Enquiry.EnquiryForm.constructor` | screens/EnquiryForm.js:38-52 | the phone starts as the session number (or ''), every other field and every error empty, project id 0 |
| `Enquiry.EnquiryForm.ValidateForm` | screens/EnquiryForm.js:61-75 | writes exactly the four checked errors and returns true iff all are '' |
| `Enquiry.EnquiryForm.HandleProjectSelect` | screens/EnquiryForm.js:77-85 | sets the project name and id, clears only the project error, closes the drop-down, and leaves every other field unchanged |
| `Enquiry.EnquiryForm.OpenProjectDropdown` | screens/EnquiryForm.js:192 | opens the drop-down and changes nothing else |
| `Enquiry.EnquiryForm.ChangeName` | screens/EnquiryForm.js:144-147 | sets the name and clears only the name error |
| `Enquiry.EnquiryForm.BlurName` | screens/EnquiryForm.js:148-150 | sets only the name error, from the trimmed-name check |
| `Enquiry.EnquiryForm.ChangePhone` | screens/EnquiryForm.js:162-165 | sets the phone and clears only the phone error |
| `Enquiry.EnquiryForm.BlurPhone` | screens/EnquiryForm.js:168-170 | sets only the phone error, from `validatePhone` |
| `Enquiry.EnquiryForm.ChangeEmail` | screens/EnquiryForm.js:183 | sets the email and touches no error |
| `Enquiry.EnquiryForm.ChangeLocation` | screens/EnquiryForm.js:236-239 | sets the location and clears only the location error |
| `Enquiry.EnquiryForm.HandleSubmit` | screens/EnquiryForm.js:87-119 | nothing is sent unless all four checks pass; otherwise the form's request is sent, its answer picks the alert, and loading ends; the fields and the drop-down never change, and a blocked submission leaves the loading flag alone |
| `Referral.ReferralNameError` | screens/ReferalForm.js:91 | the name error is set iff the name is the empty string (no trim) |
| `Referral.CheckForm` | screens/ReferalForm.js:89-100 | each of the four errors is '' exactly when its own field is valid |
| `Referral.FormValidIff` | screens/ReferalForm.js:89-103 | the form passes iff phone, name, project and location are all valid; the email never affects the result |
| `Referral.BlankNameAccepted` | screens/ReferalForm.js:91 | every non-empty, whitespace-only referral name passes the name check |
| `Referral.PlaceholderStillBlocks` | screens/ReferalForm.js:20-29 | choosing the 'Select Project' entry (id 0) leaves a form that does not pass validation |
| `Referral.RequestOf` | screens/ReferalForm.js:121 | the request carries the referral's fields, the referrer's name and number, and the constant `Remarks=''` |
| `Referral.ReferralForm.constructor` | screens/ReferalForm.js:33-53 | the screen keeps the session number (`authData.mobile`, '' when absent); every field and error starts empty, project id 0, no referrer |
| `Referral.ReferralForm.LoadReferrer` | screens/ReferalForm.js:55-80 | the referrer is fetched only for a non-empty session number; only the first row of a non-empty answer is kept, and failures change nothing |
| `Referral.ReferralForm.ValidateForm` | screens/ReferalForm.js:89-103 | writes exactly the four checked errors and returns true iff all are '' |
| `Referral.ReferralForm.HandleProjectSelect` | screens/ReferalForm.js:105-113 | changes only the project name and id, the project error and the drop-down |
| `Referral.ReferralForm.OpenProjectDropdown` | screens/ReferalForm.js:227 | opens the drop-down and changes nothing else |
| `Referral.ReferralForm.ChangeReferralName` | screens/ReferalForm.js:182-185 | sets the name and clears only the name error |
| `Referral.ReferralForm.ChangeReferralPhone` | screens/ReferalForm.js:197-200 | sets the phone and clears only the phone error |
| `Referral.ReferralForm.BlurReferralPhone` | screens/ReferalForm.js:203-205 | sets only the phone error, from `validatePhone` |
| `Referral.ReferralForm.ChangeReferralEmail` | screens/ReferalForm.js:218 | sets the email and touches no error: the email is never validated |
| `Referral.ReferralForm.ChangeLocation` | screens/ReferalForm.js:271-274 | sets the location and clears only the location error |
| `Referral.ReferralForm.HandleSubmit` | screens/ReferalForm.js:115-147 | nothing is sent unless all checks pass; with no referrer the submission fails before any request and ends in the connection alert; otherwise the request is sent and its answer picks the alert; the fields, the referrer and the drop-down never change |
| `JsText.LowerChar` | screens/BookedHistory.js:68 | `toLowerCase` maps A-Z to a-z and leaves every other character alone |
| `JsText.ToLower` | screens/BookedHistory.js:68 | lower-casing keeps the length and lower-cases each character |
| `JsText.IncludesIff` | screens/BookedHistory.js:68-70 | `includes` holds iff the needle occurs at some position of the text |
| `JsText.NotIncludesWithoutFirst` | screens/BookedHistory.js:68-70 | a text that lacks the needle's first character does not include the needle |
| `JsText.TrimStart` | screens/EnquiryForm.js:62 | after trimming the front, the string does not start with whitespace |
| `JsText.TrimStartIsSuffix` | screens/EnquiryForm.js:62 | trimming the front only drops leading characters, all of them whitespace: the result is a suffix of the string |
| `JsText.TrimStartEmptyIff` | screens/EnquiryForm.js:62 | trimming the front leaves nothing iff the string is whitespace only |
| `JsText.TrimEnd` | screens/EnquiryForm.js:62 | trimming the back gives a prefix that does not end with whitespace, and is non-empty when the string starts with a non-whitespace character |
| `JsText.TrimEndDropsWhitespace` | screens/EnquiryForm.js:62 | every character trimming the back drops is whitespace |
| `JsText.TrimEmptyIff` | screens/EnquiryForm.js:62 | `trim()` is empty iff the string is whitespace only |
| `JsArray.Filter` | screens/BookedHistory.js:67-71 | `filter` keeps exactly the elements that satisfy the predicate, each as many times as it occurs, and keeps all of them when every element does |
| `JsArray.FilterIsSubsequence` | screens/BookedHistory.js:67-71 | a filtered array is an order-preserving subsequence of the original |
| `JsArray.FilterAppend` | screens/ReceiptDetails.js:52-54 | filtering distributes over concatenation |
| `JsArray.FilterKeepsDistinct` | screens/ReceiptDetails.js:52 | filtering a duplicate-free array leaves it duplicate-free |
| `BookedHistory.ToProject` | screens/BookedHistory.js:40-48 | a list entry copies the row's name, site, unit, project id and transaction id and keeps the row |
| `BookedHistory.Transform` | screens/BookedHistory.js:40-48 | the reshaping keeps length and order and gives row `k` the id `k + 1` |
| `BookedHistory.TransformIdsDistinct` | screens/BookedHistory.js:41 | the ids are 1..n, strictly increasing, so all distinct |
| `BookedHistory.MatchesIff` | screens/BookedHistory.js:67-71 | a project matches iff the search text occurs, ignoring case, in its name, in its unit, or in its site when the site is non-empty |
| `BookedHistory.MatchesAsWritten` | screens/BookedHistory.js:67-71 | with nullable fields, the callback throws exactly when the name is null, or the name does not match and the unit is null; when it does not throw it agrees with `Matches` with nulls read as "" |
| `BookedHistory.NullNameThrows` | screens/BookedHistory.js:67-71 | a row with a null name makes the search throw for every search text; read as "", the same row is found by its unit |
| `BookedHistory.NullUnitThrows` | screens/BookedHistory.js:67-71 | a row with a null unit makes the search throw once its name does not match |
| `BookedHistory.FilterProjects` | screens/BookedHistory.js:67-71 | the filtered list holds exactly the matching projects |
| `BookedHistory.FilterKeepsOrder` | screens/BookedHistory.js:67-71 | the filtered list is an order-preserving subsequence of the projects |
| `BookedHistory.EmptySearchKeepsAll` | screens/BookedHistory.js:67-71 | empty search text keeps every project |
| `BookedHistory.SearchExample` | screens/BookedHistory.js:67-71 | with Alpha/X/U1 and Beta/Y/U2, the search "u1" keeps only the first |
| `BookedHistory.ProjectPress` | screens/BookedHistory.js:73-81 | the details screen gets `projectId = ProjectId`, `projectTranId = ProjectPlotidTranid`, and the name, site and unit |
| `BookedHistory.BookedHistoryScreen.constructor` | screens/BookedHistory.js:17-22 | the screen keeps the session number (`authData.mobile`, '' when absent) and starts loading, with no projects, no error and empty search text |
| `BookedHistory.BookedHistoryScreen.Load` | screens/BookedHistory.js:24-64 | with an empty session number nothing happens and the screen stays loading; otherwise loading ends, an answer replaces the list with its reshaping (empty for an empty answer) and a thrown call sets the error; a first empty answer leads to the "No projects found" view |
| `BookedHistory.BookedHistoryScreen.SetSearchText` | screens/BookedHistory.js:117 | sets only the search text |
| `BookedHistory.BookedHistoryScreen.FilteredProjects` | screens/BookedHistory.js:67-71 | the shown list is an ordered subsequence of the projects; it holds every matching project and only those, and all projects for empty search text |
| `BookedHistory.BookedHistoryScreen.Render` | screens/BookedHistory.js:83-145 | branches in order: loading, then error, then "No projects found" iff the filtered list is empty, else the filtered cards |
| `BookedHistory.EmptyAnswerShowsEmptyState` | screens/BookedHistory.js:141-145 | a loaded, error-free screen with no projects (the state an empty answer leaves) shows the empty state, not the error state |
| `ProjectDetails.DisplayText` | screens/ProjectDetails.js:88-120 | a falsy text field shows 'N/A', any other shows itself |
| `ProjectDetails.DisplayAmount` | screens/ProjectDetails.js:122-137 | an amount is shown iff it is non-zero, else 'N/A' |
| `ProjectDetails.Page` | screens/ProjectDetails.js:86-145 | every detail goes through its fallback, and the receipts button shows iff `hasReceipts` |
| `ProjectDetails.ViewReceipt` | screens/ProjectDetails.js:54-60 | the receipt screen gets exactly `projectId`, `projectTranId` and `projectName` |
| `ProjectDetails.ProjectDetailsScreen.constructor` | screens/ProjectDetails.js:16-19 | the screen starts loading, with no record, no error and `hasReceipts` false |
| `ProjectDetails.ProjectDetailsScreen.Load` | screens/ProjectDetails.js:21-52 | loading ends on every outcome; the first row is kept and `hasReceipts` becomes true iff its received amount is truthy and positive; an empty answer or a thrown call sets its own error |
| `ProjectDetails.ProjectDetailsScreen.Render` | screens/ProjectDetails.js:62-84 | branches in order: loading, then error, then 'No records found', else the details; once loaded, 'No records found' cannot appear |
| `ReceiptDetails.RemoveAll` | screens/ReceiptDetails.js:52 | removing a number drops every occurrence and keeps every other element |
| `ReceiptDetails.Toggled` | screens/ReceiptDetails.js:50-56 | a present number has every occurrence removed, an absent one is appended; afterwards it is present iff it was absent |
| `ReceiptDetails.RemoveKeepsOrder` | screens/ReceiptDetails.js:52 | removal keeps the remaining numbers in order |
| `ReceiptDetails.ToggleTwiceAbsent` | screens/ReceiptDetails.js:50-56 | toggling an absent number twice restores the list |
| `ReceiptDetails.ToggleKeepsDistinct` | screens/ReceiptDetails.js:50-56 | a duplicate-free list stays duplicate-free after a toggle |
| `ReceiptDetails.Cards` | screens/ReceiptDetails.js:97-113 | one card per receipt, in order; a card's body is shown iff its `Sno` is expanded |
| `ReceiptDetails.ReceiptDetailsScreen.constructor` | screens/ReceiptDetails.js:15-18 | the screen starts loading, with no receipts, no error and nothing expanded |
| `ReceiptDetails.ReceiptDetailsScreen.Load` | screens/ReceiptDetails.js:20-48 | loading ends on every outcome; a non-empty answer becomes the list; an empty answer sets 'No receipt details found'; a thrown call sets the load-failure message |
| `ReceiptDetails.ReceiptDetailsScreen.ToggleReceipt` | screens/ReceiptDetails.js:50-56 | the expanded list becomes its toggle, and nothing else changes |
| `ReceiptDetails.ReceiptDetailsScreen.Render` | screens/ReceiptDetails.js:68-90 | branches in order: loading, then error, then empty, else the cards; once loaded the empty branch cannot appear |
| `Dashboard.NextIndex` | screens/Dashboard.js:115-118 | a tick goes to `current + 1`, or to 0 once that reaches the item count, and always lands below the count |
| `Dashboard.TicksInRange` | screens/Dashboard.js:114-126 | from an index in range, any number of ticks stays in range |
| `Dashboard.TicksAdd` | screens/Dashboard.js:114-126 | `a + b` ticks are `a` ticks followed by `b` ticks |
| `Dashboard.TicksForward` | screens/Dashboard.js:115-118 | before the wrap, ticks simply count up |
| `Dashboard.TicksToWrap` | screens/Dashboard.js:115-118 | from index `i`, `count - i` ticks reach 0 |
| `Dashboard.FullCycle` | screens/Dashboard.js:114-126 | after as many ticks as there are items, the index is back at its start |
| `Dashboard.SixTicksCycle` | screens/Dashboard.js:45-82 | on the six-item carousel, six ticks return to the starting index |
| `Dashboard.FormatUrl` | screens/Dashboard.js:154-157 | `https://` is prefixed iff the URL starts with neither `http://` nor `https://`; the result always has a scheme |
| `Dashboard.FormatUrlIdempotent` | screens/Dashboard.js:154-157 | formatting twice equals formatting once |
| `Dashboard.DisplayName` | screens/Dashboard.js:177 | the customer name when truthy, else '+91 ' followed by the number; never empty |
| `Dashboard.DashboardScreen.constructor` | screens/Dashboard.js:25-28 | the screen keeps the session number (`authData.mobile`, '' when absent); index 0, no referrer |
| `Dashboard.DashboardScreen.LoadReferrer` | screens/Dashboard.js:85-110 | the referrer is fetched only for a non-empty number, and only the first row of a non-empty answer is kept |
| `Dashboard.DashboardScreen.Tick` | screens/Dashboard.js:113-129 | the index advances by the wrap-around step and stays within the six items; the list scrolls to it |
| `Dashboard.DashboardScreen.HandleImagePress` | screens/Dashboard.js:151-157 | the URL handed on is the formatted one |

## Left out
- BookedHistory.MatchesIff: the search is modelled with a null name or unit read as "". The source's callback throws a TypeError on those rows while the list renders (see "## Findings"). The screen crash that would follow is not modelled.
- Referral.RequestOf: the referrer's `CustomerName` and `MobileNo` are put into the request URL without `encodeURIComponent`. A null value is sent as the text `null`, and reserved characters such as `&` would break the query. The model sends the field as read, with null read as "".
- Otp.OtpScreen.ResendOtp: a successful answer whose `data` object is itself null throws when `deliveryStatus` is read. The model reads the missing status as "" and gives the 'OTP Sent' alert instead of the error alert. The buffer is kept either way.
- Non-empty string bodies: a call whose body is a non-empty string passes the `data && data.length > 0` test. On such a body the booked list and the receipt list fail in `map`. Project details keeps the first character as its record. The dashboard and the referral form keep it as the referrer. The model's answers are arrays of rows, so none of this is modelled.
- Request URLs: a lead request is modelled as a record of its fields. Parameter names (including the misspelt `ReferrallMobileNo`) and their order in the URL are not modelled.

- Network and JSON. The `fetch` calls, `response.json()`, endpoint addresses and query-string building (`encodeURIComponent`) are not modelled. Each call's outcome is a parameter. A lead request is modelled as the record of fields it carries, not as a URL.
- Alerts, console logging and navigation. An alert or a route is a returned value. The `Linking.canOpenURL`/`openURL` step after formatting a URL is not modelled.
- Dashboard.DashboardScreen.Tick: the 3-second `setInterval` and its clean-up are not modelled. A tick is one method call.
- Dashboard: `onMomentumScrollEnd` recovers the index with `Math.round(offset / width)`. That is float arithmetic over layout sizes, so it is not modelled, and neither is `handleButtonPress` (an animation followed by plain navigation).
- Animations, layout, `Dimensions` sizes, `StyleSheet`s, `SplashScreen`, `AdScreen` and `App.tsx`: these are presentation only.
- Amount formatting (`toLocaleString`, `parseInt`, the '₹' prefix) and the unused `formatDate`. An amount is an integer, shown or 'N/A'.
- JsText.LowerChar: `toLowerCase` is modelled over ASCII letters only. Non-ASCII letters are assumed not to occur in searched text.
- JsText: strings are sequences of Unicode scalar values, while JavaScript counts UTF-16 code units. The OTP length check, `split('')` and the login length gate agree with the model for text in the Basic Multilingual Plane.
- Otp.SetSlot: JavaScript array holes, left by writing past the end of a buffer shortened by a resend, are modelled as empty slots.
- Otp.OtpScreen.HandleChangeText: only the indices 0-3 of the four rendered inputs are modelled.
- Otp: the `isLoading`/`isResending` button flags are not modelled. They only disable buttons; `isLoading` is never set on the active path.
- Login: the `maxLength={10}` limit on the input is enforced by the text widget and is not modelled. `SetMobile` accepts any text, and the gate still checks the length.
- The commented-out live OTP generation and server verification are dead code and are not modelled.
- Session values are strings or booleans. A non-string `mobile` would be read as the empty string, but no screen ever writes one.
- Several screens read `authData.mobile` on each render. The screen classes take it once at creation, because no screen changes the session while it is shown.

## Findings

| source | as written | input that shows it | evidently intended | confidence | as-written member | corrected member |
|---|---|---|---|---|---|---|
| screens/BookedHistory.js:67-71 | the search callback calls `project.name.toLowerCase()` and `project.nos.toLowerCase()` without a null guard, but guards the site with `project.site &&` | a booked row whose `ProjectName` is null, for any search text; or a null `UnitNo` with a name that does not match | a null name or unit counts as empty, as the card text `project.name \|\| 'N/A'` (line 131) already assumes | medium, not executed | `BookedHistory.NullNameThrows` | `BookedHistory.MatchesIff` |
