/**
 * The login screen on its active (test) path: a length gate on the typed
 * number, then a hard-coded session number and OTP handed to the OTP screen.
 */
module Login {
  import opened AuthContext
  import opened Navigation
  import JsText

  /** The number and the code the test path always uses. */
  const TestMobile := "9884358122"
  const TestOtp := "1234"

  datatype GetOtpOutcome =
    | InvalidNumberAlert   // 'Invalid Number' / 'Enter 10-digit mobile number'
    | Navigated(route: Route)

  /** The gate of `handleGetOTP`: the length alone. */
  predicate PassesLengthGate(mobile: string) {
    |mobile| == 10
  }

  /** The gate counts characters only: ten letters get through it. */
  lemma GateIgnoresDigits()
    ensures PassesLengthGate("abcdefghij")
    ensures !JsText.IsAsciiDigit("abcdefghij"[0])
  {
  }

  class LoginScreen {
    var mobile: string

    constructor ()
      ensures mobile == ""
    {
      mobile := "";
    }

    /** `onChangeText={setMobile}`. */
    method SetMobile(text: string)
      modifies this
      ensures mobile == text
    {
      mobile := text;
    }

    /** The active `generateOtp`: the typed number is ignored. */
    method GenerateOtp(session: SessionStore) returns (route: Route)
      requires session.Valid()
      modifies session
      ensures session.Valid()
      ensures session.authData == Merge(old(session.authData), map[MobileKey := Text(TestMobile)])
      ensures session.Mobile() == TestMobile
      ensures route == OtpRoute(OtpParams(TestOtp, TestMobile, true))
    {
      session.UpdateAuthData(map[MobileKey := Text(TestMobile)]);
      route := OtpRoute(OtpParams(TestOtp, TestMobile, true));
    }

    /** `handleGetOTP`: proceed iff the typed number has ten characters. */
    method HandleGetOtp(session: SessionStore) returns (outcome: GetOtpOutcome)
      requires session.Valid()
      modifies session
      ensures session.Valid()
      ensures outcome.Navigated? <==> PassesLengthGate(mobile)
      ensures !PassesLengthGate(mobile) ==>
                outcome == InvalidNumberAlert && session.authData == old(session.authData)
      ensures PassesLengthGate(mobile) ==>
                && outcome == Navigated(OtpRoute(OtpParams(TestOtp, TestMobile, true)))
                && session.authData == Merge(old(session.authData), map[MobileKey := Text(TestMobile)])
                && session.Mobile() == TestMobile
    {
      if |mobile| == 10 {
        var route := GenerateOtp(session);
        outcome := Navigated(route);
      } else {
        outcome := InvalidNumberAlert;
      }
    }
  }
}
