/**
 * The OTP screen: a four-slot code buffer, its auto-fill rules, the focus
 * moves between slots, and the active `verifyOtp`, which authenticates
 * whatever the buffer holds.
 */
module Otp {
  import opened Wrappers
  import opened AuthContext
  import opened Navigation

  const DeliveredStatus := "DELIVRD"

  /** `s.split('')`: one slot per character. */
  function SplitChars(s: string): (r: seq<string>)
    ensures |r| == |s|
    ensures forall i :: 0 <= i < |s| ==> r[i] == [s[i]]
  {
    seq(|s|, i requires 0 <= i < |s| => [s[i]])
  }

  /** The slots read back as one string. */
  function Join(slots: seq<string>): string {
    if slots == [] then "" else slots[0] + Join(slots[1..])
  }

  /** Splitting a code into slots and reading them back gives the code. */
  lemma {:induction false} JoinSplitChars(s: string)
    ensures Join(SplitChars(s)) == s
  {
    if s != [] {
      assert SplitChars(s)[1..] == SplitChars(s[1..]);
      JoinSplitChars(s[1..]);
    }
  }

  /** The mount effect fills the buffer iff delivery was confirmed and the code has four characters. */
  predicate AutoFillOnMount(params: OtpParams) {
    params.otpDeliveryConfirmed && params.generatedOtp != "" && |params.generatedOtp| == 4
  }

  /**
   * `newOtp = [...otp]; newOtp[index] = text`. Writing past the end of a
   * shorter buffer leaves holes, which display as empty slots (modelled as "").
   */
  function SetSlot(buffer: seq<string>, index: nat, text: string): (r: seq<string>)
    ensures |r| == if index < |buffer| then |buffer| else index + 1
    ensures r[index] == text
    ensures forall j :: 0 <= j < |buffer| && j != index ==> r[j] == buffer[j]
    ensures forall j :: |buffer| <= j < index ==> r[j] == ""
  {
    if index < |buffer| then buffer[index := text]
    else buffer + seq(index - |buffer|, _ => "") + [text]
  }

  /** `focusNext`: the slot that receives focus after typing `value` in slot `index`. */
  function FocusNext(index: nat, value: string): (target: Option<nat>)
    ensures target.Some? <==> value != "" && index < 3
    ensures target.Some? ==> target.value == index + 1 && target.value <= 3
  {
    if value != "" && index < 3 then Some(index + 1) else None
  }

  /** `focusPrevious`: the slot that receives focus after `key` in slot `index`. */
  function FocusPrevious(index: nat, key: string): (target: Option<nat>)
    ensures target.Some? <==> key == "Backspace" && index > 0
    ensures target.Some? ==> target.value + 1 == index
  {
    if key == "Backspace" && index > 0 then Some(index - 1) else None
  }

  /** The answer of the generate-OTP endpoint to a resend. */
  /**
   * The answer of the resend endpoint: `success`, `data.deliveryStatus` (""
   * when null) and `data.OTPCode`, `None` when it is null or not a string.
   */
  datatype ResendFetch =
    | ResendThrown
    | ResendReturned(success: bool, deliveryStatus: string, otpCode: Option<string>)

  datatype ResendAlert =
    | OtpResentAlert   // 'OTP Resent': the new code was auto-filled
    | OtpSentAlert     // 'OTP Sent': check your SMS
    | ResendErrorAlert // 'Failed to resend OTP. Please try again.'

  predicate ResendDelivered(response: ResendFetch) {
    response.ResendReturned? && response.success && response.deliveryStatus == DeliveredStatus
  }

  class OtpScreen {
    const params: OtpParams
    var otp: seq<string>

    constructor (params: OtpParams)
      ensures this.params == params
      ensures otp == ["", "", "", ""]
    {
      this.params := params;
      otp := ["", "", "", ""];
    }

    /** The mount effect. */
    method Mount()
      modifies this
      ensures AutoFillOnMount(params) ==> otp == SplitChars(params.generatedOtp)
      ensures !AutoFillOnMount(params) ==> otp == old(otp)
      ensures |otp| == 4 || otp == old(otp)
    {
      if AutoFillOnMount(params) {
        otp := SplitChars(params.generatedOtp);
      }
    }

    /** `handleChangeText(text, index)` on one of the four rendered inputs. */
    method HandleChangeText(text: string, index: nat) returns (focus: Option<nat>)
      requires index < 4
      modifies this
      ensures otp == SetSlot(old(otp), index, text)
      ensures |old(otp)| == 4 ==> |otp| == 4
      ensures focus == FocusNext(index, text)
    {
      otp := SetSlot(otp, index, text);
      focus := FocusNext(index, text);
    }

    /** The active `verifyOtp`: the session is authenticated whatever the buffer holds. */
    method VerifyOtp(session: SessionStore) returns (route: Route)
      requires session.Valid()
      modifies session
      ensures session.Valid()
      ensures session.authData ==
                Merge(old(session.authData),
                      map[IsAuthenticatedKey := Flag(true), MobileKey := Text(params.mobile)])
      ensures session.Mobile() == params.mobile
      ensures route == AdScreenRoute
    {
      session.UpdateAuthData(map[IsAuthenticatedKey := Flag(true), MobileKey := Text(params.mobile)]);
      route := AdScreenRoute;
    }

    /**
     * `resendOtp`: the buffer is overwritten only with a delivered code. A
     * delivered answer whose code is not a string makes `split` throw, which
     * ends in the error alert with the buffer kept.
     */
    method ResendOtp(response: ResendFetch) returns (alert: ResendAlert)
      modifies this
      ensures ResendDelivered(response) && response.otpCode.Some? ==>
                otp == SplitChars(response.otpCode.value) && alert == OtpResentAlert
      ensures ResendDelivered(response) && response.otpCode.None? ==>
                otp == old(otp) && alert == ResendErrorAlert
      ensures !ResendDelivered(response) ==> otp == old(otp)
      ensures response.ResendReturned? && !ResendDelivered(response) ==> alert == OtpSentAlert
      ensures response.ResendThrown? ==> alert == ResendErrorAlert
    {
      match response
      case ResendThrown =>
        alert := ResendErrorAlert;
      case ResendReturned(success, deliveryStatus, otpCode) =>
        if success && deliveryStatus == DeliveredStatus {
          match otpCode {
            case Some(code) =>
              otp := SplitChars(code);
              alert := OtpResentAlert;
            case None =>
              alert := ResendErrorAlert;
          }
        } else {
          alert := OtpSentAlert;
        }
    }
  }
}
