/** Phone sign-in: the PhoneView screen requests an SMS code for the entered
    number, then shows a six-digit code input whose Verify button confirms
    the code and enters the app. */
module PhoneOtp {
  import opened Types

  const EnterPhoneText := "Enter a phone number!"
  const InvalidPhoneTitle := "Invalid Phone Number!"
  const InvalidPhoneMessage := "Enter a valid phone number to sign up."
  const UnexpectedText := "An unexpected error occurred!"
  const RetryLaterText := "Please try after some time."
  const SignedInText := "You signed in successfully!"
  const InvalidCodeText := "Invalid Code!"

  /** The handle `signInWithPhoneNumber` returns, used to confirm the code. */
  datatype Confirmation = Confirmation(verificationId: string)

  /** The settled result of `signInWithPhoneNumber`. */
  datatype SmsResult = SmsSent(confirmation: Option<Confirmation>) | SmsRejected(code: string)

  /** The settled result of `confirm.confirm(code)`. */
  datatype CodeResult = CodeAccepted(credential: Option<AuthUser>) | CodeRejected(code: string)

  /** The notice for a rejected SMS request: an alert for an invalid number,
      a toast for anything else. */
  function SmsErrorNotice(code: string): (n: Notice)
    ensures n.Alert? <==> code == "auth/invalid-phone-number"
    ensures n.Alert? ==> n.title == InvalidPhoneTitle
    ensures n.Toast? ==> n.kind == ErrorToast && n.text1 == UnexpectedText
  {
    if code == "auth/invalid-phone-number" then Alert(InvalidPhoneTitle, InvalidPhoneMessage)
    else Toast(ErrorToast, UnexpectedText, RetryLaterText)
  }

  /** The notice for a rejected code. */
  function CodeErrorNotice(code: string): (n: Notice)
    ensures n.Toast? && n.kind == ErrorToast
    ensures n.text1 == InvalidCodeText <==> code == "auth/invalid-verification-code"
    ensures n.text1 != InvalidCodeText ==> n.text1 == UnexpectedText
  {
    if code == "auth/invalid-verification-code" then Toast(ErrorToast, InvalidCodeText, "")
    else Toast(ErrorToast, UnexpectedText, "")
  }

  /** The PhoneView screen's state. The phone form is rendered while
      `showOTP` is false, the code input and Verify button once it is true.
      `otpFilled` is ghost bookkeeping: the code input has reported all six
      digits entered. */
  class PhoneViewScreen {
    var phoneNumber: string
    var loading: bool
    var confirm: Option<Confirmation>
    var showOTP: bool
    var disableVerify: bool
    var otpCode: string
    ghost var otpFilled: bool

    /** The code input is only shown with a confirmation handle, and Verify
        is enabled only after the code input reported itself filled. */
    ghost predicate Valid()
      reads this
    {
      && (showOTP ==> confirm.Some?)
      && (!disableVerify ==> otpFilled && showOTP)
    }

    constructor ()
      ensures Valid()
      ensures phoneNumber == "" && !loading && confirm.None?
      ensures !showOTP && disableVerify && otpCode == "" && !otpFilled
    {
      phoneNumber, loading, confirm := "", false, None;
      showOTP, disableVerify, otpCode := false, true, "";
      otpFilled := false;
    }

    /** The phone input reports the number with its country code. */
    method ChangePhone(text: string)
      requires Valid()
      modifies this`phoneNumber
      ensures Valid() && phoneNumber == text
    {
      phoneNumber := text;
    }

    /** `handlePhoneSignup` with the settled result of the SMS request. */
    method HandlePhoneSignup(sms: SmsResult) returns (requested: bool, notice: Option<Notice>)
      requires Valid()
      modifies this`loading, this`confirm, this`showOTP
      ensures Valid()
      ensures requested <==> phoneNumber != ""
      ensures !requested ==> notice == Some(Toast(ErrorToast, EnterPhoneText, "")) && unchanged(this)
      ensures requested ==> !loading
      ensures requested && sms.SmsSent? ==> notice.None?
      ensures requested && sms.SmsSent? && sms.confirmation.Some? ==>
                confirm == sms.confirmation && showOTP
      ensures !(requested && sms.SmsSent? && sms.confirmation.Some?) ==>
                confirm == old(confirm) && showOTP == old(showOTP)
      ensures requested && sms.SmsRejected? ==> notice == Some(SmsErrorNotice(sms.code))
    {
      if phoneNumber == "" {
        requested := false;
        notice := Some(Toast(ErrorToast, EnterPhoneText, ""));
      } else {
        requested := true;
        loading := true;
        match sms {
          case SmsSent(confirmation) =>
            if confirmation.Some? {
              confirm := confirmation;
              showOTP := true;
            }
            loading := false;
            notice := None;
          case SmsRejected(code) =>
            loading := false;
            notice := Some(SmsErrorNotice(code));
        }
      }
    }

    /** `onTextChange` of the code input, rendered only while `showOTP`. */
    method ChangeOtp(text: string)
      requires Valid() && showOTP
      modifies this`otpCode
      ensures Valid() && otpCode == text
    {
      otpCode := text;
    }

    /** `onFilled` of the code input: the only step that enables Verify. */
    method OtpFilled(text: string)
      requires Valid() && showOTP
      modifies this`otpCode, this`disableVerify, this`otpFilled
      ensures Valid() && otpCode == text && !disableVerify
    {
      otpCode := text;
      otpFilled := true;
      disableVerify := false;
    }

    /** `OtpVerify`, pressed only while the Verify button is rendered and
        enabled, with the settled result of confirming the code. A rejected
        code leaves `loading` set. */
    method OtpVerify(result: CodeResult) returns (nav: Option<Nav>, notice: Option<Notice>)
      requires Valid() && showOTP && !disableVerify
      modifies this`loading
      ensures Valid()
      ensures nav.Some? <==> result.CodeAccepted? && result.credential.Some?
      ensures nav.Some? ==> nav.value == ResetTo(Home) && !loading
                            && notice == Some(Toast(SuccessToast, SignedInText, ""))
      ensures nav.None? ==> loading
      ensures result.CodeRejected? ==> notice == Some(CodeErrorNotice(result.code))
      ensures result.CodeAccepted? && result.credential.None? ==> notice.None?
    {
      loading := true;
      var handle := confirm.value;
      nav, notice := None, None;
      match result {
        case CodeAccepted(data) =>
          if data.Some? {
            loading := false;
            notice := Some(Toast(SuccessToast, SignedInText, ""));
            nav := Some(ResetTo(Home));
          }
        case CodeRejected(code) =>
          notice := Some(CodeErrorNotice(code));
      }
    }
  }
}
