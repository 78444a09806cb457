/** Email and password login: a guard on empty fields, a gate on email
    verification, routing by the stored role, and the mapping from sign-in
    error codes to messages. */
module LoginFlow {
  import opened Types

  const EmptyFieldsText := "Empty fields"
  const EmptyFieldsDetail := "Please enter email/password to login."
  const NotVerifiedText := "Email not verified!"
  const NotVerifiedDetail := "Please check your email and verify."
  const UserNotFoundText := "No user found with this email."
  const WrongPasswordText := "Incorrect password."
  const InvalidEmailText := "Invalid email format. Please enter a valid email address."
  const InvalidCredentialText := "Invalid credentials!"
  const GenericSignInText := "An error occurred! Please try after sometime."
  const ProfileReadErrorText := "An error occurred!"

  /** The message shown for a rejected sign-in step, by Firebase error code. */
  function SignInErrorText(code: string): (m: string)
    ensures m == UserNotFoundText <==> code == "auth/user-not-found"
    ensures m == WrongPasswordText <==> code == "auth/wrong-password"
    ensures m == InvalidEmailText <==> code == "auth/invalid-email"
    ensures m == InvalidCredentialText <==> code == "auth/invalid-credential"
    ensures m == GenericSignInText <==>
      code !in {"auth/user-not-found", "auth/wrong-password", "auth/invalid-email", "auth/invalid-credential"}
  {
    if code == "auth/user-not-found" then UserNotFoundText
    else if code == "auth/wrong-password" then WrongPasswordText
    else if code == "auth/invalid-email" then InvalidEmailText
    else if code == "auth/invalid-credential" then InvalidCredentialText
    else GenericSignInText
  }

  /** Two codes get the same message only if both are unrecognised. */
  lemma SignInErrorTextsDistinguishCodes(c1: string, c2: string)
    requires c1 != c2 && SignInErrorText(c1) == SignInErrorText(c2)
    ensures SignInErrorText(c1) == GenericSignInText
  {
  }

  /** `checkProfile`'s destination for a settled read of the user's record. */
  function ProfileRoute(record: Option<Profile>): (r: Route)
    ensures r == AdminProfile <==> record.Some? && record.value.role == "admin"
    ensures r == AdminProfile || r == Home
  {
    if record.Some? then
      if record.value.role == "admin" then AdminProfile else Home
    else Home
  }

  /** The settled result of `signInWithEmailAndPassword`. */
  datatype SignInResult = SignedIn(user: AuthUser) | SignInFailed(code: string)

  /** What `handleLogin` did: whether it called sign-in, the notices it
      showed in order, where it went, and which follow-up calls it made. */
  datatype LoginEffects = LoginEffects(
    attempted: bool, notices: seq<Notice>, nav: Option<Nav>,
    verificationSent: bool, signOutCalled: bool)

  /** `handleLogin` on the two fields, with the settled results of the calls
      it may make. A rejection of the verification mail or of the sign-out
      after it falls through to the same error mapping as a failed sign-in. */
  function HandleLoginOutcome(email: string, password: string, signIn: SignInResult,
                              sendVerification: Outcome, signOut: Outcome,
                              record: Read<Option<Profile>>): (fx: LoginEffects)
    ensures fx.attempted <==> email != "" && password != ""
    ensures !fx.attempted ==>
      fx.notices == [Toast(ErrorToast, EmptyFieldsText, EmptyFieldsDetail)] && fx.nav.None?
    ensures fx.nav.Some? <==>
      fx.attempted && signIn.SignedIn? && signIn.user.emailVerified && record.ReadOk?
    ensures fx.nav.Some? ==> fx.nav.value == ResetTo(ProfileRoute(record.value))
    ensures fx.verificationSent <==> fx.attempted && signIn.SignedIn? && !signIn.user.emailVerified
    ensures fx.signOutCalled <==> fx.verificationSent && sendVerification.Done?
    ensures fx.attempted && signIn.SignInFailed? ==>
      fx.notices == [Toast(ErrorToast, SignInErrorText(signIn.code), "")]
    ensures fx.nav.Some? ==> fx.notices == []
    ensures fx.attempted && signIn.SignedIn? && signIn.user.emailVerified && record.ReadFailed? ==>
      fx.notices == [Toast(ErrorToast, ProfileReadErrorText, "")]
    ensures fx.verificationSent && sendVerification.Rejected? ==>
      fx.notices == [Toast(ErrorToast, SignInErrorText(sendVerification.code), "")]
    ensures fx.signOutCalled ==>
      fx.notices == [Toast(ErrorToast, NotVerifiedText, NotVerifiedDetail)]
                    + (if signOut.Rejected? then [Toast(ErrorToast, SignInErrorText(signOut.code), "")] else [])
  {
    if email == "" || password == "" then
      LoginEffects(false, [Toast(ErrorToast, EmptyFieldsText, EmptyFieldsDetail)], None, false, false)
    else
      match signIn
      case SignInFailed(code) =>
        LoginEffects(true, [Toast(ErrorToast, SignInErrorText(code), "")], None, false, false)
      case SignedIn(user) =>
        if user.emailVerified then
          match record
          case ReadOk(data) => LoginEffects(true, [], Some(ResetTo(ProfileRoute(data))), false, false)
          case ReadFailed =>
            LoginEffects(true, [Toast(ErrorToast, ProfileReadErrorText, "")], None, false, false)
        else if sendVerification.Rejected? then
          LoginEffects(true, [Toast(ErrorToast, SignInErrorText(sendVerification.code), "")], None, true, false)
        else
          var notVerified := Toast(ErrorToast, NotVerifiedText, NotVerifiedDetail);
          if signOut.Done? then LoginEffects(true, [notVerified], None, true, true)
          else LoginEffects(true, [notVerified, Toast(ErrorToast, SignInErrorText(signOut.code), "")], None, true, true)
  }

  /** An unverified user is never let in: a verification mail is requested,
      an error is shown and no navigation happens. */
  lemma UnverifiedNeverNavigates(email: string, password: string, user: AuthUser,
                                 sendVerification: Outcome, signOut: Outcome,
                                 record: Read<Option<Profile>>)
    requires email != "" && password != "" && !user.emailVerified
    ensures var fx := HandleLoginOutcome(email, password, SignedIn(user), sendVerification, signOut, record);
      fx.nav.None? && fx.verificationSent && fx.notices != [] && fx.notices[0].kind == ErrorToast
  {
  }

  /** Every navigation `handleLogin` dispatches is a reset to a single route. */
  lemma LoginNavigationIsSingleReset(email: string, password: string, signIn: SignInResult,
                                     sendVerification: Outcome, signOut: Outcome,
                                     record: Read<Option<Profile>>)
    ensures var fx := HandleLoginOutcome(email, password, signIn, sendVerification, signOut, record);
      fx.nav.Some? ==> IsSingleReset(fx.nav.value) && fx.nav.value.routes[0] in {Home, AdminProfile}
  {
  }

  /** The Login screen's state. */
  class LoginScreen {
    var email: string
    var password: string
    var isLoading: bool

    constructor ()
      ensures email == "" && password == "" && !isLoading
    {
      email, password, isLoading := "", "", false;
    }

    method ChangeEmail(text: string)
      modifies this`email
      ensures email == text
    {
      email := text;
    }

    method ChangePassword(text: string)
      modifies this`password
      ensures password == text
    {
      password := text;
    }

    /** `handleLogin`, with `checkProfile` called for the signed-in user's uid.
        Once sign-in is attempted every path clears `isLoading`. */
    method HandleLogin(signIn: SignInResult, sendVerification: Outcome, signOut: Outcome,
                       record: Read<Option<Profile>>) returns (fx: LoginEffects)
      modifies this`isLoading
      ensures fx == HandleLoginOutcome(email, password, signIn, sendVerification, signOut, record)
      ensures isLoading == (old(isLoading) && !fx.attempted)
    {
      if email != "" && password != "" {
        isLoading := true;
        match signIn {
          case SignInFailed(code) =>
            isLoading := false;
            fx := LoginEffects(true, [Toast(ErrorToast, SignInErrorText(code), "")], None, false, false);
          case SignedIn(user) =>
            if user.emailVerified {
              fx := CheckProfile(record);
            } else {
              isLoading := false;
              if sendVerification.Rejected? {
                isLoading := false;
                fx := LoginEffects(true, [Toast(ErrorToast, SignInErrorText(sendVerification.code), "")],
                                   None, true, false);
                return;
              }
              var notices := [Toast(ErrorToast, NotVerifiedText, NotVerifiedDetail)];
              if signOut.Rejected? {
                isLoading := false;
                notices := notices + [Toast(ErrorToast, SignInErrorText(signOut.code), "")];
              }
              fx := LoginEffects(true, notices, None, true, true);
            }
        }
      } else {
        fx := LoginEffects(false, [Toast(ErrorToast, EmptyFieldsText, EmptyFieldsDetail)], None, false, false);
      }
    }

    /** `checkProfile` with the settled result of its read. */
    method CheckProfile(record: Read<Option<Profile>>) returns (fx: LoginEffects)
      modifies this`isLoading
      ensures !isLoading
      ensures fx.attempted && !fx.verificationSent && !fx.signOutCalled
      ensures fx.nav == (if record.ReadOk? then Some(ResetTo(ProfileRoute(record.value))) else None)
      ensures fx.notices == (if record.ReadOk? then [] else [Toast(ErrorToast, ProfileReadErrorText, "")])
    {
      match record {
        case ReadOk(userData) =>
          if userData.Some? {
            if userData.value.role == "admin" {
              fx := LoginEffects(true, [], Some(ResetTo(AdminProfile)), false, false);
            } else {
              fx := LoginEffects(true, [], Some(ResetTo(Home)), false, false);
            }
          } else {
            fx := LoginEffects(true, [], Some(ResetTo(Home)), false, false);
          }
          isLoading := false;
        case ReadFailed =>
          isLoading := false;
          fx := LoginEffects(true, [Toast(ErrorToast, ProfileReadErrorText, "")], None, false, false);
      }
    }
  }
}
