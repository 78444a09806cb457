/** Email sign-up: per-keystroke validators for the email, the password and
    its confirmation, the submit gate that consults their results, and the
    account creation with its error mapping. */
module SignupFlow {
  import opened Types

  const ShortPasswordText := "Password must be at least 6 characters long"
  const SpacedPasswordText := "Password cannot contain spaces"
  const MismatchText := "Password does not match!"
  const FixFieldsText := "Please fill the fields correctly!"
  const FillFieldsText := "Please fill all the fields!"
  const EmailInUseText := "The email is already in use!"
  const EmailInUseDetail := "Try another email for signup."
  const GenericCreateText := "An error occurred! Please try again later."
  const NoUserText := "An error occurred! Please try again."
  const VerifyTitle := "Verify Email!"
  const VerifyMessage := "Email verification sent. Please check your email and verify."

  /** JavaScript's `length`: UTF-16 code units, of which a character above
      U+FFFF takes two. */
  function Utf16Length(s: string): (n: nat)
    ensures |s| <= n <= 2 * |s|
    ensures (forall i :: 0 <= i < |s| ==> s[i] < '\U{10000}') ==> n == |s|
  {
    if s == [] then 0
    else (if s[0] < '\U{10000}' then 1 else 2) + Utf16Length(s[1..])
  }

  /** Three emoji are six code units long: long enough for the length rule. */
  lemma AstralCharactersCountTwice()
    ensures Utf16Length("\U{1F600}\U{1F600}\U{1F600}") == 6
    ensures PasswordError("\U{1F600}\U{1F600}\U{1F600}") == ""
  {
    var s := "\U{1F600}\U{1F600}\U{1F600}";
    assert s[1..][1..] == "\U{1F600}";
    assert s[1..][1..][1..] == "";
  }

  /** `validatePassword`: the length rule, on JavaScript's `length`, is
      checked before the space rule. */
  function PasswordError(text: string): (e: string)
    ensures e == ShortPasswordText <==> Utf16Length(text) < 6
    ensures e == SpacedPasswordText <==> Utf16Length(text) >= 6 && ' ' in text
    ensures e == "" <==> Utf16Length(text) >= 6 && ' ' !in text
  {
    if Utf16Length(text) < 6 then ShortPasswordText
    else if ' ' in text then SpacedPasswordText
    else ""
  }

  /** `handleConfirmPass`: compared with the password as it is at this edit. */
  function ConfirmError(text: string, password: string): (e: string)
    ensures e == "" <==> text == password
    ensures e != "" ==> e == MismatchText
  {
    if text != password then MismatchText else ""
  }

  // ---- The email pattern `^[\w\-.]+@([\w-]+\.)+[\w-]{2,4}$` ----

  /** `\w`: an ASCII letter, a digit or an underscore. */
  predicate IsWordChar(c: char)
  {
    'a' <= c <= 'z' || 'A' <= c <= 'Z' || '0' <= c <= '9' || c == '_'
  }

  /** `[\w\-.]`, the characters of the part before "@". */
  predicate IsLocalChar(c: char)
  {
    IsWordChar(c) || c == '-' || c == '.'
  }

  /** `[\w-]`, the characters of a domain label and of the top-level domain. */
  predicate IsLabelChar(c: char)
  {
    IsWordChar(c) || c == '-'
  }

  predicate AllLocalChars(s: string)
  {
    forall i :: 0 <= i < |s| ==> IsLocalChar(s[i])
  }

  predicate AllLabelChars(s: string)
  {
    forall i :: 0 <= i < |s| ==> IsLabelChar(s[i])
  }

  /** The index of the first `c` in `s`, or |s| when there is none. */
  function IndexOf(s: string, c: char): (i: nat)
    ensures i <= |s|
    ensures i < |s| ==> s[i] == c
    ensures forall j :: 0 <= j < i ==> s[j] != c
  {
    if s == [] then 0
    else if s[0] == c then 0
    else 1 + IndexOf(s[1..], c)
  }

  /** `([\w-]+\.)*[\w-]{2,4}`: dot-terminated labels, then the top-level domain. */
  predicate LabelsThenTld(d: string)
    ensures LabelsThenTld(d) ==> 2 <= |d| && ('.' in d ==> 4 <= |d|)
    decreases |d|
  {
    var k := IndexOf(d, '.');
    if k == |d| then 2 <= |d| <= 4 && AllLabelChars(d)
    else 0 < k && AllLabelChars(d[..k]) && LabelsThenTld(d[k + 1..])
  }

  /** The email pattern, split at the first "@" (no part of the pattern but
      that "@" can match one). */
  predicate IsValidEmail(s: string)
    ensures IsValidEmail(s) ==> 6 <= |s|
  {
    var at := IndexOf(s, '@');
    && 0 < at < |s|
    && AllLocalChars(s[..at])
    && '.' in s[at + 1..]
    && LabelsThenTld(s[at + 1..])
  }

  /** The labels written out, each followed by a dot. */
  function Dotted(labels: seq<string>): string
  {
    if labels == [] then "" else labels[0] + "." + Dotted(labels[1..])
  }

  predicate WellFormedLabels(labels: seq<string>)
  {
    forall i :: 0 <= i < |labels| ==> labels[i] != "" && AllLabelChars(labels[i])
  }

  /** The pieces the pattern matches, in its own terms. */
  predicate WellFormedPieces(local: string, labels: seq<string>, tld: string)
  {
    && local != "" && AllLocalChars(local)
    && labels != [] && WellFormedLabels(labels)
    && 2 <= |tld| <= 4 && AllLabelChars(tld)
  }

  function ComposeEmail(local: string, labels: seq<string>, tld: string): string
  {
    local + "@" + Dotted(labels) + tld
  }

  lemma {:induction false} IndexOfAfterPrefix(prefix: string, c: char, rest: string)
    requires c !in prefix
    ensures IndexOf(prefix + [c] + rest, c) == |prefix|
  {
    if prefix != [] {
      assert (prefix + [c] + rest)[1..] == prefix[1..] + [c] + rest;
      IndexOfAfterPrefix(prefix[1..], c, rest);
    }
  }

  lemma {:induction false} IndexOfAbsent(s: string, c: char)
    requires c !in s
    ensures IndexOf(s, c) == |s|
  {
    if s != [] {
      IndexOfAbsent(s[1..], c);
    }
  }

  /** Well-formed labels and top-level domain are matched by `([\w-]+\.)*[\w-]{2,4}`. */
  lemma {:induction false} DottedLabelsMatch(labels: seq<string>, tld: string)
    requires WellFormedLabels(labels) && 2 <= |tld| <= 4 && AllLabelChars(tld)
    ensures LabelsThenTld(Dotted(labels) + tld)
    decreases |labels|
  {
    var d := Dotted(labels) + tld;
    if labels == [] {
      assert d == tld;
      assert '.' !in tld;
      IndexOfAbsent(tld, '.');
    } else {
      var l := labels[0];
      assert '.' !in l;
      assert d == l + ['.'] + (Dotted(labels[1..]) + tld);
      IndexOfAfterPrefix(l, '.', Dotted(labels[1..]) + tld);
      assert d[..|l|] == l;
      assert d[|l| + 1..] == Dotted(labels[1..]) + tld;
      assert WellFormedLabels(labels[1..]) by {
        forall i | 0 <= i < |labels[1..]| ensures labels[1..][i] != "" && AllLabelChars(labels[1..][i]) {
          assert labels[1..][i] == labels[i + 1];
        }
      }
      DottedLabelsMatch(labels[1..], tld);
    }
  }

  /** Every address the pattern describes passes the check. */
  lemma {:induction false} ComposedEmailIsValid(local: string, labels: seq<string>, tld: string)
    requires WellFormedPieces(local, labels, tld)
    ensures IsValidEmail(ComposeEmail(local, labels, tld))
  {
    var s := ComposeEmail(local, labels, tld);
    var d := Dotted(labels) + tld;
    assert '@' !in local;
    assert s == local + ['@'] + d;
    IndexOfAfterPrefix(local, '@', d);
    assert s[..|local|] == local;
    assert s[|local| + 1..] == d;
    assert d[|labels[0]|] == '.';
    DottedLabelsMatch(labels, tld);
  }

  /** The labels of a domain the check accepts, split at its dots. */
  function SplitLabels(d: string): (labels: seq<string>)
    requires LabelsThenTld(d)
    decreases |d|
  {
    var k := IndexOf(d, '.');
    if k == |d| then [] else [d[..k]] + SplitLabels(d[k + 1..])
  }

  /** The top-level domain of a domain the check accepts. */
  function Tld(d: string): string
    requires LabelsThenTld(d)
    decreases |d|
  {
    var k := IndexOf(d, '.');
    if k == |d| then d else Tld(d[k + 1..])
  }

  lemma {:induction false} SplitLabelsWellFormed(d: string)
    requires LabelsThenTld(d)
    ensures WellFormedLabels(SplitLabels(d))
    ensures '.' in d ==> SplitLabels(d) != []
    decreases |d|
  {
    var k := IndexOf(d, '.');
    if k < |d| {
      var rest := d[k + 1..];
      SplitLabelsWellFormed(rest);
      var tail := SplitLabels(rest);
      var labels := [d[..k]] + tail;
      assert SplitLabels(d) == labels;
      forall i | 0 <= i < |labels| ensures labels[i] != "" && AllLabelChars(labels[i]) {
        if i > 0 {
          assert labels[i] == tail[i - 1];
        }
      }
    }
  }

  lemma {:induction false} TldWellFormed(d: string)
    requires LabelsThenTld(d)
    ensures 2 <= |Tld(d)| <= 4 && AllLabelChars(Tld(d))
    decreases |d|
  {
    var k := IndexOf(d, '.');
    if k < |d| {
      TldWellFormed(d[k + 1..]);
    }
  }

  lemma DottedCons(l: string, ls: seq<string>)
    ensures Dotted([l] + ls) == l + "." + Dotted(ls)
  {
    assert ([l] + ls)[1..] == ls;
  }

  lemma ConcatAssoc(a: string, b: string, c: string)
    ensures a + (b + c) == (a + b) + c
  {
  }

  lemma {:induction false} SplitLabelsRecompose(d: string)
    requires LabelsThenTld(d)
    ensures d == Dotted(SplitLabels(d)) + Tld(d)
    decreases |d|
  {
    var k := IndexOf(d, '.');
    if k < |d| {
      var rest := d[k + 1..];
      assert LabelsThenTld(rest);
      SplitLabelsRecompose(rest);
      assert SplitLabels(d) == [d[..k]] + SplitLabels(rest);
      assert Tld(d) == Tld(rest);
      DottedCons(d[..k], SplitLabels(rest));
      var head := d[..k] + ".";
      var dots := Dotted(SplitLabels(rest));
      assert Dotted(SplitLabels(d)) == head + dots;
      assert d == head + rest;
      assert rest == dots + Tld(rest);
      ConcatAssoc(head, dots, Tld(rest));
    }
  }

  /** Every address that passes the check is one the pattern describes. */
  lemma {:induction false} ValidEmailDecomposes(s: string)
    requires IsValidEmail(s)
    ensures var at := IndexOf(s, '@'); var d := s[at + 1..];
      WellFormedPieces(s[..at], SplitLabels(d), Tld(d))
      && s == ComposeEmail(s[..at], SplitLabels(d), Tld(d))
  {
    var at := IndexOf(s, '@');
    var d := s[at + 1..];
    SplitLabelsWellFormed(d);
    TldWellFormed(d);
    SplitLabelsRecompose(d);
    assert s == (s[..at] + "@") + d;
    ConcatAssoc(s[..at] + "@", Dotted(SplitLabels(d)), Tld(d));
  }

  // ---- The submit gate ----

  /** The verdict of `handleEmailSignup`'s guard. */
  datatype SubmitCheck = FixFields | FillFields | Create

  /** The recorded errors and the email flag are consulted before the
      emptiness of the fields. */
  function CheckSubmit(passError: string, confirmError: string, isEmailValid: bool,
                       email: string, password: string, confirmPass: string): (c: SubmitCheck)
    ensures c == FixFields <==> passError != "" || confirmError != "" || !isEmailValid
    ensures c == FillFields <==>
      passError == "" && confirmError == "" && isEmailValid &&
      (email == "" || password == "" || confirmPass == "")
    ensures c == Create ==> email != "" && password != "" && confirmPass != ""
  {
    if passError != "" || confirmError != "" || !isEmailValid then FixFields
    else if email == "" || password == "" || confirmPass == "" then FillFields
    else Create
  }

  /** `passError` as the screen records it: the validator's result, or ""
      while the password field has never been edited. */
  predicate PassErrorRecorded(passError: string, password: string)
  {
    passError == PasswordError(password) || (password == "" && passError == "")
  }

  /** With the validators' results recorded as the screen records them, an
      account is only created for a valid email and a password that keeps
      the rules, confirmed at the time of the confirm edit. */
  lemma AcceptedSubmitKeepsRules(email: string, password: string, passError: string,
                                 confirmPass: string, confirmedAgainst: string)
    requires PassErrorRecorded(passError, password)
    requires CheckSubmit(passError, ConfirmError(confirmPass, confirmedAgainst),
                         IsValidEmail(email), email, password, confirmPass) == Create
    ensures IsValidEmail(email) && Utf16Length(password) >= 6 && ' ' !in password
    ensures confirmPass == confirmedAgainst && confirmPass != ""
  {
  }

  /** With the validators' results recorded, "fill all the fields" is shown
      only for an untouched password or an empty confirmation: a valid email
      is never empty, so the email test of that branch never decides it. */
  lemma FillFieldsMeansUntouchedField(email: string, password: string, passError: string,
                                      confirmPass: string, confirmedAgainst: string)
    requires PassErrorRecorded(passError, password)
    requires CheckSubmit(passError, ConfirmError(confirmPass, confirmedAgainst),
                         IsValidEmail(email), email, password, confirmPass) == FillFields
    ensures email != "" && (password == "" || confirmPass == "")
    ensures password != "" ==> Utf16Length(password) >= 6 && ' ' !in password
  {
  }

  /** The confirmation is not re-checked when the password changes after it:
      confirming "secret1" and then typing "secret12" passes the gate. */
  lemma StaleConfirmationPasses()
    ensures CheckSubmit(PasswordError("secret12"), ConfirmError("secret1", "secret1"),
                        IsValidEmail("a@b.cd"), "a@b.cd", "secret12", "secret1") == Create
  {
    assert IsValidEmail("a@b.cd") by {
      assert IndexOf("a@b.cd", '@') == 1;
      assert "a@b.cd"[2..] == "b.cd";
      assert IndexOf("b.cd", '.') == 1;
      assert "b.cd"[2..] == "cd";
      assert IndexOf("cd", '.') == 2;
    }
    assert PasswordError("secret12") == "" by {
      var typed := "secret12";
      assert |typed| == 8 && ' ' !in typed;
    }
  }

  // ---- Account creation ----

  /** The message for a rejected creation step. */
  function CreateErrorNotice(code: string): (n: Notice)
    ensures n.Toast? && n.kind == ErrorToast
    ensures n.text1 == EmailInUseText <==> code == "auth/email-already-in-use"
    ensures n.text1 != EmailInUseText ==> n.text1 == GenericCreateText
  {
    if code == "auth/email-already-in-use" then Toast(ErrorToast, EmailInUseText, EmailInUseDetail)
    else Toast(ErrorToast, GenericCreateText, "")
  }

  /** The settled result of `createUserWithEmailAndPassword`. */
  datatype CreateResult = Created(user: Option<AuthUser>) | CreateFailed(code: string)

  /** What a submit did: the gate's verdict, the notices in order, whether a
      verification mail was requested, and the action of the alert's button. */
  datatype SignupEffects = SignupEffects(
    check: SubmitCheck, notices: seq<Notice>, verificationSent: bool, alertAction: Option<Nav>)

  const VerifyAlert := Alert(VerifyTitle, VerifyMessage)

  /** Once creation is attempted, the verify-email alert is always shown
      last, whatever the creation's outcome, and its button resets to Login. */
  function SubmitOutcome(c: SubmitCheck, create: CreateResult, sendVerification: Outcome): (fx: SignupEffects)
    ensures fx.check == c
    ensures fx.alertAction.Some? <==> c == Create
    ensures fx.alertAction.Some? ==> fx.alertAction.value == ResetTo(Login)
    ensures c == Create ==> |fx.notices| >= 1 && fx.notices[|fx.notices| - 1] == VerifyAlert
    ensures c != Create ==> |fx.notices| == 1 && fx.notices[0].Toast?
    ensures fx.verificationSent <==> c == Create && create.Created? && create.user.Some?
    ensures c == FixFields ==> fx.notices == [Toast(ErrorToast, FixFieldsText, "")]
    ensures c == FillFields ==> fx.notices == [Toast(ErrorToast, FillFieldsText, "")]
    ensures c == Create && create.CreateFailed? ==> fx.notices == [CreateErrorNotice(create.code), VerifyAlert]
    ensures c == Create && create == Created(None) ==>
      fx.notices == [Toast(ErrorToast, NoUserText, ""), VerifyAlert]
    ensures c == Create && create.Created? && create.user.Some? ==>
      fx.notices == (if sendVerification.Rejected? then [CreateErrorNotice(sendVerification.code)] else [])
                    + [VerifyAlert]
  {
    match c
    case FixFields => SignupEffects(c, [Toast(ErrorToast, FixFieldsText, "")], false, None)
    case FillFields => SignupEffects(c, [Toast(ErrorToast, FillFieldsText, "")], false, None)
    case Create =>
      var before :=
        match create
        case CreateFailed(code) => [CreateErrorNotice(code)]
        case Created(None) => [Toast(ErrorToast, NoUserText, "")]
        case Created(Some(_)) =>
          if sendVerification.Rejected? then [CreateErrorNotice(sendVerification.code)] else [];
      SignupEffects(c, before + [VerifyAlert], create.Created? && create.user.Some?, Some(ResetTo(Login)))
  }

  /** The Signup screen's state. `confirmedAgainst` is ghost bookkeeping:
      the password as it was at the last confirm edit. */
  class SignupScreen {
    var email: string
    var password: string
    var confirmPass: string
    var confirmError: string
    var passError: string
    var isEmailValid: bool
    var loading: bool
    ghost var confirmedAgainst: string

    /** The recorded errors and flag are the validators' results, except
        that an untouched password has no recorded error. */
    ghost predicate Valid()
      reads this
    {
      && PassErrorRecorded(passError, password)
      && isEmailValid == IsValidEmail(email)
      && confirmError == ConfirmError(confirmPass, confirmedAgainst)
    }

    constructor ()
      ensures Valid()
      ensures email == "" && password == "" && confirmPass == ""
      ensures passError == "" && confirmError == "" && !isEmailValid && !loading
    {
      email, password, confirmPass := "", "", "";
      confirmError, passError := "", "";
      isEmailValid, loading := false, false;
      confirmedAgainst := "";
    }

    /** The email input re-tests the pattern on every change. */
    method ChangeEmail(text: string)
      requires Valid()
      modifies this`email, this`isEmailValid
      ensures Valid() && email == text && isEmailValid == IsValidEmail(text)
    {
      email := text;
      if IsValidEmail(text) {
        isEmailValid := true;
      } else {
        isEmailValid := false;
      }
    }

    /** `handlePasswordChange`: the password and its error; the confirmation
        error is left as it was. */
    method HandlePasswordChange(text: string)
      requires Valid()
      modifies this`password, this`passError
      ensures Valid() && password == text && passError == PasswordError(text)
    {
      password := text;
      if Utf16Length(text) < 6 {
        passError := ShortPasswordText;
      } else if ' ' in text {
        passError := SpacedPasswordText;
      } else {
        passError := "";
      }
    }

    /** `handleConfirmPass`. */
    method HandleConfirmPass(text: string)
      requires Valid()
      modifies this`confirmPass, this`confirmError, this`confirmedAgainst
      ensures Valid() && confirmPass == text
      ensures confirmError == "" <==> text == password
    {
      confirmPass := text;
      confirmedAgainst := password;
      if text != password {
        confirmError := MismatchText;
      } else {
        confirmError := "";
      }
    }

    /** `handleEmailSignup` with the settled results of the calls it may make. */
    method HandleEmailSignup(create: CreateResult, sendVerification: Outcome) returns (fx: SignupEffects)
      requires Valid()
      modifies this`loading
      ensures Valid()
      ensures fx == SubmitOutcome(CheckSubmit(passError, confirmError, isEmailValid, email, password, confirmPass),
                                  create, sendVerification)
      ensures loading == (old(loading) && fx.check != Create)
    {
      if passError != "" || confirmError != "" || !isEmailValid {
        fx := SignupEffects(FixFields, [Toast(ErrorToast, FixFieldsText, "")], false, None);
      } else if email == "" || password == "" || confirmPass == "" {
        fx := SignupEffects(FillFields, [Toast(ErrorToast, FillFieldsText, "")], false, None);
      } else {
        loading := true;
        var notices: seq<Notice> := [];
        var sent := false;
        match create {
          case Created(user) =>
            if user.Some? {
              sent := true;
              if sendVerification.Rejected? {
                notices := [CreateErrorNotice(sendVerification.code)];
              }
            } else {
              notices := [Toast(ErrorToast, NoUserText, "")];
            }
          case CreateFailed(code) =>
            notices := [CreateErrorNotice(code)];
        }
        loading := false;
        fx := SignupEffects(Create, notices + [VerifyAlert], sent, Some(ResetTo(Login)));
      }
    }
  }
}
