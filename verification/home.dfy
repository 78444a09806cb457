/** The profile form controller: the Home screen loads the signed-in
    user's record into five editable fields, validates the phone number as
    it is typed, saves the fields back with a merging update, and deletes
    the profile or logs out. */
module HomeProfile {
  import opened Types

  const FillAllFieldsText := "Please fill in all fields!"
  const InvalidPhoneText := "Enter a valid phone number"
  const SavedText := "Profile saved successfully!"
  const SaveErrorText := "Error saving data!"
  const DeletedText := "Your profile has been deleted!"
  const DeleteErrorText := "Error deleting profile!"

  predicate IsDigit(c: char)
  {
    '0' <= c <= '9'
  }

  predicate AllDigits(s: string)
  {
    forall i :: 0 <= i < |s| ==> IsDigit(s[i])
  }

  /** The phone pattern `^03[0-4][0-9]{8}$`: a local mobile number. */
  predicate IsValidPhone(s: string)
    ensures IsValidPhone(s) ==> |s| == 11 && AllDigits(s)
  {
    && |s| == 11
    && s[0] == '0' && s[1] == '3'
    && '0' <= s[2] <= '4'
    && forall i :: 3 <= i < 11 ==> IsDigit(s[i])
  }

  /** The number the pattern describes, from its operator digit and its
      eight-digit subscriber part. */
  function BuildPhone(operator: char, subscriber: string): string
  {
    "03" + [operator] + subscriber
  }

  /** Every operator digit 0..4 and eight-digit subscriber part give a valid number. */
  lemma BuiltPhoneIsValid(operator: char, subscriber: string)
    requires '0' <= operator <= '4' && |subscriber| == 8 && AllDigits(subscriber)
    ensures IsValidPhone(BuildPhone(operator, subscriber))
  {
    var s := BuildPhone(operator, subscriber);
    forall i | 3 <= i < 11 ensures IsDigit(s[i]) {
      assert s[i] == subscriber[i - 3];
    }
  }

  /** Every valid number is built that way, from its own third character and tail. */
  lemma ValidPhoneIsBuilt(s: string)
    requires IsValidPhone(s)
    ensures '0' <= s[2] <= '4' && |s[3..]| == 8 && AllDigits(s[3..])
    ensures s == BuildPhone(s[2], s[3..])
  {
    forall i | 0 <= i < 8 ensures IsDigit(s[3..][i]) {
      assert s[3..][i] == s[i + 3];
    }
  }

  lemma PhoneExamples()
    ensures IsValidPhone("03001234567")
    ensures !IsValidPhone("123")
    ensures !IsValidPhone("03501234567")
    ensures !IsValidPhone("030012345678")
  {
  }

  /** `s.slice(-n)`: the last `n` characters, or all of `s` when it is shorter. */
  function SliceLast(s: string, n: nat): (r: string)
    ensures |r| == if |s| <= n then |s| else n
    ensures r == s[|s| - |r|..]
  {
    if |s| <= n then s else s[|s| - n..]
  }

  /** The phone field after a load that found no record: a non-empty auth
      phone number seeds it with "0" and the number's last ten characters. */
  function SeedPhone(authPhone: Option<string>, current: string): (r: string)
    ensures authPhone.None? || authPhone.value == "" ==> r == current
    ensures authPhone.Some? && authPhone.value != "" ==>
      r == "0" + SliceLast(authPhone.value, 10)
  {
    if authPhone.Some? && authPhone.value != "" then "0" + SliceLast(authPhone.value, 10)
    else current
  }

  /** A Pakistani number in international form, "+92" and ten digits, is
      seeded as its local form "0" and the same ten digits; the seeded
      number matches the phone pattern exactly when those digits are
      "3", an operator digit 0..4 and eight more digits. */
  lemma {:induction false} SeededPakistaniNumber(national: string, current: string)
    requires |national| == 10
    ensures SeedPhone(Some("+92" + national), current) == "0" + national
    ensures IsValidPhone("0" + national) <==>
      national[0] == '3' && '0' <= national[1] <= '4' && AllDigits(national[2..])
  {
    var full := "+92" + national;
    assert full[|full| - 10..] == national;
    var p := "0" + national;
    if national[0] == '3' && '0' <= national[1] <= '4' && AllDigits(national[2..]) {
      forall i | 3 <= i < 11 ensures IsDigit(p[i]) {
        assert p[i] == national[2..][i - 3];
      }
    }
    if IsValidPhone(p) {
      forall i | 0 <= i < 8 ensures IsDigit(national[2..][i]) {
        assert national[2..][i] == p[i + 3];
      }
    }
  }

  /** The five editable fields after a load: the stored record when there is
      one, otherwise the current fields with the phone seeded. */
  function LoadedForm(form: Profile, user: AuthUser, record: Option<Profile>): (r: Profile)
    ensures record.Some? ==> r == record.value
    ensures record.None? ==>
      r == form.(phone := SeedPhone(user.phoneNumber, form.phone))
  {
    match record
    case Some(data) => data
    case None => form.(phone := SeedPhone(user.phoneNumber, form.phone))
  }

  /** The verdict of the save button's guard. */
  datatype SaveCheck = MissingField | InvalidPhone | Accepted

  /** The empty-field check comes first, then the phone flag; the role is
      not checked. */
  function CheckSave(form: Profile, isPhoneValid: bool): (c: SaveCheck)
    ensures c == MissingField <==>
      form.name == "" || form.age == "" || form.gender == "" || form.phone == ""
    ensures c == InvalidPhone <==>
      form.name != "" && form.age != "" && form.gender != "" && form.phone != "" && !isPhoneValid
    ensures c == Accepted <==>
      form.name != "" && form.age != "" && form.gender != "" && form.phone != "" && isPhoneValid
  {
    if form.name == "" || form.age == "" || form.gender == "" || form.phone == "" then MissingField
    else if !isPhoneValid then InvalidPhone
    else Accepted
  }

  /** The role never decides the guard's verdict. */
  lemma SaveIgnoresRole(form: Profile, role: string, isPhoneValid: bool)
    ensures CheckSave(form.(role := role), isPhoneValid) == CheckSave(form, isPhoneValid)
  {
  }

  /** The toast a save shows, given the guard's verdict and, when the write
      was issued, how it settled. */
  function SaveNotice(c: SaveCheck, update: Outcome): (n: Notice)
    ensures n.Toast?
    ensures n.kind == SuccessToast <==> c == Accepted && update.Done?
    ensures c == MissingField ==> n.text2 == FillAllFieldsText
    ensures c == InvalidPhone ==> n.text2 == InvalidPhoneText
    ensures c != Accepted ==> n.kind == ErrorToast && n.text1 == ""
    ensures c == Accepted && update.Rejected? ==> n == Toast(ErrorToast, SaveErrorText, "")
    ensures c == Accepted && update.Done? ==> n == Toast(SuccessToast, SavedText, "")
  {
    match c
    case MissingField => Toast(ErrorToast, "", FillAllFieldsText)
    case InvalidPhone => Toast(ErrorToast, "", InvalidPhoneText)
    case Accepted =>
      if update.Done? then Toast(SuccessToast, SavedText, "")
      else Toast(ErrorToast, SaveErrorText, "")
  }

  /** What deleting the profile does: which steps took effect, where it goes
      and what it shows. */
  datatype DeleteEffects = DeleteEffects(
    committed: Option<Write>, accountDeleted: bool, nav: Option<Nav>, notice: Notice)

  /** The record is removed first; the account is deleted only after that
      succeeded; the screen leaves only when both succeeded. */
  function DeleteProfile(uid: string, remove: Outcome, deleteAccount: Outcome): (fx: DeleteEffects)
    ensures fx.committed.Some? <==> remove.Done?
    ensures fx.committed.Some? ==> fx.committed.value == Remove(uid)
    ensures fx.accountDeleted <==> remove.Done? && deleteAccount.Done?
    ensures fx.nav.Some? <==> fx.accountDeleted
    ensures fx.nav.Some? ==> fx.nav.value == ResetTo(GettingStarted)
    ensures fx.notice.Toast? && (fx.notice.kind == InfoToast <==> fx.nav.Some?)
    ensures fx.accountDeleted ==> fx.notice == Toast(InfoToast, DeletedText, "")
    ensures !fx.accountDeleted ==> fx.notice == Toast(ErrorToast, DeleteErrorText, "")
  {
    if remove.Rejected? then
      DeleteEffects(None, false, None, Toast(ErrorToast, DeleteErrorText, ""))
    else if deleteAccount.Rejected? then
      DeleteEffects(Some(Remove(uid)), false, None, Toast(ErrorToast, DeleteErrorText, ""))
    else
      DeleteEffects(Some(Remove(uid)), true, Some(ResetTo(GettingStarted)), Toast(InfoToast, DeletedText, ""))
  }

  /** The account is never deleted while its record is kept. */
  lemma NoAccountWithoutRemoval(uid: string, remove: Outcome, deleteAccount: Outcome, db: Db)
    requires DeleteProfile(uid, remove, deleteAccount).accountDeleted
    ensures Lookup(Apply(db, DeleteProfile(uid, remove, deleteAccount).committed.value), uid) == None
  {
  }

  /** The Delete button is shown before the first auth event has set the
      uid: a delete confirmed then removes `/users/` itself, every user's
      record. */
  lemma EarlyDeleteClearsCollection(deleteAccount: Outcome, db: Db, uid: string)
    ensures var fx := DeleteProfile(CollectionRoot, Done, deleteAccount);
      fx.committed.Some? && Lookup(Apply(db, fx.committed.value), uid) == None
  {
  }

  /** The Home screen's state. `lastTypedPhone` and `phoneIsTyped` are ghost
      bookkeeping: the text of the last phone edit, and whether the phone
      field still holds it. */
  class HomeScreen {
    var userId: string
    var name: string
    var age: string
    var gender: string
    var phoneNumber: string
    var role: string
    var loading: bool
    var allowEdit: bool
    var isPhoneValid: bool
    var logLoading: bool
    ghost var lastTypedPhone: Option<string>
    ghost var phoneIsTyped: bool

    /** `isPhoneValid` is the pattern test of the last typed phone (true
        before any), and is about the field itself while it holds that text. */
    ghost predicate Valid()
      reads this
    {
      && isPhoneValid == (lastTypedPhone.None? || IsValidPhone(lastTypedPhone.value))
      && (phoneIsTyped ==> lastTypedPhone == Some(phoneNumber))
    }

    function Form(): Profile
      reads this
    {
      Profile(name, age, gender, phoneNumber, role)
    }

    /** "Phone number is not valid!" is rendered under the phone field. */
    predicate PhoneErrorShown()
      reads this
    {
      |phoneNumber| > 0 && !isPhoneValid
    }

    constructor ()
      ensures Valid()
      ensures userId == "" && Form() == Profile("", "", "", "", "")
      ensures !loading && !allowEdit && isPhoneValid && !logLoading
      ensures !PhoneErrorShown()
    {
      userId := "";
      name, age, gender, phoneNumber, role := "", "", "", "", "";
      loading, allowEdit, isPhoneValid, logLoading := false, false, true, false;
      lastTypedPhone, phoneIsTyped := None, false;
    }

    /** The load effect's auth listener with the settled result of its read.
        A failed read is not caught: the spinner stays. */
    method OnAuthStateChanged(user: Option<AuthUser>, record: Read<Option<Profile>>)
      requires Valid()
      modifies this
      ensures Valid()
      ensures user.None? ==> unchanged(this)
      ensures user.Some? ==> userId == user.value.uid
      ensures user.Some? ==>
                Form() == (if record.ReadOk? then LoadedForm(old(Form()), user.value, record.value) else old(Form()))
      ensures user.Some? ==> logLoading == record.ReadFailed?
      ensures user.Some? ==> allowEdit == (old(allowEdit) || record == ReadOk(None))
      ensures loading == old(loading) && isPhoneValid == old(isPhoneValid)
    {
      if user.Some? {
        logLoading := true;
        userId := user.value.uid;
        match record {
          case ReadOk(userData) =>
            if userData.Some? {
              name := userData.value.name;
              age := userData.value.age;
              gender := userData.value.gender;
              phoneNumber := userData.value.phone;
              role := userData.value.role;
              phoneIsTyped := false;
              logLoading := false;
            } else {
              var authPhone := user.value.phoneNumber;
              if authPhone.Some? && authPhone.value != "" {
                var num := SliceLast(authPhone.value, 10);
                phoneNumber := "0" + num;
                phoneIsTyped := false;
              }
              allowEdit := true;
              logLoading := false;
            }
          case ReadFailed =>
        }
      }
    }

    method ChangeName(text: string)
      requires Valid()
      modifies this`name
      ensures Valid() && name == text
    {
      name := text;
    }

    method ChangeAge(text: string)
      requires Valid()
      modifies this`age
      ensures Valid() && age == text
    {
      age := text;
    }

    /** The Male/Female radio buttons, rendered in edit mode; the gender
        text input is only rendered, disabled, outside it. */
    method ChangeGender(choice: string)
      requires Valid()
      requires choice == "Male" || choice == "Female"
      modifies this`gender
      ensures Valid() && gender == choice
    {
      gender := choice;
    }

    /** The role picker. */
    method ChangeRole(value: string)
      requires Valid()
      modifies this`role
      ensures Valid() && role == value
    {
      role := value;
    }

    /** The phone input re-tests the pattern on every change. */
    method ChangePhone(text: string)
      requires Valid()
      modifies this`phoneNumber, this`isPhoneValid, this`lastTypedPhone, this`phoneIsTyped
      ensures Valid()
      ensures phoneNumber == text && isPhoneValid == IsValidPhone(text)
      ensures PhoneErrorShown() <==> text != "" && !IsValidPhone(text)
    {
      phoneNumber := text;
      if IsValidPhone(text) {
        isPhoneValid := true;
      } else {
        isPhoneValid := false;
      }
      lastTypedPhone, phoneIsTyped := Some(text), true;
    }

    /** The edit and close icons; closing keeps unsaved edits. */
    method SetAllowEdit(on: bool)
      requires Valid()
      modifies this`allowEdit
      ensures Valid() && allowEdit == on
    {
      allowEdit := on;
    }

    /** `handleSaveProfile` with the settled result of the update it issues.
        Only `loading` and `allowEdit` can change: a failed write keeps the
        fields and the edit mode. */
    method HandleSaveProfile(update: Outcome) returns (write: Option<Write>, notice: Notice)
      requires Valid()
      modifies this`loading, this`allowEdit
      ensures Valid()
      ensures write.Some? <==> CheckSave(Form(), isPhoneValid) == Accepted
      ensures write.Some? ==> write.value == Update(userId, Form())
      ensures notice == SaveNotice(CheckSave(Form(), isPhoneValid), update)
      ensures allowEdit == (old(allowEdit) && !(write.Some? && update.Done?))
      ensures loading == (old(loading) && write.None?)
      ensures write.Some? && phoneIsTyped ==> IsValidPhone(write.value.fields.phone)
    {
      if name == "" || age == "" || gender == "" || phoneNumber == "" {
        write := None;
        notice := Toast(ErrorToast, "", FillAllFieldsText);
      } else if !isPhoneValid {
        write := None;
        notice := Toast(ErrorToast, "", InvalidPhoneText);
      } else {
        loading := true;
        write := Some(Update(userId, Profile(name, age, gender, phoneNumber, role)));
        if update.Done? {
          loading := false;
          notice := Toast(SuccessToast, SavedText, "");
          allowEdit := false;
        } else {
          loading := false;
          notice := Toast(ErrorToast, SaveErrorText, "");
        }
      }
    }

    /** `handleDeleteProfile` with the settled results of its two calls. */
    method HandleDeleteProfile(remove: Outcome, deleteAccount: Outcome) returns (fx: DeleteEffects)
      requires Valid()
      modifies this`loading
      ensures Valid() && !loading
      ensures fx == DeleteProfile(userId, remove, deleteAccount)
    {
      loading := true;
      if remove.Rejected? {
        loading := false;
        fx := DeleteEffects(None, false, None, Toast(ErrorToast, DeleteErrorText, ""));
        return;
      }
      if deleteAccount.Rejected? {
        loading := false;
        fx := DeleteEffects(Some(Remove(userId)), false, None, Toast(ErrorToast, DeleteErrorText, ""));
        return;
      }
      loading := false;
      fx := DeleteEffects(Some(Remove(userId)), true, Some(ResetTo(GettingStarted)),
                          Toast(InfoToast, DeletedText, ""));
    }

    /** `handleLogout` with the settled result of `signOut`. */
    method HandleLogout(signOut: Outcome) returns (fx: LogoutEffects)
      requires Valid()
      modifies this`logLoading
      ensures Valid() && !logLoading
      ensures fx == Logout(signOut)
    {
      logLoading := true;
      if signOut.Done? {
        logLoading := false;
        fx := LogoutEffects(Some(ResetTo(GettingStarted)), None);
      } else {
        logLoading := false;
        fx := LogoutEffects(None, Some(Toast(ErrorToast, LogoutErrorText, "")));
      }
    }
  }
}
