/** Values shared by every screen: routes, navigation actions, notices,
    the profile record, the signed-in user and the outcomes of the
    identity-provider and database calls, which the model takes as inputs. */
module Types {

  datatype Option<T> = None | Some(value: T)

  /** The screens registered with the stack navigator, by their route names:
      a route is one of these six by construction. */
  datatype Route = GettingStarted | Signup | PhoneView | Login | Home | AdminProfile

  /** `CommonActions.reset({index, routes})`: the navigation stack is replaced. */
  datatype Nav = Reset(index: nat, routes: seq<Route>)

  /** The only navigation the screens dispatch: a stack holding `r` alone. */
  function ResetTo(r: Route): Nav
  {
    Reset(0, [r])
  }

  predicate IsSingleReset(n: Nav)
  {
    n.index == 0 && |n.routes| == 1
  }

  datatype ToastKind = SuccessToast | ErrorToast | InfoToast

  /** What the user is told: a toast with its two lines, or a native alert. */
  datatype Notice =
    | Toast(kind: ToastKind, text1: string, text2: string)
    | Alert(title: string, message: string)

  /** The record stored at `/users/{uid}`. Records here always carry all five
      fields, as the app's own writes do; a record written elsewhere without
      some of them is not modelled. */
  datatype Profile = Profile(name: string, age: string, gender: string, phone: string, role: string)

  /** The user passed to an `onAuthStateChanged` listener or returned by a sign-in. */
  datatype AuthUser = AuthUser(uid: string, phoneNumber: Option<string>, emailVerified: bool)

  /** The settled result of a one-shot read: rejected, or a snapshot value. */
  datatype Read<T> = ReadFailed | ReadOk(value: T)

  /** The settled result of an SDK call that yields no value. */
  datatype Outcome = Done | Rejected(code: string)

  /** The realtime database's `/users` subtree, keyed by uid. */
  type Db = map<string, Profile>

  function Lookup(db: Db, uid: string): Option<Profile>
  {
    if uid in db then Some(db[uid]) else None
  }

  /** A write the screens issue against `/users/{uid}`. */
  datatype Write = Update(uid: string, fields: Profile) | Remove(uid: string)

  /** With an empty uid, `/users/{uid}` is `/users/`: the collection itself. */
  const CollectionRoot := ""

  /** The database after a write that succeeded: only the written path
      changes, and removing the collection itself removes every record. */
  function Apply(db: Db, w: Write): (r: Db)
    ensures Lookup(r, w.uid) == (if w.Update? then Some(w.fields) else None)
    ensures w.Remove? && w.uid == CollectionRoot ==> forall u :: Lookup(r, u) == None
    ensures !(w.Remove? && w.uid == CollectionRoot) ==>
      forall u :: u != w.uid ==> Lookup(r, u) == Lookup(db, u)
  {
    match w
    case Update(uid, fields) => db[uid := fields]
    case Remove(uid) => if uid == CollectionRoot then map[] else db - {uid}
  }

  const LogoutErrorText := "Error logging out!"

  /** What a logout handler shows and where it goes. */
  datatype LogoutEffects = LogoutEffects(nav: Option<Nav>, notice: Option<Notice>)

  /** The logout handler shared by the profile and admin screens: it leaves
      for GettingStarted only once `signOut` has resolved. */
  function Logout(signOut: Outcome): (fx: LogoutEffects)
    ensures fx.nav.Some? <==> signOut.Done?
    ensures fx.nav.Some? ==> fx.nav.value == ResetTo(GettingStarted)
    ensures fx.notice.Some? <==> signOut.Rejected?
    ensures fx.notice.Some? ==> fx.notice.value.Toast? && fx.notice.value.kind == ErrorToast
  {
    if signOut.Done? then LogoutEffects(Some(ResetTo(GettingStarted)), None)
    else LogoutEffects(None, Some(Toast(ErrorToast, LogoutErrorText, "")))
  }
}
