/** Facts that span screens: the three places that read a user's record to
    pick a destination agree with each other, and a profile saved from the
    Home screen is what the next start-up and the next load see. */
module Session {
  import opened Types
  import AppRoot
  import HomeProfile
  import LoginFlow
  import AdminView

  /** For a settled read, start-up routing, `checkProfile` after a login and
      the admin screen's subscription gate all draw the same line. */
  lemma RoutingAgrees(user: AuthUser, record: Option<Profile>)
    ensures AppRoot.ChooseRoute(AppRoot.SignedIn(user, ReadOk(record))) == Some(LoginFlow.ProfileRoute(record))
    ensures AdminView.IsAdminRecord(ReadOk(record)) <==> LoginFlow.ProfileRoute(record) == AdminProfile
  {
  }

  /** After a successful save, the next start-up sends the user to the
      screen their saved role selects. */
  lemma SavedRoleRoutesNextStart(db: Db, user: AuthUser, form: Profile)
    ensures var saved := Apply(db, Update(user.uid, form));
      AppRoot.ChooseRoute(AppRoot.SignedIn(user, ReadOk(Lookup(saved, user.uid))))
        == Some(if form.role == "admin" then AdminProfile else Home)
  {
  }

  /** Saving and loading again gives back the saved fields, whatever the
      form held before the load. */
  lemma SaveThenLoad(db: Db, user: AuthUser, form: Profile, before: Profile)
    ensures var saved := Apply(db, Update(user.uid, form));
      HomeProfile.LoadedForm(before, user, Lookup(saved, user.uid)) == form
  {
  }

  /** A removal that succeeded leaves no record under the uid, whether or
      not the account deletion after it succeeded: the account left behind
      when it failed signs in to Home and loads a form with only the phone
      seeded. */
  lemma DeleteThenLoad(db: Db, user: AuthUser, before: Profile, deleteAccount: Outcome)
    ensures var fx := HomeProfile.DeleteProfile(user.uid, Done, deleteAccount);
      var after := Apply(db, fx.committed.value);
      && AppRoot.ChooseRoute(AppRoot.SignedIn(user, ReadOk(Lookup(after, user.uid)))) == Some(Home)
      && HomeProfile.LoadedForm(before, user, Lookup(after, user.uid))
           == before.(phone := HomeProfile.SeedPhone(user.phoneNumber, before.phone))
  {
  }
}
