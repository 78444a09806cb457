# Artly: screen logic of a React Native and Firebase client

Artly is a mobile app in which artists and visitors keep a profile and an
administrator sees who has signed up. Its logic sits in six components:

- the root component (`App.js`) picks the first screen from the identity
  provider's user and the user's record under `/users/{uid}`;
- Login (`Screens/Login.js`) signs in with email and password, refuses
  unverified addresses, routes by the stored role and maps the provider's
  error codes to messages;
- Signup (`Screens/Signup.js`) validates the email, the password and its
  confirmation as they are typed, gates the submit on those results and
  creates the account;
- Home (`Screens/Home.js`) is the profile form: it loads or seeds the five
  fields, checks the phone pattern as it is typed, saves with a merging
  update, deletes the profile and account, and logs out;
- AdminProfile (`Screens/AdminProfile.js`) subscribes to the whole `/users`
  collection for an administrator and splits it into artists and visitors;
- PhoneView (`Components/PhoneView.js`) requests an SMS code and confirms it.

Each component is a Dafny module (`AppRoot`, `LoginFlow`, `SignupFlow`,
`HomeProfile`, `AdminView`, `PhoneOtp`) over shared types (`Types`).

- Each decision a component makes is a pure function with a contract:
  - which route;
  - which message;
  - whether the guard lets the save or submit through;
  - what a delete or logout does.
- Each component's state hooks are the fields of a class.
- Each handler is a method that changes only the fields it sets.
- Each handler's `ensures` ties the new state and the handler's effects
  (writes, notices, navigation) to those functions.

The settled results of SDK calls are method parameters:
- the auth event;
- a one-shot read (`Read`);
- a call that yields nothing (`Outcome`);
- the creation, sign-in, SMS and code results.

The database is a `map` from uid to `Profile`. `Apply` gives its state after
a write that succeeded. Module `Session` relates the screens to each other:
- the three places that route by role agree;
- a saved profile is what the next start-up and the next load see.

## Model

| member | source | states |
|---|---|---|
| Types.Apply | Screens/Home.js:141-149 | a successful update stores the fields under the uid and a removal leaves no record there; every other uid keeps its record, except that removing with an empty uid removes `/users/` itself and every record with it |
| Types.Logout | Screens/Home.js:75-93 | logout resets to GettingStarted exactly when signOut resolved, and shows an error toast exactly when it was rejected |
| AppRoot.ChooseRoute | App.js:72-98 | signed out gives GettingStarted; a record with role "admin" gives AdminProfile; no record or any other role gives Home; a failed read decides nothing |
| AppRoot.Step | App.js:79-97 | a deciding event overwrites `routeName` with its route; an event whose read failed leaves it as it was |
| AppRoot.Replay | App.js:71-99 | after any series of events `routeName` is the starting route or the decision of one of the events, never a combination |
| AppRoot.SignedOutResetsRoute | App.js:96-97 | a signed-out event sets GettingStarted whatever the route was |
| AppRoot.LastDecidingEventWins | App.js:71-99 | over any series of events the route is the one the last deciding event chose, or the starting route if none decided |
| AppRoot.DecidedSeriesForgetsStart | App.js:79-97 | once some event decided a route, the route before the series no longer matters |
| AppRoot.FailedReadsKeepSpinner | App.js:90-95 | if every read fails, the route stays null from the start |
| AppRoot.App.constructor | App.js:68-71 | the root starts with no route, showing the spinner, and subscribes to auth events |
| AppRoot.App.OnAuthStateChanged | App.js:71-99 | one event overwrites routeName with its decision or leaves it; a failed read only raises the error toast; the spinner goes once an event decides and never comes back |
| AppRoot.App.Unmount | App.js:101 | the cleanup releases the auth listener and keeps the route |
| AppRoot.App.ShowsSpinner | App.js:104-111 | the root renders the spinner instead of the navigator exactly while no route is chosen |
| HomeProfile.IsValidPhone | Screens/Home.js:38 | the phone pattern `^03[0-4][0-9]{8}$`; a number that passes it is eleven digits |
| HomeProfile.BuiltPhoneIsValid | Screens/Home.js:38 | "03", an operator digit 0..4 and eight digits always match the phone pattern |
| HomeProfile.ValidPhoneIsBuilt | Screens/Home.js:38 | every number that matches the pattern is exactly "03", an operator digit 0..4 and eight digits |
| HomeProfile.PhoneExamples | Screens/Home.js:38 | the pattern accepts 03001234567 and rejects a short number, operator digit 5 and a twelve-digit number |
| HomeProfile.SliceLast | Screens/Home.js:62 | `slice(-10)` keeps the last ten characters, or the whole string when it is shorter |
| HomeProfile.SeedPhone | Screens/Home.js:61-64 | a non-empty auth phone is seeded as "0" and its last ten characters; otherwise the field is kept |
| HomeProfile.SeededPakistaniNumber | Screens/Home.js:61-64 | "+92" and ten digits seed the local form "0" and the same digits, which matches the phone pattern exactly when those digits are a mobile number |
| HomeProfile.LoadedForm | Screens/Home.js:53-66 | a stored record replaces all five fields; with no record only the phone may be seeded |
| HomeProfile.CheckSave | Screens/Home.js:129-139 | the save is refused for a missing field first, then for an invalid phone flag, and accepted otherwise |
| HomeProfile.SaveIgnoresRole | Screens/Home.js:129 | the role never changes the guard's verdict |
| HomeProfile.SaveNotice | Screens/Home.js:130-164 | a success toast exactly when the guard accepted and the update resolved; otherwise an error toast: the matching refusal message, or the save-error toast when the update was rejected |
| HomeProfile.DeleteProfile | Screens/Home.js:96-125 | the record is removed first; the account is deleted only after that succeeded; the screen resets to GettingStarted with the deleted info toast only when both succeeded, and every failure shows the delete-error toast |
| HomeProfile.NoAccountWithoutRemoval | Screens/Home.js:101-105 | whenever the account is deleted, the uid has no record left |
| HomeProfile.EarlyDeleteClearsCollection | Screens/Home.js:96-105 | a delete confirmed while the uid is still empty (before the first auth event, Screens/Home.js:29) removes `/users/` itself, so no user keeps a record |
| HomeProfile.HomeScreen.constructor | Screens/Home.js:29-42 | empty fields, not editing, phone flag true, no phone error shown |
| HomeProfile.HomeScreen.OnAuthStateChanged | Screens/Home.js:44-70 | a signed-in event records the uid and loads or seeds the form; no record turns editing on; a failed read leaves the spinner on |
| HomeProfile.HomeScreen.ChangeName | Screens/Home.js:282 | the name field takes the typed text |
| HomeProfile.HomeScreen.ChangeAge | Screens/Home.js:291 | the age field takes the typed text |
| HomeProfile.HomeScreen.ChangeGender | Screens/Home.js:308-335 | the gender field takes the chosen radio value, Male or Female |
| HomeProfile.HomeScreen.ChangeRole | Screens/Home.js:367 | the role field takes the picked value |
| HomeProfile.HomeScreen.ChangePhone | Screens/Home.js:340-347 | the phone flag is the pattern test of the new text, and the error line shows exactly for a non-empty text that fails it (Screens/Home.js:355) |
| HomeProfile.HomeScreen.SetAllowEdit | Screens/Home.js:260-268 | the close and edit icons set the edit mode |
| HomeProfile.HomeScreen.HandleSaveProfile | Screens/Home.js:128-167 | an update of exactly the five fields is issued iff the guard accepts; edit mode ends only on success; the fields never change; a saved typed phone matches the pattern |
| HomeProfile.HomeScreen.HandleDeleteProfile | Screens/Home.js:96-125 | the effects are DeleteProfile's for the screen's uid and the spinner is cleared |
| HomeProfile.HomeScreen.HandleLogout | Screens/Home.js:75-93 | the effects are Logout's and the logout spinner is cleared |
| LoginFlow.SignInErrorText | Screens/Login.js:53-79 | each of the four known codes gets its own message, and exactly the other codes get the generic one |
| LoginFlow.SignInErrorTextsDistinguishCodes | Screens/Login.js:53-79 | two different codes share a message only if both get the generic one |
| LoginFlow.ProfileRoute | Screens/Login.js:98-121 | AdminProfile exactly for an existing record with role "admin", Home otherwise |
| LoginFlow.HandleLoginOutcome | Screens/Login.js:27-88 | sign-in is attempted iff both fields are filled; it navigates iff the user is verified and the read settled, to ProfileRoute, with no notice; a failed sign-in, a rejected verification mail and a rejected sign-out each show SignInErrorText of their code; a failed read shows the read error; an unverified user gets a verification mail, the not-verified toast and a sign-out once the mail is sent |
| LoginFlow.UnverifiedNeverNavigates | Screens/Login.js:35-47 | an unverified user never navigates, gets a verification mail and an error toast |
| LoginFlow.LoginNavigationIsSingleReset | Screens/Login.js:100-120 | every navigation is a reset to the single route Home or AdminProfile |
| LoginFlow.LoginScreen.constructor | Screens/Login.js:23-25 | empty fields and no spinner |
| LoginFlow.LoginScreen.ChangeEmail | Screens/Login.js:176 | the email field takes the typed text |
| LoginFlow.LoginScreen.ChangePassword | Screens/Login.js:186 | the password field takes the typed text |
| LoginFlow.LoginScreen.HandleLogin | Screens/Login.js:27-88 | the effects are HandleLoginOutcome's for the current fields, and every attempted login clears the spinner |
| LoginFlow.LoginScreen.CheckProfile | Screens/Login.js:90-133 | a settled read resets to ProfileRoute; a failed read shows an error and stays; both clear the spinner |
| SignupFlow.Utf16Length | Screens/Signup.js:47 | JavaScript's `length`: at least the number of characters and at most twice it, and equal to it when no character is above U+FFFF |
| SignupFlow.AstralCharactersCountTwice | Screens/Signup.js:47 | three emoji are six code units long and pass the password rules |
| SignupFlow.PasswordError | Screens/Signup.js:46-54 | the length error exactly below six UTF-16 code units, the space error exactly for longer texts with a space, and no error otherwise |
| SignupFlow.ConfirmError | Screens/Signup.js:56-63 | no error exactly when the confirmation equals the password of that moment |
| SignupFlow.IsValidEmail | Screens/Signup.js:37 | the email pattern; an address that passes it is at least six characters long |
| SignupFlow.ComposedEmailIsValid | Screens/Signup.js:37 | every address of the form local "@" label "." ... tld, with the pattern's character classes and a 2-4 character tld, passes the email check |
| SignupFlow.ValidEmailDecomposes | Screens/Signup.js:37 | every address that passes the email check is of that form |
| SignupFlow.CheckSubmit | Screens/Signup.js:67-78 | recorded errors or an invalid email are reported first, then any empty field; the account is created otherwise |
| SignupFlow.AcceptedSubmitKeepsRules | Screens/Signup.js:65-78 | an account is only created for a valid email and a password that keeps both rules, with a confirmation equal to the password at confirm time |
| SignupFlow.FillFieldsMeansUntouchedField | Screens/Signup.js:72-76 | "fill all the fields" appears only for an untouched password or an empty confirmation, never for an empty email |
| SignupFlow.StaleConfirmationPasses | Screens/Signup.js:56-63 | a confirmation made before the password was changed is not re-checked: "secret1" confirmed, then "secret12" typed, passes the gate |
| SignupFlow.CreateErrorNotice | Screens/Signup.js:93-105 | "email already in use" exactly for that code, the generic message for every other |
| SignupFlow.SubmitOutcome | Screens/Signup.js:65-133 | a refused submit shows "fill the fields correctly" or "fill all the fields" by the gate's verdict; once creation is attempted the verify-email alert is always the last notice and its button resets to Login, preceded by CreateErrorNotice of a failed creation or a rejected verification mail, or the no-user error; the mail is requested only for a created user |
| SignupFlow.SignupScreen.constructor | Screens/Signup.js:31-38 | empty fields and errors, email invalid, no spinner |
| SignupFlow.SignupScreen.ChangeEmail | Screens/Signup.js:182-189 | the email flag is the pattern test of the new text |
| SignupFlow.SignupScreen.HandlePasswordChange | Screens/Signup.js:40-43 | the password error is the validator's result for the new text; the confirmation error is kept |
| SignupFlow.SignupScreen.HandleConfirmPass | Screens/Signup.js:56-63 | the confirmation error is empty iff the text equals the current password |
| SignupFlow.SignupScreen.HandleEmailSignup | Screens/Signup.js:65-133 | the effects are SubmitOutcome's for the gate on the recorded state, and the spinner is cleared |
| AdminView.WithRole | Screens/AdminProfile.js:42-47 | the filter keeps exactly the records with the role and nothing longer than the collection |
| AdminView.WithRoleKeepsOrder | Screens/AdminProfile.js:42-47 | filtering a concatenation concatenates the filtered parts, so collection order is kept |
| AdminView.PartitionIsDisjoint | Screens/AdminProfile.js:42-47 | no record is both an artist and a visitor, and a record with another role is in neither list |
| AdminView.PartitionCount | Screens/AdminProfile.js:41-47 | the two lists together are no longer than the collection, and exactly as long iff every record is an artist or a visitor |
| AdminView.PartitionExample | Screens/AdminProfile.js:41-47 | an artist, a visitor and an artist split into the first and third, and the second |
| AdminView.AdminProfileScreen.constructor | Screens/AdminProfile.js:23-29 | empty lists, no spinner, only the auth listener |
| AdminView.AdminProfileScreen.OnAuthStateChanged | Screens/AdminProfile.js:29-38 | the collection is subscribed exactly when the viewer's record exists with role "admin" |
| AdminView.AdminProfileScreen.OnUsersValue | Screens/AdminProfile.js:38-51 | each collection value replaces both lists with its artists and visitors; a null value keeps them; the spinner stops either way |
| AdminView.AdminProfileScreen.HandleLogout | Screens/AdminProfile.js:65-84 | the effects are Logout's and the spinner is cleared |
| AdminView.AdminProfileScreen.Unmount | Screens/AdminProfile.js:58-62 | the cleanup releases both the auth and the collection listener |
| PhoneOtp.SmsErrorNotice | Components/PhoneView.js:55-66 | the invalid-number alert exactly for that code, the generic toast for every other |
| PhoneOtp.CodeErrorNotice | Components/PhoneView.js:90-100 | "Invalid Code!" exactly for the invalid-code error, the generic toast for every other |
| PhoneOtp.PhoneViewScreen.constructor | Components/PhoneView.js:21-30 | empty number, no confirmation, phone form shown, Verify disabled |
| PhoneOtp.PhoneViewScreen.ChangePhone | Components/PhoneView.js:121 | the number takes the formatted text |
| PhoneOtp.PhoneViewScreen.HandlePhoneSignup | Components/PhoneView.js:32-68 | an empty number only shows a toast; otherwise a returned confirmation is kept and the code input shown, an error gets SmsErrorNotice, and the spinner is cleared |
| PhoneOtp.PhoneViewScreen.ChangeOtp | Components/PhoneView.js:171 | the code takes the typed text |
| PhoneOtp.PhoneViewScreen.OtpFilled | Components/PhoneView.js:172-174 | filling the code is the one step that enables Verify |
| PhoneOtp.PhoneViewScreen.OtpVerify | Components/PhoneView.js:70-102 | it navigates to Home with a success toast iff the code is confirmed with a credential; a rejected code gets CodeErrorNotice and leaves the spinner on |
| Session.RoutingAgrees | Screens/Login.js:98-121 | for a settled read, start-up routing, routing after a login and the admin subscription gate agree |
| Session.SavedRoleRoutesNextStart | App.js:79-85 | after a save, the next start-up opens AdminProfile exactly when the saved role is "admin", and Home otherwise |
| Session.SaveThenLoad | Screens/Home.js:51-58 | loading after a save gives back exactly the saved fields |
| Session.DeleteThenLoad | Screens/Home.js:60-66 | once the removal succeeded, whatever became of the account deletion, the uid routes to Home and loads a form with only the phone seeded |

## Left out

- Screens/GettingStarted.js: it only navigates to Signup or Login and has no logic.
- Google sign-in on the Login and Signup screens: it is a foreign SDK flow, and its only logic is a reset to Home.
- Rendering, styles, the toast configuration, the alert dialogs' open and close, and the loading spinners' appearance. What is modelled is the state the spinners and buttons are drawn from.
- Async timing. Each handler is one atomic step on the settled results of its SDK calls, so interleaving handlers, late callbacks after unmount and listeners firing during a handler are not modelled.
- Failed reads in the Home and AdminProfile loads, which have no `catch`: the model keeps the spinner on for them.
- PhoneOtp.PhoneViewScreen.OtpVerify requires a confirmation handle: the Verify button is only rendered once one was kept.
- Several `on('value')` registrations: each AdminProfile auth event may add one collection listener; the model keeps a single flag.
- Types.Apply: a successful update stores the five fields as the record, whereas the database merges them into a record that could hold other keys; records in the model have exactly the five fields. An update with an empty uid (a save before the first auth event) writes the five fields as leaves directly under `/users/`; the model stores them as a record under the empty key instead.
- HomeProfile.SliceLast: counts characters, not UTF-16 code units; the identity provider's phone numbers are ASCII, where the two agree.
- AdminView.OnUsersValue: the collection's `Object.values` order is an input sequence; the database's key order is not modelled.
- General regular-expression semantics: only the two patterns used (phone and email) are encoded, as predicates over characters (`\w` as ASCII letters, digits and underscore).
- Console logging.
- The model follows the code as written:
  - Home's delete navigates only when both the removal and the account deletion succeed.
  - Logout on AdminProfile waits for `signOut` before navigating.
  - The root leaves the route unchanged on a failed read, so a first failure keeps the spinner.
  - The save guard does not check the role.
