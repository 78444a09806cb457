/** Start-up route resolution: the root component listens to the identity
    provider and, on each event, reads the user's profile record to choose
    the first screen of the navigator. */
module AppRoot {
  import opened Types

  const ReadErrorText := "An unexpected error occurred!"

  /** One auth-state event, together with the settled result of the
      profile read it triggers (only a signed-in user triggers a read). */
  datatype AuthEvent = SignedOut | SignedIn(user: AuthUser, record: Read<Option<Profile>>)

  /** The route an event decides, or None when the profile read failed and
      the event leaves the route as it was. */
  function ChooseRoute(e: AuthEvent): (r: Option<Route>)
    ensures r == Some(GettingStarted) <==> e.SignedOut?
    ensures r == Some(AdminProfile) <==>
      e.SignedIn? && e.record.ReadOk? && e.record.value.Some? && e.record.value.value.role == "admin"
    ensures r == Some(Home) <==>
      e.SignedIn? && e.record.ReadOk? && (e.record.value.None? || e.record.value.value.role != "admin")
    ensures r == None <==> e.SignedIn? && e.record.ReadFailed?
  {
    match e
    case SignedOut => Some(GettingStarted)
    case SignedIn(_, ReadFailed) => None
    case SignedIn(_, ReadOk(data)) =>
      if data.Some? && data.value.role == "admin" then Some(AdminProfile) else Some(Home)
  }

  /** `routeName` after one event, given `routeName` before it. */
  function Step(routeName: Option<Route>, e: AuthEvent): (r: Option<Route>)
    ensures ChooseRoute(e).Some? ==> r == ChooseRoute(e)
    ensures ChooseRoute(e).None? ==> r == routeName
  {
    if ChooseRoute(e).Some? then ChooseRoute(e) else routeName
  }

  /** `routeName` after a series of events, oldest first: the starting
      route or the decision of one of the events, nothing combined. */
  function Replay(routeName: Option<Route>, es: seq<AuthEvent>): (r: Option<Route>)
    ensures r == routeName || exists i :: 0 <= i < |es| && r == ChooseRoute(es[i])
  {
    if es == [] then routeName
    else
      var before := Replay(routeName, es[..|es| - 1]);
      assert forall i :: 0 <= i < |es| - 1 ==> es[..|es| - 1][i] == es[i];
      Step(before, es[|es| - 1])
  }

  /** The route decided by the most recent event whose read settled, if any. */
  function LastDecision(es: seq<AuthEvent>): Option<Route>
  {
    if es == [] then None
    else if ChooseRoute(es[|es| - 1]).Some? then ChooseRoute(es[|es| - 1])
    else LastDecision(es[..|es| - 1])
  }

  /** A signed-out event routes to GettingStarted whatever the route was. */
  lemma SignedOutResetsRoute(routeName: Option<Route>)
    ensures Step(routeName, SignedOut) == Some(GettingStarted)
  {
  }

  /** Nothing accumulates: the last event that decided a route wins, and
      the route before the series survives only if no event decided one. */
  lemma {:induction false} LastDecidingEventWins(routeName: Option<Route>, es: seq<AuthEvent>)
    ensures Replay(routeName, es) == (if LastDecision(es).Some? then LastDecision(es) else routeName)
  {
    if es != [] {
      LastDecidingEventWins(routeName, es[..|es| - 1]);
    }
  }

  /** The route after a series does not depend on the route before it
      once some event of the series has decided one. */
  lemma {:induction false} DecidedSeriesForgetsStart(r1: Option<Route>, r2: Option<Route>, es: seq<AuthEvent>)
    requires exists i :: 0 <= i < |es| && ChooseRoute(es[i]).Some?
    ensures Replay(r1, es) == Replay(r2, es)
  {
    var i :| 0 <= i < |es| && ChooseRoute(es[i]).Some?;
    DecidedHasLastDecision(es, i);
    LastDecidingEventWins(r1, es);
    LastDecidingEventWins(r2, es);
  }

  lemma {:induction false} DecidedHasLastDecision(es: seq<AuthEvent>, i: nat)
    requires i < |es| && ChooseRoute(es[i]).Some?
    ensures LastDecision(es).Some?
  {
    if i < |es| - 1 && ChooseRoute(es[|es| - 1]).None? {
      DecidedHasLastDecision(es[..|es| - 1], i);
    }
  }

  /** If every read fails, starting from null, the route stays null and the
      root keeps showing its spinner. */
  lemma {:induction false} FailedReadsKeepSpinner(es: seq<AuthEvent>)
    requires forall i :: 0 <= i < |es| ==> es[i].SignedIn? && es[i].record.ReadFailed?
    ensures Replay(None, es) == None
  {
    if es != [] {
      FailedReadsKeepSpinner(es[..|es| - 1]);
    }
  }

  /** The root component: its one state field is `routeName`. */
  class App {
    var routeName: Option<Route>
    var listening: bool

    /** Mounting subscribes to auth-state changes; no route is chosen yet. */
    constructor ()
      ensures routeName == None && listening && ShowsSpinner()
    {
      routeName := None;
      listening := true;
    }

    /** The `onAuthStateChanged` callback. A failed read only raises a toast. */
    method OnAuthStateChanged(e: AuthEvent) returns (toast: Option<Notice>)
      requires listening
      modifies this
      ensures listening
      ensures routeName == Step(old(routeName), e)
      ensures ShowsSpinner() <==> old(ShowsSpinner()) && ChooseRoute(e).None?
      ensures toast == (if ChooseRoute(e).None? then Some(Toast(ErrorToast, ReadErrorText, "")) else None)
    {
      toast := None;
      match e {
        case SignedIn(user, record) =>
          match record {
            case ReadOk(userData) =>
              if userData.Some? {
                if userData.value.role == "admin" {
                  routeName := Some(AdminProfile);
                } else {
                  routeName := Some(Home);
                }
              } else {
                routeName := Some(Home);
              }
            case ReadFailed =>
              toast := Some(Toast(ErrorToast, ReadErrorText, ""));
          }
        case SignedOut =>
          routeName := Some(GettingStarted);
      }
    }

    /** The effect's cleanup releases the auth listener. */
    method Unmount()
      modifies this
      ensures !listening && routeName == old(routeName)
    {
      listening := false;
    }

    /** While `routeName` is null the root renders a spinner, not the navigator. */
    predicate ShowsSpinner()
      reads this
    {
      routeName == None
    }
  }
}
