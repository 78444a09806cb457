/** The admin dashboard: once the viewer's own record says "admin", it
    subscribes to the whole `/users` collection and shows its artists and
    its visitors as two lists. */
module AdminView {
  import opened Types

  /** `users.filter(user => user.role === role)`. */
  function WithRole(users: seq<Profile>, role: string): (r: seq<Profile>)
    ensures |r| <= |users|
    ensures forall i :: 0 <= i < |r| ==> r[i].role == role
    ensures forall p :: p in r <==> p in users && p.role == role
  {
    if users == [] then []
    else (if users[0].role == role then [users[0]] else []) + WithRole(users[1..], role)
  }

  function Artists(users: seq<Profile>): seq<Profile>
  {
    WithRole(users, "artist")
  }

  function Visitors(users: seq<Profile>): seq<Profile>
  {
    WithRole(users, "visitor")
  }

  /** The filter keeps collection order: filtering a concatenation is
      concatenating the filtered parts. */
  lemma {:induction false} WithRoleKeepsOrder(a: seq<Profile>, b: seq<Profile>, role: string)
    ensures WithRole(a + b, role) == WithRole(a, role) + WithRole(b, role)
  {
    if a == [] {
      assert a + b == b;
    } else {
      assert (a + b)[0] == a[0];
      assert (a + b)[1..] == a[1..] + b;
      WithRoleKeepsOrder(a[1..], b, role);
    }
  }

  /** No record is in both lists, and a record whose role is neither
      "artist" nor "visitor" (an admin, or no role yet) is in neither. */
  lemma PartitionIsDisjoint(users: seq<Profile>, p: Profile)
    ensures !(p in Artists(users) && p in Visitors(users))
    ensures p.role != "artist" && p.role != "visitor" ==> p !in Artists(users) && p !in Visitors(users)
  {
  }

  /** The two lists hold at most the whole collection, and exactly the whole
      collection when every record is an artist or a visitor. */
  lemma {:induction false} PartitionCount(users: seq<Profile>)
    ensures |Artists(users)| + |Visitors(users)| <= |users|
    ensures |Artists(users)| + |Visitors(users)| == |users| <==>
      forall i :: 0 <= i < |users| ==> users[i].role == "artist" || users[i].role == "visitor"
  {
    if users != [] {
      PartitionCount(users[1..]);
      assert forall i :: 1 <= i < |users| ==> users[i] == users[1..][i - 1];
      if |Artists(users)| + |Visitors(users)| == |users| {
        forall i | 0 <= i < |users| ensures users[i].role == "artist" || users[i].role == "visitor" {
          if i > 0 {
            assert users[i] == users[1..][i - 1];
          }
        }
      }
    }
  }

  lemma PartitionExample(u1: Profile, u2: Profile, u3: Profile)
    requires u1.role == "artist" && u2.role == "visitor" && u3.role == "artist"
    ensures Artists([u1, u2, u3]) == [u1, u3]
    ensures Visitors([u1, u2, u3]) == [u2]
    ensures Artists([]) == [] && Visitors([]) == []
  {
    var users := [u1, u2, u3];
    assert users[1..] == [u2, u3];
    assert [u2, u3][1..] == [u3];
    assert [u3][1..] == [];
    assert WithRole([u3], "artist") == [u3];
    assert WithRole([u2, u3], "artist") == [u3];
    assert WithRole([u3], "visitor") == [];
    assert WithRole([u2, u3], "visitor") == [u2];
  }

  /** The viewer's own record opens the subscription only when it exists
      and has the role "admin". */
  predicate IsAdminRecord(record: Read<Option<Profile>>)
  {
    record.ReadOk? && record.value.Some? && record.value.value.role == "admin"
  }

  /** The AdminProfile screen's state, with its two subscriptions. */
  class AdminProfileScreen {
    var artists: seq<Profile>
    var visitors: seq<Profile>
    var loading: bool
    var authListening: bool
    var usersListening: bool

    /** Mounting subscribes to auth-state changes only. */
    constructor ()
      ensures artists == [] && visitors == [] && !loading
      ensures authListening && !usersListening
    {
      artists, visitors, loading := [], [], false;
      authListening, usersListening := true, false;
    }

    /** The auth listener with the settled result of the viewer's own read.
        A failed read is not caught, and a viewer who is not an admin is
        never subscribed: in both cases the spinner stays. */
    method OnAuthStateChanged(user: Option<AuthUser>, own: Read<Option<Profile>>)
      requires authListening
      modifies this`loading, this`usersListening
      ensures authListening
      ensures usersListening == (old(usersListening) || (user.Some? && IsAdminRecord(own)))
      ensures loading == (old(loading) || user.Some?)
    {
      if user.Some? {
        loading := true;
        if own.ReadOk? {
          var userData := own.value;
          if userData.Some? && userData.value.role == "admin" {
            usersListening := true;
          }
        }
      }
    }

    /** The `/users` value listener. Each event replaces both lists; a null
        collection leaves them as they were. Either way the spinner stops. */
    method OnUsersValue(snapshot: Option<seq<Profile>>)
      requires usersListening
      modifies this`artists, this`visitors, this`loading
      ensures artists == (if snapshot.Some? then Artists(snapshot.value) else old(artists))
      ensures visitors == (if snapshot.Some? then Visitors(snapshot.value) else old(visitors))
      ensures !loading
    {
      if snapshot.Some? {
        var usersList := snapshot.value;
        var artistsList := WithRole(usersList, "artist");
        var visitorsList := WithRole(usersList, "visitor");
        artists := artistsList;
        visitors := visitorsList;
      }
      loading := false;
    }

    /** `handleLogout` with the settled result of `signOut`. */
    method HandleLogout(signOut: Outcome) returns (fx: LogoutEffects)
      modifies this`loading
      ensures !loading
      ensures fx == Logout(signOut)
    {
      loading := true;
      if signOut.Done? {
        loading := false;
        fx := LogoutEffects(Some(ResetTo(GettingStarted)), None);
      } else {
        loading := false;
        fx := LogoutEffects(None, Some(Toast(ErrorToast, LogoutErrorText, "")));
      }
    }

    /** The effect's cleanup releases both listeners. */
    method Unmount()
      modifies this`authListening, this`usersListening
      ensures !authListening && !usersListening
    {
      authListening := false;
      usersListening := false;
    }
  }
}
