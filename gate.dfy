/**
 * The session gate: login, logout, the sign-in page, the home page and
 * signup's effect on who can log in.
 *
 * A session carries an optional name marker and an optional user id. Login
 * binds both, once per session; logout clears both; the home page lists the
 * reports owned by the bound id.
 */
module Gate {
  import opened Entities

  /** The marker login writes into a fresh session. */
  const SessionName := "damageTrack-session"

  datatype SessionState = SessionState(name: Option<string>, userId: Option<Id>)

  const Anonymous := SessionState(None, None)

  /** A session is named exactly when it carries a user id. */
  predicate Valid(s: SessionState)
  {
    s.name.None? <==> s.userId.None?
  }

  /** Plain equality of both stored credentials. */
  predicate HasCredentials(u: User, email: string, password: string)
  {
    u.email == email && u.password == password
  }

  /** `User.find({email, password}).limit(1)`: the first user, in store order,
      with these credentials. */
  function FindUser(users: seq<User>, email: string, password: string): Option<Id>
  {
    FindFirst(users, (u: User) => HasCredentials(u, email, password))
  }

  /** The login handler: the session afterwards and the redirect. */
  function Login(s: SessionState, users: seq<User>, email: string, password: string): (r: (SessionState, Outcome))
    ensures FindUser(users, email, password).None? ==> r == (s, Redirect("/sign"))
    ensures FindUser(users, email, password).Some? ==> r.1 == Redirect("/")
    ensures s.name.Some? ==> r.0 == s
    ensures s.name.None? && FindUser(users, email, password).Some? ==>
              && r.0.name == Some(SessionName)
              && r.0.userId == FindUser(users, email, password)
              && r.0.userId.value < |users|
              && HasCredentials(users[r.0.userId.value], email, password)
              && forall j :: 0 <= j < r.0.userId.value ==> !HasCredentials(users[j], email, password)
  {
    match FindUser(users, email, password)
    case None => (s, Redirect("/sign"))
    case Some(id) =>
      if s.name.None? then (SessionState(Some(SessionName), Some(id)), Redirect("/"))
      else (s, Redirect("/"))
  }

  /** The logout handler. */
  function Logout(s: SessionState): (r: (SessionState, Outcome))
    ensures r.1 == Redirect("/")
    ensures s.name.None? ==> r.0 == s
    ensures s.name.Some? ==> r.0 == Anonymous
  {
    if s.name.None? then (s, Redirect("/")) else (Anonymous, Redirect("/"))
  }

  /** The sign-in page is shown only to a session without a name. */
  function SignPageFor(s: SessionState): (r: Outcome)
    ensures r == SignPage <==> s.name.None?
    ensures r != SignPage ==> r == Redirect("/")
  {
    if s.name.None? then SignPage else Redirect("/")
  }

  /** `Report.find({user: id})`, in store order. An unbound id selects the
      reports filed without a user. */
  function Owned(reports: seq<Report>, userId: Option<Id>): seq<Report>
  {
    Where(reports, (r: Report) => r.user == userId)
  }

  /** The home page handler. */
  function Home(s: SessionState, reports: seq<Report>, locations: seq<Location>,
                categories: seq<Category>): (r: Outcome)
    ensures r.HomePage? && r.sessionName == s.name
    ensures forall i :: 0 <= i < |r.reports| ==> r.reports[i].report in reports && r.reports[i].report.user == s.userId
    ensures forall x :: x in reports && x.user == s.userId ==>
              exists i :: 0 <= i < |r.reports| && r.reports[i].report == x
    // each owned report once, in store order, with its references expanded
    ensures |r.reports| == |Owned(reports, s.userId)|
    ensures forall i :: 0 <= i < |r.reports| ==>
              && r.reports[i].report == Owned(reports, s.userId)[i]
              && r.reports[i].location == Lookup(locations, r.reports[i].report.location)
              && r.reports[i].category == Lookup(categories, r.reports[i].report.category)
  {
    var mine := Owned(reports, s.userId);
    var views := Populate(mine, locations, categories);
    assert forall x :: x in mine ==> exists i :: 0 <= i < |views| && views[i].report == x by {
      forall x | x in mine ensures exists i :: 0 <= i < |views| && views[i].report == x {
        var i :| 0 <= i < |mine| && mine[i] == x;
        assert views[i].report == x;
      }
    }
    assert forall i :: 0 <= i < |views| ==> views[i].report == mine[i] && mine[i] in mine;
    HomePage(s.name, views)
  }

  /** Login and logout keep a session's name and id together. */
  lemma GateKeepsValid(s: SessionState, users: seq<User>, email: string, password: string)
    requires Valid(s)
    ensures Valid(Login(s, users, email, password).0)
    ensures Valid(Logout(s).0)
  {
  }

  /** An identity is bound once per session: a second login, even with other
      valid credentials, leaves the first binding in place. */
  lemma SecondLoginKeepsFirstBinding(s: SessionState, users: seq<User>,
                                     email1: string, password1: string,
                                     email2: string, password2: string)
    requires FindUser(users, email1, password1).Some?
    ensures var s1 := Login(s, users, email1, password1).0;
            Login(s1, users, email2, password2).0 == s1
  {
  }

  /** Logging in on a fresh session and logging out returns to an anonymous
      session; logging out twice is logging out once. */
  lemma LoginLogoutRoundTrip(users: seq<User>, email: string, password: string)
    ensures Logout(Login(Anonymous, users, email, password).0).0 == Anonymous
    ensures Logout(Logout(Login(Anonymous, users, email, password).0).0) ==
            Logout(Login(Anonymous, users, email, password).0)
  {
  }

  /** Signup has no duplicate check, and login takes the first match: a user
      who signs up with credentials already on record can never be the one a
      login binds, while fresh credentials log the new user in. */
  lemma {:induction false} SignupThenLogin(users: seq<User>, u: User)
    ensures var s := Login(Anonymous, users + [u], u.email, u.password).0;
            s.userId == if FindUser(users, u.email, u.password).Some?
                        then FindUser(users, u.email, u.password) else Some(|users|)
    ensures FindUser(users + [u], u.email, u.password).Some?
    ensures FindUser(users, u.email, u.password).Some? ==>
              FindUser(users + [u], u.email, u.password) == FindUser(users, u.email, u.password)
    ensures FindUser(users, u.email, u.password).None? ==>
              FindUser(users + [u], u.email, u.password) == Some(|users|)
  {
    var p := (x: User) => HasCredentials(x, u.email, u.password);
    assert FindFirst([u], p) == Some(0);
    FindFirstAppend(users, [u], p);
  }
}
