/** The demo provider (frontend/src/services/demoData.ts): fixed users, feedback and
    precomputed dashboards, and a login that checks credentials against the fixture and
    writes the same session keys as the live client. Fixture dates are seconds since the
    Unix epoch: 1704067200 is 2024-01-01T00:00:00Z, 1705312800 is 2024-01-15T10:00:00Z and
    1704897000 is 2024-01-10T14:30:00Z. */
module DemoData {
  import opened Domain
  import opened Decimal
  import opened Crud
  import opened Recency
  import opened Api

  const DemoManager := User(1, "manager@example.com", "Demo Manager", Manager, None, 1704067200)
  const DemoEmployee := User(2, "employee@example.com", "Demo Employee", Employee, Some(1), 1704067200)

  const DemoUsers: seq<User> := [DemoManager, DemoEmployee]

  const DemoFeedback: seq<Feedback> := [
    Feedback(1, 1, 2,
      "Great communication skills and always meets deadlines. Shows initiative in problem-solving.",
      "Could benefit from taking on more leadership opportunities and sharing knowledge with team members.",
      Positive, 1705312800, 1705312800, false, None),
    Feedback(2, 1, 2,
      "Excellent technical skills and attention to detail.",
      "Time management during busy periods.",
      Positive, 1704897000, 1704897000, true, None)
  ]

  const DemoDashboard := ManagerDashboard(1, 2, DemoFeedback, SentimentSummary(2, 0, 0))

  const DemoEmployeeDashboard := EmployeeDashboard(2, 1, DemoFeedback, SentimentSummary(2, 0, 0))

  /** The one password every demo account accepts. */
  const DemoPassword := "password123"

  /** The credential check of `demoAuth.login`: the first fixture user with that email,
      provided the password is the demo password. */
  function DemoAuthenticate(email: string, password: string): (r: Option<User>)
    ensures r.Some? <==> (exists u :: u in DemoUsers && u.email == email) && password == DemoPassword
    ensures r.Some? ==> r.value in DemoUsers && r.value.email == email
  {
    var user := FindUserByEmail(DemoUsers, email);
    if user.None? || password != DemoPassword then None else user
  }

  /** The demo token text: `'demo-token-' + role + '-' + Date.now()`. */
  function DemoToken(role: Role, now: nat): (t: string)
    ensures |t| > |"demo-token-" + RoleName(role) + "-"|
    ensures t[..|"demo-token-" + RoleName(role) + "-"|] == "demo-token-" + RoleName(role) + "-"
  {
    "demo-token-" + RoleName(role) + "-" + DecimalString(now)
  }

  /** How a demo call settles: with a value, or by throwing an Error with a message. */
  datatype Outcome<T> = Resolved(value: T) | Thrown(message: string)

  /** `demoAuth.login`: on good credentials, store the token and the user and return them;
      on bad ones, throw before anything is stored. `now` is the `Date.now()` reading. */
  method DemoLogin(browser: Browser, email: string, password: string, now: nat) returns (r: Outcome<LoginResult>)
    requires browser.Valid()
    modifies browser
    ensures browser.Valid()
    ensures r.Thrown? <==> DemoAuthenticate(email, password).None?
    ensures r.Thrown? ==> r.message == "Invalid credentials" && unchanged(browser)
    ensures r.Resolved? ==>
      var user := DemoAuthenticate(email, password).value;
      && r.value == LoginResult(Token(DemoToken(user.role, now), BearerType), user)
      && browser.storage == old(browser.storage)[TokenKey := Text(DemoToken(user.role, now))][UserKey := UserJson(user)]
      && browser.location == old(browser.location)
  {
    var found := FindUserByEmail(DemoUsers, email);
    if found.None? || password != DemoPassword {
      return Thrown("Invalid credentials");
    }
    var user := found.value;
    var token := Token(DemoToken(user.role, now), BearerType);
    browser.SetItem(TokenKey, Text(token.accessToken));
    browser.SetItem(UserKey, UserJson(user));
    r := Resolved(LoginResult(token, user));
  }

  /** `demoAuth.logout`: the same two removals as the live logout. */
  method DemoLogout(browser: Browser)
    requires browser.Valid()
    modifies browser
    ensures browser.Valid()
    ensures browser.storage == Cleared(old(browser.storage)) && browser.location == old(browser.location)
  {
    browser.Logout();
  }

  /** The demo manager signs in with the demo password and gets a manager token. */
  lemma DemoManagerLogin(now: nat)
    ensures DemoAuthenticate("manager@example.com", DemoPassword) == Some(DemoManager)
    ensures DemoAuthenticate("manager@example.com", "password") == None
    ensures DemoToken(DemoManager.role, now)[..|"demo-token-manager-"|] == "demo-token-manager-"
  {
    assert FindUserByEmail(DemoUsers, "manager@example.com") == Some(DemoManager) by {
      assert DemoUsers[0] == DemoManager;
    }
  }

  /** An email that no fixture user has never signs in, whatever the password. */
  lemma UnknownEmailRejected(email: string, password: string)
    requires email != DemoManager.email && email != DemoEmployee.email
    ensures DemoAuthenticate(email, password) == None
  {
  }

  /** The fixture list is already newest first. */
  lemma DemoFeedbackNewestFirst()
    ensures NewestFirst(DemoFeedback)
  {
  }

  /** The precomputed manager dashboard is exactly what the backend would compute for the
      demo manager over the fixture users and feedback. */
  lemma DemoDashboardMatchesFixtures()
    ensures DemoDashboard == ManagerDashboardOf(DemoUsers, DemoFeedback, DemoManager.id)
  {
    assert TeamMembers(DemoUsers, 1) == [DemoEmployee];
    Seqs.FilterAll(DemoFeedback, (f: Feedback) => f.managerId == 1);
    DemoSummaryMatches();
    DemoRecentMatches();
  }

  /** The precomputed employee dashboard is exactly what the backend would compute for the
      demo employee over the fixture feedback. */
  lemma DemoEmployeeDashboardMatchesFixtures()
    ensures DemoEmployeeDashboard == EmployeeDashboardOf(DemoFeedback, DemoEmployee.id)
  {
    Seqs.FilterAll(DemoFeedback, (f: Feedback) => f.employeeId == 2);
    assert FeedbackByEmployee(DemoFeedback, 2) == DemoFeedback;
    DemoUnacknowledged();
    DemoSummaryMatches();
    DemoRecentMatches();
  }

  lemma DemoUnacknowledged()
    ensures |Unacknowledged(DemoFeedback)| == 1
  {
    var r := Unacknowledged(DemoFeedback);
    assert DemoFeedback[0] in r;
    assert DemoFeedback[1] !in r;
    assert forall f :: f in r ==> f == DemoFeedback[0];
  }

  lemma DemoSummaryMatches()
    ensures Tally(DemoFeedback) == SentimentSummary(2, 0, 0)
  {
    var front := DemoFeedback[..1];
    assert front[..0] == [];
    assert front == [DemoFeedback[0]];
    assert SentimentCount(front, Positive) == 1;
    assert SentimentCount(front, Neutral) == 0;
    assert SentimentCount(front, Negative) == 0;
  }

  lemma DemoRecentMatches()
    ensures MostRecent(DemoFeedback, RecentLimit) == DemoFeedback
  {
    assert DemoFeedback[1..][1..] == [];
    assert SortNewestFirst(DemoFeedback[1..]) == [DemoFeedback[1]];
  }
}
