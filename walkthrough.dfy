/** An end-to-end scenario, run against a fresh store: Ann signs
    up, fails to sign in with a wrong password, signs in, reports a bug,
    resolves it, and an admin's activity feed shows the status change. */
module Walkthrough {
  import opened Shared
  import opened ActivityLog
  import opened Storage
  import AuthRoutes
  import BugRoutes
  import AdminRoutes
  import JsParseInt
  import EmailFormat

  /** Ann's signup passes presence, length and format. */
  lemma AnnSignupValid()
    ensures AuthRoutes.SignupProblem(AuthRoutes.SignupInput(Some("Ann"), Some("ann@x.com"), Some("secret1"))).None?
  {
    var e := "ann@x.com";
    assert e[..3] == "ann" && e[4..5] == "x" && e[6..] == "com";
    assert EmailFormat.PlainRun("ann") && EmailFormat.PlainRun("x") && EmailFormat.PlainRun("com");
    assert e[3] == '@' && e[5] == '.';
    assert EmailFormat.MatchesPattern(e);
  }

  method AnnSignsUp(s: Store) returns (ann: Claim, signup: int)
    requires s.Valid() && !EmailTaken(s.users, "ann@x.com")
    modifies s
    ensures s.Valid()
    ensures signup == 201
    ensures ann.userId in s.users && s.users[ann.userId].name == "Ann"
    ensures s.users[ann.userId].email == "ann@x.com"
    ensures s.PasswordMatches(s.users[ann.userId], "secret1")
    ensures AuthRoutes.OnlyOneWith(s.users, "ann@x.com")
    ensures s.bugs == old(s.bugs) && |s.log| == |old(s.log)| + 1
  {
    AnnSignupValid();
    var r := AuthRoutes.Signup(s, AuthRoutes.SignupInput(Some("Ann"), Some("ann@x.com"), Some("secret1")));
    signup := r.code;
    ann := r.value.token;
  }

  /** A wrong password is refused and changes nothing; the right one signs in. */
  method AnnSignsIn(s: Store, ann: Claim) returns (wrongPassword: int, signin: int)
    requires s.Valid() && s.digest("wrong") != s.digest("secret1")
    requires ann.userId in s.users && s.users[ann.userId].name == "Ann"
    requires s.users[ann.userId].email == "ann@x.com"
    requires s.PasswordMatches(s.users[ann.userId], "secret1")
    requires AuthRoutes.OnlyOneWith(s.users, "ann@x.com")
    modifies s
    ensures s.Valid()
    ensures wrongPassword == 401 && signin == 200
    ensures ann.userId in s.users && s.users[ann.userId].name == "Ann"
    ensures s.bugs == old(s.bugs) && |s.log| == |old(s.log)| + 1
  {
    var r := AuthRoutes.Signin(s, AuthRoutes.SigninInput(Some("ann@x.com"), Some("wrong")));
    assert !s.PasswordMatches(s.users[ann.userId], "wrong");
    wrongPassword := r.code;
    assert s.PasswordMatches(s.users[ann.userId], "secret1");
    r := AuthRoutes.Signin(s, AuthRoutes.SigninInput(Some("ann@x.com"), Some("secret1")));
    signin := r.code;
  }

  /** Ann reports bug "T" and then marks it resolved. */
  method AnnResolves(s: Store, ann: Claim)
    returns (created: int, createdStatus: Status, reportedBy: string, resolved: int)
    requires s.Valid() && ann.userId in s.users && s.users[ann.userId].name == "Ann"
    modifies s
    ensures s.Valid()
    ensures created == 201 && createdStatus == Open && reportedBy == "Ann" && resolved == 200
    ensures |s.log| == |old(s.log)| + 2
    ensures var last := s.log[|s.log| - 1];
      last.kind == StatusChanged && last.bugId.Some? && last.bugId.value in s.bugs
      && s.bugs[last.bugId.value].title == "T"
  {
    var r4 := BugRoutes.CreateBug(s, Some(ann), BugRoutes.BugInput(Some("T"), Some("D"), None, None, None));
    created, createdStatus, reportedBy := r4.code, r4.value.status, r4.value.reportedBy;
    var bugId := r4.value.id;
    var r5 := BugRoutes.UpdateBug(s, Some(ann), bugId, BugRoutes.BugInput(None, None, None, None, Some(Resolved)));
    resolved := r5.code;
  }

  method AnnReportsAndResolves()
    returns (signup: int, wrongPassword: int, signin: int, created: int, createdStatus: Status,
             reportedBy: string, resolved: int, feed: Reply<seq<AdminRoutes.FeedEntry>>)
    ensures signup == 201 && wrongPassword == 401 && signin == 200
    ensures created == 201 && createdStatus == Open && reportedBy == "Ann"
    ensures resolved == 200
    ensures feed.Success? && |feed.value| == 4
    ensures feed.value[0].kind == StatusChanged && feed.value[0].bug.Some?
    ensures feed.value[0].bug.value.title == "T"
  {
    var s := new Store(pw => "h:" + pw, Offline);
    assert s.digest("wrong")[2..] != s.digest("secret1")[2..];
    // The seeded administrator.
    var adminId := s.Stamp();
    s.users := s.users[adminId := User("Admin", "admin@x.com", "h:admin1", AdminRole, Offline, adminId)];
    assert !EmailTaken(s.users, "ann@x.com");
    var ann;
    ann, signup := AnnSignsUp(s);
    wrongPassword, signin := AnnSignsIn(s, ann);
    created, createdStatus, reportedBy, resolved := AnnResolves(s, ann);
    AdminRoutes.FeedLimitOfNumeral(5);
    assert JsParseInt.DecimalString(5) == "5";
    feed := AdminRoutes.GetActivities(Some(Claim(adminId, AdminRole)), s.users, s.bugs, s.log, Some("5"));
  }
}
