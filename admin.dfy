/** The admin routes. Every one of them sits behind `authenticate` and then
    `requireAdmin`: a request without an identity is refused with 401, one
    whose role is not admin with 403, and neither reaches the handler. */
module AdminRoutes {
  import opened Shared
  import opened ActivityLog
  import opened Storage
  import JsParseInt

  const AdminRequired := "Admin access required"
  const MissingUserFields := "Name, email, and password are required"
  const EmailExists := "Email already exists"
  const InternalError := "Internal server error"

  predicate IsAdmin(auth: Option<Claim>) {
    auth.Some? && auth.value.role == AdminRole
  }

  /** The refusal of the `authenticate`, `requireAdmin` chain that
      src/routes/admin.js mounts at lines 9-10. */
  function Denied<T>(auth: Option<Claim>): (r: Reply<T>)
    requires !IsAdmin(auth)
    ensures r.Failure?
    ensures auth.None? <==> r.code == 401
    ensures auth.Some? <==> r.code == 403
  {
    if auth.None? then Failure(401, AuthRequired) else Failure(403, AdminRequired)
  }

  // ---- GET /admin/stats ------------------------------------------------------

  datatype DashboardStats = DashboardStats(
    totalBugs: nat, openBugs: nat, inProgressBugs: nat, resolvedBugs: nat, closedBugs: nat,
    criticalBugs: nat, highBugs: nat, mediumBugs: nat, lowBugs: nat,
    resolvedToday: nat, totalUsers: nat, adminUsers: nat)

  function WithStatus(bugs: map<Id, Bug>, st: Status): set<Id> {
    set id | id in bugs && bugs[id].status == st
  }

  function WithSeverity(bugs: map<Id, Bug>, lv: Level): set<Id> {
    set id | id in bugs && bugs[id].severity == lv
  }

  /** Resolved bugs last saved at or after `today`, the start of the current day. */
  function ResolvedSince(bugs: map<Id, Bug>, today: nat): set<Id> {
    set id | id in bugs && bugs[id].status == Resolved && bugs[id].updatedAt >= today
  }

  function Admins(users: map<Id, User>): set<Id> {
    set id | id in users && users[id].role == AdminRole
  }

  lemma DisjointUnion<T>(a: set<T>, b: set<T>)
    requires a !! b
    ensures |a + b| == |a| + |b|
  {
    assert a * b == {};
  }

  lemma SubsetSize<T>(a: set<T>, b: set<T>)
    requires a <= b
    ensures |a| <= |b|
  {
    assert b == a + (b - a);
    DisjointUnion(a, b - a);
  }

  /** The four status counts add up to the total. */
  lemma StatusPartition(bugs: map<Id, Bug>)
    ensures |WithStatus(bugs, Open)| + |WithStatus(bugs, InProgress)|
            + |WithStatus(bugs, Resolved)| + |WithStatus(bugs, Closed)| == |bugs|
  {
    var o, p, r, c := WithStatus(bugs, Open), WithStatus(bugs, InProgress),
                      WithStatus(bugs, Resolved), WithStatus(bugs, Closed);
    assert bugs.Keys == o + p + r + c;
    DisjointUnion(o, p);
    DisjointUnion(o + p, r);
    DisjointUnion(o + p + r, c);
  }

  /** The four severity counts add up to the total. */
  lemma SeverityPartition(bugs: map<Id, Bug>)
    ensures |WithSeverity(bugs, Critical)| + |WithSeverity(bugs, High)|
            + |WithSeverity(bugs, Medium)| + |WithSeverity(bugs, Low)| == |bugs|
  {
    var c, h, m, l := WithSeverity(bugs, Critical), WithSeverity(bugs, High),
                      WithSeverity(bugs, Medium), WithSeverity(bugs, Low);
    assert bugs.Keys == c + h + m + l;
    DisjointUnion(c, h);
    DisjointUnion(c + h, m);
    DisjointUnion(c + h + m, l);
  }

  /** The twelve counters of the dashboard. */
  function Stats(users: map<Id, User>, bugs: map<Id, Bug>, today: nat): (st: DashboardStats)
    ensures st.totalBugs == |bugs| && st.totalUsers == |users|
    ensures st.openBugs == |WithStatus(bugs, Open)| && st.inProgressBugs == |WithStatus(bugs, InProgress)|
    ensures st.resolvedBugs == |WithStatus(bugs, Resolved)| && st.closedBugs == |WithStatus(bugs, Closed)|
    ensures st.criticalBugs == |WithSeverity(bugs, Critical)| && st.highBugs == |WithSeverity(bugs, High)|
    ensures st.mediumBugs == |WithSeverity(bugs, Medium)| && st.lowBugs == |WithSeverity(bugs, Low)|
    ensures st.resolvedToday == |ResolvedSince(bugs, today)| && st.adminUsers == |Admins(users)|
    ensures st.openBugs + st.inProgressBugs + st.resolvedBugs + st.closedBugs == st.totalBugs
    ensures st.criticalBugs + st.highBugs + st.mediumBugs + st.lowBugs == st.totalBugs
    ensures st.resolvedToday <= st.resolvedBugs
    ensures st.adminUsers <= st.totalUsers
  {
    StatusPartition(bugs);
    SeverityPartition(bugs);
    SubsetSize(ResolvedSince(bugs, today), WithStatus(bugs, Resolved));
    SubsetSize(Admins(users), users.Keys);
    DashboardStats(
      |bugs|, |WithStatus(bugs, Open)|, |WithStatus(bugs, InProgress)|,
      |WithStatus(bugs, Resolved)|, |WithStatus(bugs, Closed)|,
      |WithSeverity(bugs, Critical)|, |WithSeverity(bugs, High)|,
      |WithSeverity(bugs, Medium)|, |WithSeverity(bugs, Low)|,
      |ResolvedSince(bugs, today)|, |users|, |Admins(users)|)
  }

  /** A resolved bug is among those `resolvedToday` counts iff its last save
      is at or after the start of the day. */
  lemma ResolvedTodayCountsToday(bugs: map<Id, Bug>, today: nat, id: Id)
    requires id in bugs && bugs[id].status == Resolved
    ensures id in ResolvedSince(bugs, today) <==> bugs[id].updatedAt >= today
  {
  }

  function GetStats(auth: Option<Claim>, users: map<Id, User>, bugs: map<Id, Bug>, today: nat)
    : (r: Reply<DashboardStats>)
    ensures !IsAdmin(auth) ==> r == Denied(auth)
    ensures IsAdmin(auth) ==> r == Success(200, Stats(users, bugs, today))
  {
    if !IsAdmin(auth) then Denied(auth) else Success(200, Stats(users, bugs, today))
  }

  // ---- GET /admin/activities -------------------------------------------------

  datatype UserRef = UserRef(id: Id, name: string)
  datatype BugRef = BugRef(id: Id, title: string)

  /** One feed entry; a user or bug that no longer exists is `null` (`None`). */
  datatype FeedEntry = FeedEntry(id: Id, kind: ActivityType, message: string, createdAt: nat,
                                 user: Option<UserRef>, bug: Option<BugRef>)

  /** The populated entry: the referenced user's name and the referenced
      bug's title, read at the time of the request. */
  function Render(users: map<Id, User>, bugs: map<Id, Bug>, a: Activity): (e: FeedEntry)
    ensures e.id == a.id && e.kind == a.kind && e.message == a.message && e.createdAt == a.createdAt
    ensures e.user.Some? <==> a.userId in users
    ensures e.user.Some? ==> e.user.value == UserRef(a.userId, users[a.userId].name)
    ensures e.bug.Some? <==> a.bugId.Some? && a.bugId.value in bugs
    ensures e.bug.Some? ==> e.bug.value == BugRef(a.bugId.value, bugs[a.bugId.value].title)
  {
    FeedEntry(a.id, a.kind, a.message, a.createdAt,
              if a.userId in users then Some(UserRef(a.userId, users[a.userId].name)) else None,
              if a.bugId.Some? && a.bugId.value in bugs
              then Some(BugRef(a.bugId.value, bugs[a.bugId.value].title)) else None)
  }

  /** `parseInt(req.query.limit) || 10`: NaN and 0 fall back to 10. A
      negative limit is read by the MongoDB driver as its magnitude. */
  function FeedLimit(query: Option<string>): (n: nat)
    ensures n > 0
    ensures query.None? ==> n == 10
  {
    var parsed := if query.None? then None else JsParseInt.ParseInt(query.value);
    if parsed.None? || parsed.value == 0 then 10
    else if parsed.value < 0 then -parsed.value
    else parsed.value
  }

  /** A positive decimal limit is taken as written, with or without a sign. */
  lemma FeedLimitOfNumeral(k: nat)
    requires k > 0
    ensures FeedLimit(Some(JsParseInt.DecimalString(k))) == k
    ensures FeedLimit(Some("+" + JsParseInt.DecimalString(k))) == k
    ensures FeedLimit(Some("-" + JsParseInt.DecimalString(k))) == k
  {
    JsParseInt.ParseDecimal(k);
    JsParseInt.ParsePlusDecimal(k);
    JsParseInt.ParseMinusDecimal(k);
  }

  /** `limit=0` and every limit `parseInt` reads as NaN give 10. */
  lemma FeedLimitDefaults(q: string)
    requires JsParseInt.ParseInt(q).None?
    ensures FeedLimit(Some(q)) == 10
    ensures FeedLimit(Some(JsParseInt.DecimalString(0))) == 10
    ensures FeedLimit(Some("+")) == 10 && FeedLimit(Some("-x")) == 10
    ensures FeedLimit(Some("0x")) == 10 && FeedLimit(Some("0xg")) == 10
  {
    JsParseInt.ParseDecimal(0);
    JsParseInt.SignOrPrefixAloneIsNaN();
  }

  /** The newest `limit` entries, newest first. */
  function Recent(users: map<Id, User>, bugs: map<Id, Bug>, log: seq<Activity>, limit: nat)
    : seq<FeedEntry>
  {
    var newest := Reverse(log);
    var n := Min(limit, |log|);
    seq(n, i requires 0 <= i < n => Render(users, bugs, newest[i]))
  }

  /** The feed holds `min(limit, |log|)` entries: the last ones logged, newest
      first, and every entry it leaves out is older than every entry it shows. */
  lemma RecentIsNewestFirst(users: map<Id, User>, bugs: map<Id, Bug>, log: seq<Activity>, limit: nat)
    requires Chronological(log)
    ensures var feed := Recent(users, bugs, log, limit);
      && |feed| == Min(limit, |log|)
      && (forall i :: 0 <= i < |feed| ==> feed[i] == Render(users, bugs, log[|log| - 1 - i]))
      && (forall i, j :: 0 <= i < j < |feed| ==> feed[i].createdAt > feed[j].createdAt)
      && (forall i, k :: 0 <= i < |feed| && 0 <= k < |log| - |feed| ==>
            log[k].createdAt < feed[i].createdAt)
  {
    var feed := Recent(users, bugs, log, limit);
    forall i, j | 0 <= i < j < |feed| ensures feed[i].createdAt > feed[j].createdAt {
      assert feed[i].createdAt == log[|log| - 1 - i].createdAt;
      assert feed[j].createdAt == log[|log| - 1 - j].createdAt;
    }
    forall i, k | 0 <= i < |feed| && 0 <= k < |log| - |feed|
      ensures log[k].createdAt < feed[i].createdAt
    {
      assert feed[i].createdAt == log[|log| - 1 - i].createdAt;
    }
  }

  function GetActivities(auth: Option<Claim>, users: map<Id, User>, bugs: map<Id, Bug>,
                         log: seq<Activity>, limit: Option<string>)
    : (r: Reply<seq<FeedEntry>>)
    ensures !IsAdmin(auth) ==> r == Denied(auth)
    ensures IsAdmin(auth) ==> r == Success(200, Recent(users, bugs, log, FeedLimit(limit)))
  {
    if !IsAdmin(auth) then Denied(auth)
    else Success(200, Recent(users, bugs, log, FeedLimit(limit)))
  }

  // ---- GET /admin/users ------------------------------------------------------

  /** Every user without its password, in insertion order. */
  function Accounts(users: map<Id, User>, bound: nat): seq<UserView> {
    var ids := IdsAscending(users.Keys, bound);
    seq(|ids|, i requires 0 <= i < |ids| => UserJson(ids[i], users[ids[i]]))
  }

  lemma AccountsListEveryone(users: map<Id, User>, bound: nat)
    requires KeysBelow(users, bound)
    ensures var all := Accounts(users, bound);
      && (forall i :: 0 <= i < |all| ==>
            all[i].id in users && all[i] == UserJson(all[i].id, users[all[i].id]))
      && (forall id :: id in users ==> exists i :: 0 <= i < |all| && all[i].id == id)
      && (forall i, j :: 0 <= i < j < |all| ==> all[i].id < all[j].id)
  {
    var ids := IdsAscending(users.Keys, bound);
    var all := Accounts(users, bound);
    forall id | id in users ensures exists i :: 0 <= i < |all| && all[i].id == id {
      IdsAscendingComplete(users.Keys, bound, id);
      var i :| 0 <= i < |ids| && ids[i] == id;
      assert all[i].id == id;
    }
  }

  function ListUsers(auth: Option<Claim>, users: map<Id, User>, bound: nat)
    : (r: Reply<seq<UserView>>)
    requires KeysBelow(users, bound)
    ensures !IsAdmin(auth) ==> r == Denied(auth)
    ensures IsAdmin(auth) ==> r == Success(200, Accounts(users, bound))
    ensures r.Success? ==>
      && (forall i :: 0 <= i < |r.value| ==>
            r.value[i].id in users && r.value[i] == UserJson(r.value[i].id, users[r.value[i].id]))
      && (forall id :: id in users ==> exists i :: 0 <= i < |r.value| && r.value[i].id == id)
      && (forall i, j :: 0 <= i < j < |r.value| ==> r.value[i].id < r.value[j].id)
  {
    AccountsListEveryone(users, bound);
    if !IsAdmin(auth) then Denied(auth) else Success(200, Accounts(users, bound))
  }

  // ---- POST /admin/users -----------------------------------------------------

  datatype NewUserInput = NewUserInput(name: Option<string>, email: Option<string>,
                                       password: Option<string>, role: Option<Role>)

  /** Unlike signup, only presence is checked, the caller picks the role, and
      no activity is logged. */
  method CreateUser(s: Store, auth: Option<Claim>, input: NewUserInput) returns (r: Reply<UserView>)
    requires s.Valid()
    modifies s
    ensures s.Valid()
    ensures EmailsUnique(old(s.users)) ==> EmailsUnique(s.users)
    ensures !IsAdmin(auth) ==> r == Denied(auth) && unchanged(s)
    ensures IsAdmin(auth) && !(Truthy(input.name) && Truthy(input.email) && Truthy(input.password)) ==>
      r == Failure(400, MissingUserFields) && unchanged(s)
    ensures IsAdmin(auth) && Truthy(input.name) && Truthy(input.email) && Truthy(input.password)
            && EmailTaken(old(s.users), input.email.value) ==>
      r == Failure(409, EmailExists) && unchanged(s)
    ensures IsAdmin(auth) && Truthy(input.name) && Truthy(input.email) && Truthy(input.password)
            && !EmailTaken(old(s.users), input.email.value) ==>
      var id := old(s.tick);
      var u := User(input.name.value, input.email.value, s.digest(input.password.value),
                    input.role.GetOr(UserRole), s.defaultPresence, id);
      && id !in old(s.users)
      && s.users == old(s.users)[id := u]
      && s.bugs == old(s.bugs) && s.log == old(s.log) && s.tick == id + 1
      && r == Success(201, UserJson(id, u))
  {
    if !IsAdmin(auth) {
      return Denied(auth);
    }
    if !Truthy(input.name) || !Truthy(input.email) || !Truthy(input.password) {
      return Failure(400, MissingUserFields);
    }
    var email := input.email.value;
    if exists id :: id in s.users && s.users[id].email == email {
      return Failure(409, EmailExists);
    }
    var id := s.Stamp();
    var u := User(input.name.value, email, s.digest(input.password.value),
                  input.role.GetOr(UserRole), s.defaultPresence, id);
    s.users := s.users[id := u];
    r := Success(201, UserJson(id, u));
  }

  // ---- PUT /admin/users/:id --------------------------------------------------

  datatype UserEdit = UserEdit(name: Option<string>, email: Option<string>,
                               role: Option<Role>, status: Option<Presence>)

  /** `findByIdAndUpdate(id, { name, email, role, status })`: each supplied
      field replaces the stored one; the password and creation time stay. */
  function EditUser(u: User, edit: UserEdit): (r: User)
    ensures r.passwordHash == u.passwordHash && r.createdAt == u.createdAt
    ensures r.name == edit.name.GetOr(u.name) && r.email == edit.email.GetOr(u.email)
    ensures r.role == edit.role.GetOr(u.role) && r.status == edit.status.GetOr(u.status)
    ensures edit == UserEdit(None, None, None, None) ==> r == u
  {
    User(edit.name.GetOr(u.name), edit.email.GetOr(u.email), u.passwordHash,
         edit.role.GetOr(u.role), edit.status.GetOr(u.status), u.createdAt)
  }

  /** Some other user already holds the email this edit would set; the
      unique index on `email` rejects the write, which surfaces as a 500. */
  predicate EmailClash(users: map<Id, User>, id: Id, edit: UserEdit) {
    edit.email.Some? && exists other :: other in users && other != id && users[other].email == edit.email.value
  }

  method UpdateUser(s: Store, auth: Option<Claim>, id: Id, edit: UserEdit) returns (r: Reply<UserSummary>)
    requires s.Valid()
    modifies s
    ensures s.Valid()
    ensures s.bugs == old(s.bugs) && s.log == old(s.log) && s.tick == old(s.tick)
    ensures EmailsUnique(old(s.users)) ==> EmailsUnique(s.users)
    ensures !IsAdmin(auth) ==> r == Denied(auth) && unchanged(s)
    ensures IsAdmin(auth) && id !in old(s.users) ==> r == Failure(404, UserNotFound) && unchanged(s)
    ensures IsAdmin(auth) && id in old(s.users) && EmailClash(old(s.users), id, edit) ==>
      r == Failure(500, InternalError) && unchanged(s)
    ensures IsAdmin(auth) && id in old(s.users) && !EmailClash(old(s.users), id, edit) ==>
      var u := EditUser(old(s.users)[id], edit);
      s.users == old(s.users)[id := u] && r == Success(200, Summary(id, u))
  {
    if !IsAdmin(auth) {
      return Denied(auth);
    }
    if id !in s.users {
      return Failure(404, UserNotFound);
    }
    if EmailClash(s.users, id, edit) {
      return Failure(500, InternalError);
    }
    var u := EditUser(s.users[id], edit);
    s.users := s.users[id := u];
    r := Success(200, Summary(id, u));
  }

  // ---- DELETE /admin/users/:id -----------------------------------------------

  /** The self-deletion guard comes before the lookup. A user's bugs and
      activities are kept. */
  method DeleteUser(s: Store, auth: Option<Claim>, id: Id) returns (r: Reply<string>)
    requires s.Valid()
    modifies s
    ensures s.Valid()
    ensures s.bugs == old(s.bugs) && s.log == old(s.log) && s.tick == old(s.tick)
    ensures !IsAdmin(auth) ==> r == Denied(auth) && unchanged(s)
    ensures IsAdmin(auth) && id == auth.value.userId ==>
      r == Failure(400, "Cannot delete your own account") && unchanged(s)
    ensures IsAdmin(auth) && id != auth.value.userId && id !in old(s.users) ==>
      r == Failure(404, UserNotFound) && unchanged(s)
    ensures IsAdmin(auth) && id != auth.value.userId && id in old(s.users) ==>
      r == Success(200, "User deleted successfully") && s.users == old(s.users) - {id}
  {
    if !IsAdmin(auth) {
      return Denied(auth);
    }
    if id == auth.value.userId {
      return Failure(400, "Cannot delete your own account");
    }
    var found := s.RemoveUser(id);
    if !found {
      return Failure(404, UserNotFound);
    }
    r := Success(200, "User deleted successfully");
  }

  // ---- GET /admin/bugs -------------------------------------------------------

  /** The admin listing's row: the bug without its reporter id. */
  datatype BugRow = BugRow(id: Id, title: string, description: string,
                           severity: Level, priority: Level, status: Status,
                           reportedBy: string, createdAt: nat, updatedAt: nat)

  function Row(users: map<Id, User>, id: Id, b: Bug): BugRow {
    BugRow(id, b.title, b.description, b.severity, b.priority, b.status,
           ReporterName(users, b.reporterId), b.createdAt, b.updatedAt)
  }

  function AllBugs(users: map<Id, User>, bugs: map<Id, Bug>, bound: nat): seq<BugRow> {
    var ids := IdsDescending(bugs.Keys, bound);
    seq(|ids|, i requires 0 <= i < |ids| => Row(users, ids[i], bugs[ids[i]]))
  }

  lemma AllBugsNewestFirst(users: map<Id, User>, bugs: map<Id, Bug>, bound: nat)
    requires BugsStamped(bugs, bound)
    ensures var rows := AllBugs(users, bugs, bound);
      && (forall i :: 0 <= i < |rows| ==>
            rows[i].id in bugs && rows[i] == Row(users, rows[i].id, bugs[rows[i].id]))
      && (forall id :: id in bugs ==> exists i :: 0 <= i < |rows| && rows[i].id == id)
      && (forall i, j :: 0 <= i < j < |rows| ==> rows[i].createdAt > rows[j].createdAt)
  {
    var ids := IdsDescending(bugs.Keys, bound);
    var rows := AllBugs(users, bugs, bound);
    forall id | id in bugs ensures exists i :: 0 <= i < |rows| && rows[i].id == id {
      IdsDescendingComplete(bugs.Keys, bound, id);
      var i :| 0 <= i < |ids| && ids[i] == id;
      assert rows[i].id == id;
    }
  }

  function ListBugs(auth: Option<Claim>, users: map<Id, User>, bugs: map<Id, Bug>, bound: nat)
    : (r: Reply<seq<BugRow>>)
    requires BugsStamped(bugs, bound)
    ensures !IsAdmin(auth) ==> r == Denied(auth)
    ensures IsAdmin(auth) ==> r == Success(200, AllBugs(users, bugs, bound))
    ensures r.Success? ==>
      && (forall i :: 0 <= i < |r.value| ==>
            r.value[i].id in bugs && r.value[i] == Row(users, r.value[i].id, bugs[r.value[i].id]))
      && (forall id :: id in bugs ==> exists i :: 0 <= i < |r.value| && r.value[i].id == id)
      && (forall i, j :: 0 <= i < j < |r.value| ==> r.value[i].createdAt > r.value[j].createdAt)
  {
    AllBugsNewestFirst(users, bugs, bound);
    if !IsAdmin(auth) then Denied(auth) else Success(200, AllBugs(users, bugs, bound))
  }

  // ---- DELETE /admin/bugs/:id ------------------------------------------------

  method DeleteBug(s: Store, auth: Option<Claim>, id: Id) returns (r: Reply<string>)
    requires s.Valid()
    modifies s
    ensures s.Valid()
    ensures s.users == old(s.users) && s.log == old(s.log) && s.tick == old(s.tick)
    ensures !IsAdmin(auth) ==> r == Denied(auth) && unchanged(s)
    ensures IsAdmin(auth) && id !in old(s.bugs) ==> r == Failure(404, BugNotFound) && unchanged(s)
    ensures IsAdmin(auth) && id in old(s.bugs) ==>
      r == Success(200, "Bug deleted successfully") && s.bugs == old(s.bugs) - {id}
  {
    if !IsAdmin(auth) {
      return Denied(auth);
    }
    var found := s.RemoveBug(id);
    if !found {
      return Failure(404, BugNotFound);
    }
    r := Success(200, "Bug deleted successfully");
  }
}
