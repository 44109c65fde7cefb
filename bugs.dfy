/** The bug routes: list, get, create, partial update and delete, each behind
    `authenticate`. Create and a status-changing update append to the
    activity log; delete and the reads never do. */
module BugRoutes {
  import opened Shared
  import opened ActivityLog
  import opened Storage

  /** The fields a create or update request body may carry. */
  datatype BugInput = BugInput(title: Option<string>, description: Option<string>,
                               severity: Option<Level>, priority: Option<Level>,
                               status: Option<Status>)

  /** `{ ...bug.toJSON(), id, reportedBy }`. */
  datatype BugView = BugView(id: Id, title: string, description: string,
                             severity: Level, priority: Level, status: Status,
                             reporterId: Id, reportedBy: string,
                             createdAt: nat, updatedAt: nat)

  function View(users: map<Id, User>, id: Id, b: Bug): BugView {
    BugView(id, b.title, b.description, b.severity, b.priority, b.status,
            b.reporterId, ReporterName(users, b.reporterId), b.createdAt, b.updatedAt)
  }

  /** The reporter's name is shown when the reporter resolves to a user with a
      non-empty name, and `'Unknown'` is shown otherwise. */
  lemma ReportedByFallback(users: map<Id, User>, id: Id, b: Bug)
    ensures b.reporterId in users && users[b.reporterId].name != "" ==>
      View(users, id, b).reportedBy == users[b.reporterId].name
    ensures b.reporterId !in users ==> View(users, id, b).reportedBy == "Unknown"
  {
  }

  /** Every bug as a view, newest first (`.sort({ createdAt: -1 })`). */
  function Newest(users: map<Id, User>, bugs: map<Id, Bug>, bound: nat): seq<BugView> {
    var ids := IdsDescending(bugs.Keys, bound);
    seq(|ids|, i requires 0 <= i < |ids| => View(users, ids[i], bugs[ids[i]]))
  }

  /** The listing holds each bug exactly once, as its view, in strictly
      decreasing creation time. */
  lemma {:induction false} NewestListsAllNewestFirst(users: map<Id, User>, bugs: map<Id, Bug>, bound: nat)
    requires BugsStamped(bugs, bound)
    ensures var views := Newest(users, bugs, bound);
      && (forall i :: 0 <= i < |views| ==>
            views[i].id in bugs && views[i] == View(users, views[i].id, bugs[views[i].id]))
      && (forall id :: id in bugs ==> exists i :: 0 <= i < |views| && views[i].id == id)
      && (forall i, j :: 0 <= i < j < |views| ==> views[i].createdAt > views[j].createdAt)
  {
    var ids := IdsDescending(bugs.Keys, bound);
    var views := Newest(users, bugs, bound);
    forall id | id in bugs ensures exists i :: 0 <= i < |views| && views[i].id == id {
      IdsDescendingComplete(bugs.Keys, bound, id);
      var i :| 0 <= i < |ids| && ids[i] == id;
      assert views[i].id == id;
    }
  }

  /** GET /bugs */
  function ListBugs(auth: Option<Claim>, users: map<Id, User>, bugs: map<Id, Bug>, bound: nat)
    : (r: Reply<seq<BugView>>)
    requires BugsStamped(bugs, bound)
    ensures auth.None? ==> r == Failure(401, AuthRequired)
    ensures auth.Some? ==> r == Success(200, Newest(users, bugs, bound))
    ensures r.Success? ==>
      && (forall i :: 0 <= i < |r.value| ==>
            r.value[i].id in bugs && r.value[i] == View(users, r.value[i].id, bugs[r.value[i].id]))
      && (forall id :: id in bugs ==> exists i :: 0 <= i < |r.value| && r.value[i].id == id)
      && (forall i, j :: 0 <= i < j < |r.value| ==> r.value[i].createdAt > r.value[j].createdAt)
  {
    NewestListsAllNewestFirst(users, bugs, bound);
    if auth.None? then Failure(401, AuthRequired) else Success(200, Newest(users, bugs, bound))
  }

  /** GET /bugs/:id */
  function GetBug(auth: Option<Claim>, users: map<Id, User>, bugs: map<Id, Bug>, id: Id)
    : (r: Reply<BugView>)
    ensures r.Success? <==> auth.Some? && id in bugs
    ensures auth.None? ==> r == Failure(401, AuthRequired)
    ensures auth.Some? && id !in bugs ==> r == Failure(404, BugNotFound)
    ensures r.Success? ==>
      && r.code == 200 && r.value == View(users, id, bugs[id])
      && r.value.reportedBy == ReporterName(users, bugs[id].reporterId)
  {
    if auth.None? then Failure(401, AuthRequired)
    else if id !in bugs then Failure(404, BugNotFound)
    else Success(200, View(users, id, bugs[id]))
  }

  /** src/routes/bugs.js lines 106-110 and the save at line 112: each field supplied with a
      truthy value overwrites the stored one; `updatedAt` moves to `now` only
      when some field's value actually changed. */
  function ApplyPatch(b: Bug, input: BugInput, now: nat): (r: Bug)
    ensures r.reporterId == b.reporterId && r.createdAt == b.createdAt
    ensures r.title == (if Truthy(input.title) then input.title.value else b.title)
    ensures r.description == (if Truthy(input.description) then input.description.value else b.description)
    ensures r.severity == input.severity.GetOr(b.severity)
    ensures r.priority == input.priority.GetOr(b.priority)
    ensures r.status == input.status.GetOr(b.status)
    ensures r.updatedAt == (if r.(updatedAt := b.updatedAt) == b then b.updatedAt else now)
  {
    var p := b.(title := if Truthy(input.title) then input.title.value else b.title,
                description := if Truthy(input.description) then input.description.value else b.description,
                severity := input.severity.GetOr(b.severity),
                priority := input.priority.GetOr(b.priority),
                status := input.status.GetOr(b.status));
    if p == b then b else p.(updatedAt := now)
  }

  /** An update that supplies nothing changes nothing. */
  lemma EmptyPatchKeepsBug(b: Bug, now: nat)
    ensures ApplyPatch(b, BugInput(None, None, None, None, None), now) == b
  {
  }

  /** Sending the same update twice leaves the bug as the first one did. */
  lemma PatchIdempotent(b: Bug, input: BugInput, now: nat, later: nat)
    ensures ApplyPatch(ApplyPatch(b, input, now), input, later) == ApplyPatch(b, input, now)
  {
  }

  /** The activity an update records (src/routes/bugs.js lines 115-123): one `status_changed`
      entry exactly when a status is supplied and differs from the old one. */
  function StatusEntries(b: Bug, input: BugInput, requester: Id, id: Id, at: nat)
    : (entries: seq<Activity>)
    ensures |entries| <= 1
    ensures |entries| == 1 <==> input.status.Some? && input.status.value != b.status
    ensures |entries| == 1 ==>
      && entries[0].kind == StatusChanged && entries[0].userId == requester
      && entries[0].bugId == Some(id) && entries[0].createdAt == at
      && entries[0].metadata == Some(map["oldStatus" := StatusName(b.status),
                                         "newStatus" := StatusName(input.status.value)])
      && WellFormed(entries[0])
  {
    if input.status.Some? && input.status.value != b.status then
      var s := input.status.value;
      [Activity(at, StatusChanged, requester, Some(id),
                "changed status to \"" + StatusName(s) + "\"",
                Some(StatusChange(b.status, s)), at)]
    else []
  }

  /** POST /bugs */
  method CreateBug(s: Store, auth: Option<Claim>, input: BugInput) returns (r: Reply<BugView>)
    requires s.Valid()
    modifies s
    ensures s.Valid()
    ensures auth.None? ==> r == Failure(401, AuthRequired) && unchanged(s)
    ensures auth.Some? && !(Truthy(input.title) && Truthy(input.description)) ==>
      r == Failure(400, "Title and description are required") && unchanged(s)
    ensures auth.Some? && Truthy(input.title) && Truthy(input.description) ==>
      var id := old(s.tick);
      var requester := auth.value.userId;
      var b := Bug(input.title.value, input.description.value,
                   input.severity.GetOr(Medium), input.priority.GetOr(Medium),
                   Open, requester, id, id);
      && id !in old(s.bugs)
      && s.bugs == old(s.bugs)[id := b]
      && s.users == old(s.users) && s.tick == id + 2
      && s.log == old(s.log) + [Activity(id + 1, BugCreated, requester, Some(id),
                                         "reported issue \"" + b.title + "\"", None, id + 1)]
      && r == Success(201, View(s.users, id, b))
  {
    if auth.None? {
      return Failure(401, AuthRequired);
    }
    if !Truthy(input.title) || !Truthy(input.description) {
      return Failure(400, "Title and description are required");
    }
    var requester := auth.value.userId;
    var id := s.Stamp();
    var b := Bug(input.title.value, input.description.value,
                 input.severity.GetOr(Medium), input.priority.GetOr(Medium),
                 Open, requester, id, id);
    s.bugs := s.bugs[id := b];
    var _ := s.Record(BugCreated, requester, Some(id), "reported issue \"" + b.title + "\"", None);
    r := Success(201, View(s.users, id, b));
  }

  /** PUT /bugs/:id */
  method UpdateBug(s: Store, auth: Option<Claim>, id: Id, input: BugInput) returns (r: Reply<BugView>)
    requires s.Valid()
    modifies s
    ensures s.Valid()
    ensures auth.None? ==> r == Failure(401, AuthRequired) && unchanged(s)
    ensures auth.Some? && id !in old(s.bugs) ==> r == Failure(404, BugNotFound) && unchanged(s)
    ensures auth.Some? && id in old(s.bugs) ==>
      var b := old(s.bugs)[id];
      var now := old(s.tick);
      && s.bugs == old(s.bugs)[id := ApplyPatch(b, input, now)]
      && s.users == old(s.users)
      && s.log == old(s.log) + StatusEntries(b, input, auth.value.userId, id, now + 1)
      && s.tick == now + 1 + |StatusEntries(b, input, auth.value.userId, id, now + 1)|
      && r == Success(200, View(s.users, id, s.bugs[id]))
  {
    if auth.None? {
      return Failure(401, AuthRequired);
    }
    if id !in s.bugs {
      return Failure(404, BugNotFound);
    }
    var b := s.bugs[id];
    var now := s.Stamp();
    var updated := ApplyPatch(b, input, now);
    s.bugs := s.bugs[id := updated];
    var entries := StatusEntries(b, input, auth.value.userId, id, s.tick);
    if entries != [] {
      var st := input.status.value;
      var _ := s.Record(StatusChanged, auth.value.userId, Some(id),
                        "changed status to \"" + StatusName(st) + "\"",
                        Some(StatusChange(b.status, st)));
    }
    r := Success(200, View(s.users, id, updated));
  }

  /** DELETE /bugs/:id */
  method DeleteBug(s: Store, auth: Option<Claim>, id: Id) returns (r: Reply<string>)
    requires s.Valid()
    modifies s
    ensures s.Valid()
    ensures s.users == old(s.users) && s.log == old(s.log) && s.tick == old(s.tick)
    ensures auth.None? ==> r == Failure(401, AuthRequired) && unchanged(s)
    ensures auth.Some? && id !in old(s.bugs) ==> r == Failure(404, BugNotFound) && unchanged(s)
    ensures auth.Some? && id in old(s.bugs) ==>
      r == Success(200, "Bug deleted successfully") && s.bugs == old(s.bugs) - {id}
  {
    if auth.None? {
      return Failure(401, AuthRequired);
    }
    var found := s.RemoveBug(id);
    if !found {
      return Failure(404, BugNotFound);
    }
    r := Success(200, "Bug deleted successfully");
  }
}
