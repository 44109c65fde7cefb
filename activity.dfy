/** The Activity model: one audit-log entry per domain event. The schema's
    `type` is a required enumeration, `userId` and `message` are required,
    `bugId` and `metadata` are optional, and `timestamps` gives each entry its
    creation time. */
module ActivityLog {
  import opened Shared

  /** The six values the schema admits for `type`. */
  datatype ActivityType =
    | BugCreated | BugUpdated | StatusChanged | UserCreated | UserLogin | UserLogout

  function TypeName(t: ActivityType): string {
    match t
    case BugCreated => "bug_created"
    case BugUpdated => "bug_updated"
    case StatusChanged => "status_changed"
    case UserCreated => "user_created"
    case UserLogin => "user_login"
    case UserLogout => "user_logout"
  }

  const TypeNames: seq<string> :=
    ["bug_created", "bug_updated", "status_changed", "user_created", "user_login", "user_logout"]

  /** The schema's enum validator: a stored `type` string is accepted exactly
      when it is one of the six names, and it then denotes that activity type. */
  function ParseType(name: string): (t: Option<ActivityType>)
    ensures t.Some? <==> name in TypeNames
    ensures t.Some? ==> TypeName(t.value) == name
  {
    if name == "bug_created" then Some(BugCreated)
    else if name == "bug_updated" then Some(BugUpdated)
    else if name == "status_changed" then Some(StatusChanged)
    else if name == "user_created" then Some(UserCreated)
    else if name == "user_login" then Some(UserLogin)
    else if name == "user_logout" then Some(UserLogout)
    else None
  }

  /** Storing a type and reading it back gives the same type. */
  lemma TypeRoundTrip(t: ActivityType)
    ensures TypeName(t) in TypeNames && ParseType(TypeName(t)) == Some(t)
  {
  }

  /** An entry as stored. The acting user is required (a plain reference that
      may no longer resolve), the bug reference and the free-form metadata are
      optional. `updatedAt` is left out: entries are never modified, so it
      always equals `createdAt`. */
  datatype Activity = Activity(id: Id, kind: ActivityType, userId: Id, bugId: Option<Id>,
                               message: string, metadata: Option<map<string, string>>,
                               createdAt: nat)

  /** A required string field rejects the empty string. */
  predicate WellFormed(a: Activity) {
    a.message != ""
  }

  /** Creation times increase along the log. */
  predicate Chronological(log: seq<Activity>) {
    forall i, j :: 0 <= i < j < |log| ==> log[i].createdAt < log[j].createdAt
  }

  /** The metadata of a `status_changed` entry: `{ oldStatus, newStatus }`. */
  function StatusChange(oldStatus: Status, newStatus: Status): map<string, string> {
    map["oldStatus" := StatusName(oldStatus), "newStatus" := StatusName(newStatus)]
  }
}
