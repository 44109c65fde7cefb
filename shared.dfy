/** Values shared by every route: identifiers, the User and Bug records, the
    identity the authentication middleware attaches to a request, handler
    replies, JavaScript truthiness and whitespace, and id orderings. */
module Shared {

  datatype Option<+T> = None | Some(value: T) {
    /** `x || default` for an optional request field. */
    function GetOr(default: T): T {
      match this
      case Some(v) => v
      case None => default
    }
  }

  /** What a route handler sends back: a status code with a JSON value, or an
      error status code with the `{ error }` message. */
  datatype Reply<+T> = Success(code: int, value: T) | Failure(code: int, message: string)

  /** Document identifiers. Every document takes the store's logical clock at
      creation as its identifier, as a MongoDB ObjectId begins with its
      creation time. */
  type Id = nat

  datatype Role = UserRole | AdminRole
  datatype Presence = Online | Offline
  /** Severity and priority share one scale. */
  datatype Level = Low | Medium | High | Critical
  datatype Status = Open | InProgress | Resolved | Closed

  function RoleName(r: Role): string {
    match r
    case UserRole => "user"
    case AdminRole => "admin"
  }

  function StatusName(s: Status): string {
    match s
    case Open => "open"
    case InProgress => "in-progress"
    case Resolved => "resolved"
    case Closed => "closed"
  }

  /** The decoded session token that `authenticate` attaches as `req.user`. */
  datatype Claim = Claim(userId: Id, role: Role)

  /** A user document; `passwordHash` is what the User model stores in place
      of the plaintext. */
  datatype User = User(name: string, email: string, passwordHash: string,
                       role: Role, status: Presence, createdAt: nat)

  datatype Bug = Bug(title: string, description: string, severity: Level,
                     priority: Level, status: Status, reporterId: Id,
                     createdAt: nat, updatedAt: nat)

  /** `user.toJSON()`: every field but the password. */
  datatype UserView = UserView(id: Id, name: string, email: string, role: Role,
                               status: Presence, createdAt: nat)

  function UserJson(id: Id, u: User): UserView {
    UserView(id, u.name, u.email, u.role, u.status, u.createdAt)
  }

  /** The team listing's projection: id, name, email, status and role. */
  datatype UserSummary = UserSummary(id: Id, name: string, email: string,
                                     status: Presence, role: Role)

  function Summary(id: Id, u: User): UserSummary {
    UserSummary(id, u.name, u.email, u.status, u.role)
  }

  const AuthRequired := "Authentication required"
  const UserNotFound := "User not found"
  const BugNotFound := "Bug not found"

  /** A request field that JavaScript treats as true: present and not "". */
  predicate Truthy(field: Option<string>) {
    field.Some? && field.value != ""
  }

  /** The code points matched by `\s` in a JavaScript regular expression and
      removed by `parseInt` before it reads a number: WhiteSpace and
      LineTerminator of ECMAScript. */
  predicate IsJsWhitespace(c: char) {
    c == '\t' || c == '\n' || c == '\U{000B}' || c == '\U{000C}' || c == '\r'
    || c == ' ' || c == '\U{00A0}' || c == '\U{1680}'
    || ('\U{2000}' <= c <= '\U{200A}')
    || c == '\U{2028}' || c == '\U{2029}' || c == '\U{202F}' || c == '\U{205F}'
    || c == '\U{3000}' || c == '\U{FEFF}'
  }

  /** `bug.reporterId?.name || 'Unknown'`: the reporter's name, resolved at
      read time. */
  function ReporterName(users: map<Id, User>, reporterId: Id): string {
    if reporterId in users && users[reporterId].name != "" then users[reporterId].name
    else "Unknown"
  }

  predicate KeysBelow<V>(m: map<Id, V>, bound: nat) {
    forall id :: id in m ==> id < bound
  }

  /** The identifiers of `keys` below `bound`, largest first. */
  function IdsDescending(keys: set<Id>, bound: nat): (ids: seq<Id>)
    ensures forall i :: 0 <= i < |ids| ==> ids[i] in keys && ids[i] < bound
    ensures forall i, j :: 0 <= i < j < |ids| ==> ids[i] > ids[j]
  {
    if bound == 0 then []
    else if bound - 1 in keys then [bound - 1] + IdsDescending(keys, bound - 1)
    else IdsDescending(keys, bound - 1)
  }

  /** Every identifier of `keys` below `bound` is listed. */
  lemma {:induction false} IdsDescendingComplete(keys: set<Id>, bound: nat, id: Id)
    requires id in keys && id < bound
    ensures id in IdsDescending(keys, bound)
  {
    if id < bound - 1 {
      IdsDescendingComplete(keys, bound - 1, id);
    }
  }

  /** The identifiers of `keys` below `bound`, smallest (oldest) first. */
  function IdsAscending(keys: set<Id>, bound: nat): (ids: seq<Id>)
    ensures forall i :: 0 <= i < |ids| ==> ids[i] in keys && ids[i] < bound
    ensures forall i, j :: 0 <= i < j < |ids| ==> ids[i] < ids[j]
  {
    var down := IdsDescending(keys, bound);
    var ids := Reverse(down);
    assert forall i :: 0 <= i < |ids| ==> ids[i] == down[|down| - 1 - i];
    ids
  }

  lemma IdsAscendingComplete(keys: set<Id>, bound: nat, id: Id)
    requires id in keys && id < bound
    ensures id in IdsAscending(keys, bound)
  {
    var down := IdsDescending(keys, bound);
    IdsDescendingComplete(keys, bound, id);
    var k :| 0 <= k < |down| && down[k] == id;
    assert IdsAscending(keys, bound)[|down| - 1 - k] == id;
  }

  function Reverse<T>(s: seq<T>): (r: seq<T>)
    ensures |r| == |s|
    ensures forall i :: 0 <= i < |s| ==> r[i] == s[|s| - 1 - i]
  {
    if s == [] then [] else Reverse(s[1..]) + [s[0]]
  }

  function Min(a: int, b: int): int {
    if a <= b then a else b
  }
}
