/** The user routes: the team listing, a lookup by id, and the update of the
    requester's own profile. */
module UserRoutes {
  import opened Shared
  import opened Storage

  /** Every user's public summary, in insertion order. */
  function Roster(users: map<Id, User>, bound: nat): seq<UserSummary> {
    var ids := IdsAscending(users.Keys, bound);
    seq(|ids|, i requires 0 <= i < |ids| => Summary(ids[i], users[ids[i]]))
  }

  /** The listing names each user once, as its summary (which has no
      password field), oldest account first. */
  lemma RosterListsEveryone(users: map<Id, User>, bound: nat)
    requires KeysBelow(users, bound)
    ensures var team := Roster(users, bound);
      && (forall i :: 0 <= i < |team| ==>
            team[i].id in users && team[i] == Summary(team[i].id, users[team[i].id]))
      && (forall id :: id in users ==> exists i :: 0 <= i < |team| && team[i].id == id)
      && (forall i, j :: 0 <= i < j < |team| ==> team[i].id < team[j].id)
  {
    var ids := IdsAscending(users.Keys, bound);
    var team := Roster(users, bound);
    forall id | id in users ensures exists i :: 0 <= i < |team| && team[i].id == id {
      IdsAscendingComplete(users.Keys, bound, id);
      var i :| 0 <= i < |ids| && ids[i] == id;
      assert team[i].id == id;
    }
  }

  /** GET /users */
  function ListUsers(auth: Option<Claim>, users: map<Id, User>, bound: nat)
    : (r: Reply<seq<UserSummary>>)
    requires KeysBelow(users, bound)
    ensures auth.None? ==> r == Failure(401, AuthRequired)
    ensures auth.Some? ==> r == Success(200, Roster(users, bound))
    ensures r.Success? ==>
      && (forall i :: 0 <= i < |r.value| ==>
            r.value[i].id in users && r.value[i] == Summary(r.value[i].id, users[r.value[i].id]))
      && (forall id :: id in users ==> exists i :: 0 <= i < |r.value| && r.value[i].id == id)
      && (forall i, j :: 0 <= i < j < |r.value| ==> r.value[i].id < r.value[j].id)
  {
    RosterListsEveryone(users, bound);
    if auth.None? then Failure(401, AuthRequired) else Success(200, Roster(users, bound))
  }

  /** GET /users/:id */
  function GetUser(auth: Option<Claim>, users: map<Id, User>, id: Id): (r: Reply<UserView>)
    ensures r.Success? <==> auth.Some? && id in users
    ensures auth.None? ==> r == Failure(401, AuthRequired)
    ensures auth.Some? && id !in users ==> r == Failure(404, UserNotFound)
    ensures r.Success? ==> r.code == 200 && r.value == UserJson(id, users[id])
  {
    if auth.None? then Failure(401, AuthRequired)
    else if id !in users then Failure(404, UserNotFound)
    else Success(200, UserJson(id, users[id]))
  }

  /** The body of a profile update: only these two fields are read. */
  datatype ProfileInput = ProfileInput(name: Option<string>, status: Option<Presence>)

  /** `findByIdAndUpdate(id, { name, status })`: a supplied field replaces
      the stored one, an absent one is left out of the update. */
  function ProfilePatch(u: User, input: ProfileInput): (r: User)
    ensures r.email == u.email && r.role == u.role && r.passwordHash == u.passwordHash
    ensures r.createdAt == u.createdAt
    ensures r.name == input.name.GetOr(u.name) && r.status == input.status.GetOr(u.status)
    ensures input == ProfileInput(None, None) ==> r == u
  {
    u.(name := input.name.GetOr(u.name), status := input.status.GetOr(u.status))
  }

  /** PUT /users/profile: always the requester's own record. */
  method UpdateProfile(s: Store, auth: Option<Claim>, input: ProfileInput) returns (r: Reply<UserView>)
    requires s.Valid()
    modifies s
    ensures s.Valid()
    ensures s.bugs == old(s.bugs) && s.log == old(s.log) && s.tick == old(s.tick)
    ensures EmailsUnique(old(s.users)) ==> EmailsUnique(s.users)
    ensures auth.None? ==> r == Failure(401, AuthRequired) && unchanged(s)
    ensures auth.Some? && auth.value.userId !in old(s.users) ==>
      r == Failure(404, UserNotFound) && unchanged(s)
    ensures auth.Some? && auth.value.userId in old(s.users) ==>
      var id := auth.value.userId;
      var u := ProfilePatch(old(s.users)[id], input);
      && s.users == old(s.users)[id := u]
      && r == Success(200, UserJson(id, u))
  {
    if auth.None? {
      return Failure(401, AuthRequired);
    }
    var id := auth.value.userId;
    if id !in s.users {
      return Failure(404, UserNotFound);
    }
    var u := ProfilePatch(s.users[id], input);
    s.users := s.users[id := u];
    r := Success(200, UserJson(id, u));
  }
}
