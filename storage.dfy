/** The document store the route handlers share: the users and bugs
    collections keyed by id, the append-only activity collection, and the
    logical clock that issues identifiers and timestamps. */
module Storage {
  import opened Shared
  import opened ActivityLog

  /** Each bug's id is its creation time, and it was last saved no earlier
      than it was created and before `bound`. */
  predicate BugsStamped(bugs: map<Id, Bug>, bound: nat) {
    forall id :: id in bugs ==> bugs[id].createdAt == id <= bugs[id].updatedAt < bound
  }

  /** The log is in creation order, every entry predates `bound` and has its
      required message. */
  predicate LogStamped(log: seq<Activity>, bound: nat) {
    && Chronological(log)
    && forall i :: 0 <= i < |log| ==> log[i].createdAt < bound && WellFormed(log[i])
  }

  /** Some user has exactly this email (`User.findOne({ email })` finds one). */
  predicate EmailTaken(users: map<Id, User>, email: string) {
    exists id :: id in users && users[id].email == email
  }

  /** No two users share an email. */
  predicate EmailsUnique(users: map<Id, User>) {
    forall i, j :: i in users && j in users && users[i].email == users[j].email ==> i == j
  }

  class Store {
    var users: map<Id, User>
    var bugs: map<Id, Bug>
    var log: seq<Activity>
    /** The logical clock: the next identifier and the next timestamp. */
    var tick: nat
    /** The User model's one-way password hash, applied when a user is created. */
    const digest: string -> string
    /** The User model's default presence status for a new account. */
    const defaultPresence: Presence

    ghost predicate Valid()
      reads this
    {
      KeysBelow(users, tick) && BugsStamped(bugs, tick) && LogStamped(log, tick)
    }

    constructor (digest: string -> string, defaultPresence: Presence)
      ensures Valid()
      ensures users == map[] && bugs == map[] && log == [] && tick == 0
      ensures this.digest == digest && this.defaultPresence == defaultPresence
    {
      users, bugs, log, tick := map[], map[], [], 0;
      this.digest := digest;
      this.defaultPresence := defaultPresence;
    }

    /** `user.comparePassword(password)`. */
    predicate PasswordMatches(u: User, password: string) {
      u.passwordHash == digest(password)
    }

    /** Reads and advances the clock: a fresh identifier, or the time of a save. */
    method Stamp() returns (t: nat)
      requires Valid()
      modifies this
      ensures Valid()
      ensures t == old(tick) && tick == t + 1
      ensures users == old(users) && bugs == old(bugs) && log == old(log)
    {
      t := tick;
      tick := tick + 1;
    }

    /** `Activity.create(...)`: appends one entry stamped with the clock. */
    method Record(kind: ActivityType, userId: Id, bugId: Option<Id>,
                  message: string, metadata: Option<map<string, string>>)
      returns (a: Activity)
      requires Valid() && message != ""
      modifies this
      ensures Valid()
      ensures a == Activity(old(tick), kind, userId, bugId, message, metadata, old(tick))
      ensures log == old(log) + [a] && tick == old(tick) + 1
      ensures users == old(users) && bugs == old(bugs)
    {
      a := Activity(tick, kind, userId, bugId, message, metadata, tick);
      log := log + [a];
      tick := tick + 1;
    }

    /** `Bug.findByIdAndDelete(id)`: whether the bug existed; it is gone afterwards. */
    method RemoveBug(id: Id) returns (found: bool)
      requires Valid()
      modifies this
      ensures Valid()
      ensures found == (id in old(bugs))
      ensures bugs == old(bugs) - {id}
      ensures !found ==> unchanged(this)
      ensures users == old(users) && log == old(log) && tick == old(tick)
    {
      found := id in bugs;
      if found {
        bugs := bugs - {id};
      }
    }

    /** `User.findByIdAndDelete(id)`: whether the user existed; it is gone afterwards. */
    method RemoveUser(id: Id) returns (found: bool)
      requires Valid()
      modifies this
      ensures Valid()
      ensures found == (id in old(users))
      ensures users == old(users) - {id}
      ensures !found ==> unchanged(this)
      ensures bugs == old(bugs) && log == old(log) && tick == old(tick)
    {
      found := id in users;
      if found {
        users := users - {id};
      }
    }
  }
}
