/** The account routes: signup, signin, signout and the current-user lookup.
    Tokens are modelled by the claim they encode; hashing is the store's
    `digest`. */
module AuthRoutes {
  import opened Shared
  import opened ActivityLog
  import opened Storage
  import EmailFormat

  datatype SignupInput = SignupInput(name: Option<string>, email: Option<string>,
                                     password: Option<string>)
  datatype SigninInput = SigninInput(email: Option<string>, password: Option<string>)

  /** What signup and signin send back: the user without its password, and
      the token, represented by the claim `generateToken` signs. */
  datatype Session = Session(user: UserView, token: Claim)

  const MissingSignupFields := "Name, email, and password are required"
  const ShortPassword := "Password must be at least 6 characters"
  const BadEmailFormat := "Invalid email format"
  const EmailExists := "Email already exists"
  const MissingCredentials := "Email and password are required"
  const InvalidCredentials := "Invalid email or password"

  /** The validation chain of src/routes/auth.js lines 12-23, in its order: presence, then
      length, then format. `None` means the input passes all three. */
  function SignupProblem(input: SignupInput): (problem: Option<string>)
    ensures problem.None? <==>
      && Truthy(input.name) && Truthy(input.email) && Truthy(input.password)
      && |input.password.value| >= 6 && EmailFormat.MatchesPattern(input.email.value)
    ensures !(Truthy(input.name) && Truthy(input.email) && Truthy(input.password)) ==>
      problem == Some(MissingSignupFields)
    ensures (Truthy(input.name) && Truthy(input.email) && Truthy(input.password)
             && |input.password.value| < 6) ==> problem == Some(ShortPassword)
    ensures problem == Some(BadEmailFormat) <==>
      && Truthy(input.name) && Truthy(input.email) && Truthy(input.password)
      && |input.password.value| >= 6 && !EmailFormat.MatchesPattern(input.email.value)
  {
    if !Truthy(input.name) || !Truthy(input.email) || !Truthy(input.password) then
      Some(MissingSignupFields)
    else if |input.password.value| < 6 then Some(ShortPassword)
    else
      EmailFormat.IsEmailMatchesPattern(input.email.value);
      if !EmailFormat.IsEmail(input.email.value) then Some(BadEmailFormat)
      else None
  }

  /** At most one user holds this email. */
  predicate OnlyOneWith(users: map<Id, User>, email: string) {
    forall i, j :: i in users && j in users && users[i].email == email && users[j].email == email ==> i == j
  }

  /** POST /auth/signup */
  method Signup(s: Store, input: SignupInput) returns (r: Reply<Session>)
    requires s.Valid()
    modifies s
    ensures s.Valid()
    ensures EmailsUnique(old(s.users)) ==> EmailsUnique(s.users)
    ensures SignupProblem(input).Some? ==>
      r == Failure(400, SignupProblem(input).value) && unchanged(s)
    ensures SignupProblem(input).None? && EmailTaken(old(s.users), input.email.value) ==>
      r == Failure(409, EmailExists) && unchanged(s)
    ensures SignupProblem(input).None? && !EmailTaken(old(s.users), input.email.value) ==>
      var id := old(s.tick);
      var u := User(input.name.value, input.email.value, s.digest(input.password.value),
                    UserRole, s.defaultPresence, id);
      && id !in old(s.users)
      && s.users == old(s.users)[id := u]
      && s.bugs == old(s.bugs) && s.tick == id + 2
      && s.log == old(s.log) + [Activity(id + 1, UserCreated, id, None,
                                         u.name + " created an account", None, id + 1)]
      && r == Success(201, Session(UserJson(id, u), Claim(id, UserRole)))
  {
    var problem := SignupProblem(input);
    if problem.Some? {
      return Failure(400, problem.value);
    }
    var email := input.email.value;
    if exists id :: id in s.users && s.users[id].email == email {
      return Failure(409, EmailExists);
    }
    var id := s.Stamp();
    var u := User(input.name.value, email, s.digest(input.password.value),
                  UserRole, s.defaultPresence, id);
    s.users := s.users[id := u];
    var _ := s.Record(UserCreated, id, None, u.name + " created an account", None);
    r := Success(201, Session(UserJson(id, u), Claim(id, u.role)));
  }

  /** POST /auth/signin. `User.findOne` hands back one user with the email;
      which one, should several share it, is the storage's choice. */
  method Signin(s: Store, input: SigninInput) returns (r: Reply<Session>)
    requires s.Valid()
    modifies s
    ensures s.Valid()
    ensures EmailsUnique(old(s.users)) ==> EmailsUnique(s.users)
    ensures r.Failure? ==> unchanged(s)
    ensures Truthy(input.email) && Truthy(input.password) && r.Failure? ==>
      r == Failure(401, InvalidCredentials)
    ensures !(Truthy(input.email) && Truthy(input.password)) ==>
      r == Failure(400, MissingCredentials)
    ensures Truthy(input.email) && Truthy(input.password)
            && !EmailTaken(old(s.users), input.email.value) ==>
      r == Failure(401, InvalidCredentials)
    ensures Truthy(input.email) && Truthy(input.password)
            && OnlyOneWith(old(s.users), input.email.value) ==>
      (r.Success? <==> exists id :: id in old(s.users) && old(s.users)[id].email == input.email.value
                                     && s.PasswordMatches(old(s.users)[id], input.password.value))
    ensures r.Success? ==>
      var id := r.value.user.id;
      id in old(s.users) &&
      var u := old(s.users)[id];
      && u.email == input.email.value
      && s.PasswordMatches(u, input.password.value)
      && s.users == old(s.users)[id := u.(status := Online)]
      && s.bugs == old(s.bugs) && s.tick == old(s.tick) + 1
      && s.log == old(s.log) + [Activity(old(s.tick), UserLogin, id, None,
                                         u.name + " logged in", None, old(s.tick))]
      && r == Success(200, Session(UserJson(id, s.users[id]), Claim(id, u.role)))
  {
    if !Truthy(input.email) || !Truthy(input.password) {
      return Failure(400, MissingCredentials);
    }
    var email := input.email.value;
    if !exists id :: id in s.users && s.users[id].email == email {
      return Failure(401, InvalidCredentials);
    }
    var id :| id in s.users && s.users[id].email == email;
    var u := s.users[id];
    if !s.PasswordMatches(u, input.password.value) {
      return Failure(401, InvalidCredentials);
    }
    var online := u.(status := Online);
    s.users := s.users[id := online];
    var _ := s.Record(UserLogin, id, None, u.name + " logged in", None);
    r := Success(200, Session(UserJson(id, online), Claim(id, u.role)));
  }

  /** POST /auth/signout. The requester's record, if it still exists, goes
      Offline; the logout is logged either way. */
  method Signout(s: Store, auth: Option<Claim>) returns (r: Reply<string>)
    requires s.Valid()
    modifies s
    ensures s.Valid()
    ensures EmailsUnique(old(s.users)) ==> EmailsUnique(s.users)
    ensures auth.None? ==> r == Failure(401, AuthRequired) && unchanged(s)
    ensures auth.Some? ==>
      var id := auth.value.userId;
      && s.users == (if id in old(s.users) then old(s.users)[id := old(s.users)[id].(status := Offline)]
                     else old(s.users))
      && s.bugs == old(s.bugs) && s.tick == old(s.tick) + 1
      && s.log == old(s.log) + [Activity(old(s.tick), UserLogout, id, None, "User logged out",
                                         None, old(s.tick))]
      && r == Success(200, "Signed out successfully")
  {
    if auth.None? {
      return Failure(401, AuthRequired);
    }
    var id := auth.value.userId;
    if id in s.users {
      s.users := s.users[id := s.users[id].(status := Offline)];
    }
    var _ := s.Record(UserLogout, id, None, "User logged out", None);
    r := Success(200, "Signed out successfully");
  }

  /** GET /auth/me */
  function Me(auth: Option<Claim>, users: map<Id, User>): (r: Reply<UserView>)
    ensures r.Success? <==> auth.Some? && auth.value.userId in users
    ensures auth.None? ==> r == Failure(401, AuthRequired)
    ensures auth.Some? && auth.value.userId !in users ==> r == Failure(404, UserNotFound)
    ensures r.Success? ==> r.code == 200 && r.value == UserJson(auth.value.userId, users[auth.value.userId])
  {
    if auth.None? then Failure(401, AuthRequired)
    else if auth.value.userId !in users then Failure(404, UserNotFound)
    else Success(200, UserJson(auth.value.userId, users[auth.value.userId]))
  }

  /** A user who has just signed up can sign in with the same password, and
      gets back the account signup created. */
  method SignupThenSignin(s: Store, input: SignupInput) returns (r: Reply<Session>)
    requires s.Valid()
    requires SignupProblem(input).None? && !EmailTaken(s.users, input.email.value)
    modifies s
    ensures s.Valid()
    ensures r.Success? && r.value.user.id == old(s.tick) && r.value.user.status == Online
  {
    var created := Signup(s, input);
    assert s.users[old(s.tick)].email == input.email.value;
    r := Signin(s, SigninInput(input.email, input.password));
  }
}
