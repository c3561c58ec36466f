/** server/controllers/authController.js: registration with unique
    usernames and a normalised role, login that does not reveal whether a
    username exists, and a user's donation history. The password hash and
    the token signature are library code; they are modelled by `Hash`,
    `Verify` and a `Token` that carries its claims. */
module AuthController {
  import opened Models
  import opened Db
  import Lists

  const CredentialsRequired := HttpError(400, "Username and password required")
  const UsernameExists := HttpError(400, "Username already exists")
  const InvalidCredentials := HttpError(400, "Invalid credentials")
  const ServerError := HttpError(500, "Server error")

  /** The password hash. Any injective function will do for the
      properties proved here; salt and cost factor are not modelled. This
      digest wraps the password itself, so the model does not capture that
      the stored value hides the plaintext. */
  function Hash(password: string): Digest {
    Digest(password)
  }

  /** The hash comparison at login. */
  predicate Verify(password: string, digest: Digest) {
    Hash(password) == digest
  }

  /** The signed token: its claims are the user id and role (expiry and
      signature are not modelled). */
  datatype Token = Token(id: Id, role: Role)

  /** The user as login reports it: no password field. */
  datatype PublicUser = PublicUser(id: Id, username: string, role: Role)

  datatype Session = Session(token: Token, user: PublicUser)

  predicate UsernameTaken(users: map<Id, User>, username: string) {
    exists id :: id in users && users[id].username == username
  }

  /** `role === 'admin' ? 'admin' : 'user'`. */
  function NormaliseRole(requested: Option<string>): (r: Role)
    ensures r == AdminRole <==> requested == Some("admin")
  {
    if requested == Some("admin") then AdminRole else UserRole
  }

  /** `register`: refuses a missing username or password, then a taken
      username; otherwise stores the user with the hashed password and the
      normalised role. */
  function RegisterStep(db: Db, username: Option<string>, password: Option<string>, role: Option<string>)
    : (r: Step<string>)
    ensures r.out.Fail? ==> r.db == db
    ensures !RequiredString(username) || !RequiredString(password) ==> r.out == Fail(CredentialsRequired)
    ensures RequiredString(username) && RequiredString(password) && UsernameTaken(db.users, username.value) ==>
              r.out == Fail(UsernameExists)
    ensures r.out.Ok? <==> RequiredString(username) && RequiredString(password) && !UsernameTaken(db.users, username.value)
    ensures r.out.Ok? ==>
      r.db == db.(users := db.users[db.nextId := User(username.value, Hash(password.value), NormaliseRole(role))],
                  nextId := db.nextId + 1)
    ensures Valid(db) ==> Valid(r.db)
  {
    if !RequiredString(username) || !RequiredString(password) then Step(db, Fail(CredentialsRequired))
    else if UsernameTaken(db.users, username.value) then Step(db, Fail(UsernameExists))
    else
      var user := User(username.value, Hash(password.value), NormaliseRole(role));
      Step(db.(users := db.users[db.nextId := user], nextId := db.nextId + 1), Ok("User registered"))
  }

  method Register(store: Store, username: Option<string>, password: Option<string>, role: Option<string>)
    returns (out: Outcome<string>)
    modifies store
    ensures store.State() == RegisterStep(old(store.State()), username, password, role).db
    ensures out == RegisterStep(old(store.State()), username, password, role).out
  {
    if username.None? || username.value == "" || password.None? || password.value == "" {
      return Fail(CredentialsRequired);
    }
    var existing := exists id :: id in store.users && store.users[id].username == username.value;
    if existing {
      return Fail(UsernameExists);
    }
    var hashed := Hash(password.value);
    var id := store.NewId();
    store.users := store.users[id := User(username.value, hashed, if role == Some("admin") then AdminRole else UserRole)];
    out := Ok("User registered");
  }

  /** `login`: one and the same error for an unknown username and for a
      wrong password; on success a token with the user's id and role and the
      user without its password. A request without a password that names a
      known user reaches the hash comparison, which rejects a missing
      password, and is answered 500. */
  ghost function Login(db: Db, username: string, password: Option<string>): (r: Outcome<Session>)
    ensures r.Fail? ==> r.error == InvalidCredentials || r.error == ServerError
    ensures r == Fail(ServerError) <==> password.None? && UsernameTaken(db.users, username)
    ensures UniqueUsernames(db.users) ==>
      (r.Ok? <==> password.Some? && exists id :: id in db.users && db.users[id].username == username
                                                  && Verify(password.value, db.users[id].password))
    ensures r.Ok? ==>
      var id := r.value.user.id;
      && password.Some? && id in db.users
      && db.users[id].username == username && Verify(password.value, db.users[id].password)
      && r.value.user == PublicUser(id, username, db.users[id].role)
      && r.value.token == Token(id, db.users[id].role)
  {
    if !UsernameTaken(db.users, username) then Fail(InvalidCredentials)
    else
      var id :| id in db.users && db.users[id].username == username;
      var user := db.users[id];
      if password.None? then Fail(ServerError)
      else if !Verify(password.value, user.password) then Fail(InvalidCredentials)
      else Ok(Session(Token(id, user.role), PublicUser(id, user.username, user.role)))
  }

  /** The donations recorded for `caller`: exactly those, in store order. */
  function UserDonations(db: Db, caller: Id): (r: seq<Donation>)
    ensures forall d :: multiset(r)[d] == if d.user == caller then multiset(db.donations)[d] else 0
  {
    Lists.Filter(db.donations, (d: Donation) => d.user == caller)
  }

  /** A donation with `populate('campaign')` applied: null once the
      campaign has been deleted. */
  datatype DonationView = DonationView(donation: Donation, campaign: Option<Campaign>)

  /** `getUserDonations`. */
  function GetUserDonations(db: Db, caller: Id): (r: seq<DonationView>)
    ensures |r| == |UserDonations(db, caller)|
    ensures forall i :: 0 <= i < |r| ==> r[i].donation == UserDonations(db, caller)[i]
    ensures forall i :: 0 <= i < |r| ==>
      (r[i].campaign.Some? <==> r[i].donation.campaign in db.campaigns)
      && (r[i].campaign.Some? ==> r[i].campaign.value == db.campaigns[r[i].donation.campaign])
  {
    var mine := UserDonations(db, caller);
    seq(|mine|, i requires 0 <= i < |mine| =>
      DonationView(mine[i], if mine[i].campaign in db.campaigns then Some(db.campaigns[mine[i].campaign]) else None))
  }

  /** A user who has just registered can log in with the same credentials
      and gets the normalised role. */
  lemma RegisterThenLogin(db: Db, username: string, password: string, role: Option<string>)
    requires Valid(db)
    requires RegisterStep(db, Some(username), Some(password), role).out.Ok?
    ensures var db' := RegisterStep(db, Some(username), Some(password), role).db;
      && Login(db', username, Some(password)).Ok?
      && Login(db', username, Some(password)).value.user == PublicUser(db.nextId, username, NormaliseRole(role))
  {
    var db' := RegisterStep(db, Some(username), Some(password), role).db;
    assert db'.users[db.nextId].username == username;
    assert Verify(password, db'.users[db.nextId].password);
    var r := Login(db', username, Some(password));
    assert r.Ok?;
    assert r.value.user.id == db.nextId by {
      assert UniqueUsernames(db'.users);
    }
  }

  /** Registering a username a second time fails, whatever the password and
      role, and stores nothing. */
  lemma RegisterTwiceFails(db: Db, username: string, password: string, role: Option<string>,
                           password2: string, role2: Option<string>)
    requires RegisterStep(db, Some(username), Some(password), role).out.Ok?
    requires password2 != ""
    ensures var db' := RegisterStep(db, Some(username), Some(password), role).db;
      && RegisterStep(db', Some(username), Some(password2), role2).out == Fail(UsernameExists)
      && RegisterStep(db', Some(username), Some(password2), role2).db == db'
  {
    var db' := RegisterStep(db, Some(username), Some(password), role).db;
    assert db'.users[db.nextId].username == username;
  }
}
