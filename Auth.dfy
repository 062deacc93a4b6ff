/**
 * Signup and login. The guard chains are pure decisions; a successful
 * signup stores the new user in an email-keyed user store. Password
 * hashing and verification (bcrypt) are given as function values, and the
 * signed token is represented by the claims it carries.
 */
module Auth {
  import opened Basics

  /** A stored user: the password field holds the hash. */
  datatype User = User(id: nat, fullName: string, email: string, passwordHash: string)

  /** The user as replies show it: no password field of any kind. */
  datatype PublicUser = PublicUser(id: nat, fullName: string, email: string)

  /** The claims of the signed token: `{ userId, email }`, valid for 24 hours. */
  datatype Token = Token(userId: nat, email: string)

  /** The hash function (given a password and the salt it draws) and the matching check. */
  datatype Crypto = Crypto(hash: (string, nat) -> string, verify: (string, string) -> bool)

  datatype SignupBody = SignupBody(
    fullName: Option<string>,
    email: Option<string>,
    password: Option<string>,
    confirmPassword: Option<string>)

  datatype LoginBody = LoginBody(email: Option<string>, password: Option<string>)

  /** The JSON reply: success with token and public user, or the `{success: false, message}` envelope. */
  datatype Reply =
    | Authenticated(status: nat, message: string, token: Token, user: PublicUser)
    | Rejected(status: nat, message: string)

  /** Why saving the new user failed: the unique email index (code 11000), a schema error, anything else. */
  datatype SaveError = DuplicateKey | Invalid(messages: seq<string>) | Unexpected

  /** Why the login handler failed: a schema error (`ValidationError`), or anything else. */
  datatype LoginError = Validation(messages: seq<string>) | Other

  const MinPasswordLength: nat := 6

  const AllFieldsRequired := "All fields are required"
  const PasswordMismatch := "Password and confirm password do not match"
  const PasswordTooShort := "Password must be at least 6 characters long"
  const EmailTaken := "User with this email already exists"
  const UserCreated := "User created successfully"
  const CredentialsRequired := "Email and password are required"
  const BadCredentials := "Invalid email or password"
  const LoginSucceeded := "Login successful"

  function Public(u: User): PublicUser
  {
    PublicUser(u.id, u.fullName, u.email)
  }

  function TokenFor(u: User): Token
  {
    Token(u.id, u.email)
  }

  /** Hashing is sound when a password always verifies against its own hash. */
  ghost predicate Sound(c: Crypto)
  {
    forall p, salt :: c.verify(p, c.hash(p, salt))
  }

  // ---------------------------------------------------------------------
  // POST /signup
  // ---------------------------------------------------------------------

  predicate AllPresent(body: SignupBody)
  {
    Truthy(body.fullName) && Truthy(body.email) && Truthy(body.password) && Truthy(body.confirmPassword)
  }

  /**
   * The guards of signup, in order: all four fields present, the two
   * passwords equal, the password at least six characters, the email not
   * yet registered. The first that fails decides the reply; `None` means
   * every guard passed.
   */
  function SignupGuards(body: SignupBody, users: map<string, User>): (r: Option<Reply>)
    ensures r.None? <==>
      && AllPresent(body)
      && body.password.value == body.confirmPassword.value
      && |body.password.value| >= MinPasswordLength
      && body.email.value !in users
    ensures r.Some? ==> r.value.Rejected?
    ensures r.Some? && r.value.status == 409 ==> AllPresent(body) && body.email.value in users
  {
    if !AllPresent(body) then Some(Rejected(400, AllFieldsRequired))
    else if body.password.value != body.confirmPassword.value then Some(Rejected(400, PasswordMismatch))
    else if |body.password.value| < MinPasswordLength then Some(Rejected(400, PasswordTooShort))
    else if body.email.value in users then Some(Rejected(409, EmailTaken))
    else None
  }

  /** Any missing or empty field is reported first, whatever else is wrong. */
  lemma PresenceFirst(body: SignupBody, users: map<string, User>)
    requires !AllPresent(body)
    ensures SignupGuards(body, users) == Some(Rejected(400, AllFieldsRequired))
  {
  }

  /**
   * Equal passwords shorter than six characters are rejected with 400, and
   * the length check comes before the email lookup: the reply is the same
   * whoever is registered.
   */
  lemma ShortPasswordRejected(body: SignupBody, users: map<string, User>)
    requires AllPresent(body) && body.password.value == body.confirmPassword.value
    requires |body.password.value| < MinPasswordLength
    ensures SignupGuards(body, users) == Some(Rejected(400, PasswordTooShort))
  {
  }

  /** Different passwords are rejected with 400 whatever their lengths and whoever is registered. */
  lemma MismatchBeforeLength(body: SignupBody, users: map<string, User>)
    requires AllPresent(body) && body.password.value != body.confirmPassword.value
    ensures SignupGuards(body, users) == Some(Rejected(400, PasswordMismatch))
  {
  }

  /**
   * The three input guards come before the email lookup: when one of them
   * fails, the reply does not depend on who is registered.
   */
  lemma InputGuardsIgnoreStore(body: SignupBody, u1: map<string, User>, u2: map<string, User>)
    requires SignupGuards(body, u1).Some? && SignupGuards(body, u1).value.status == 400
    ensures SignupGuards(body, u2) == SignupGuards(body, u1)
  {
  }

  /** The reply when saving the new user throws. */
  function SaveFailureReply(e: SaveError): (r: Reply)
    ensures r.Rejected?
    ensures e.DuplicateKey? <==> r.status == 409
    ensures e.DuplicateKey? ==> r == Rejected(409, EmailTaken)
    ensures e.Invalid? <==> r.status == 400
    ensures e.Invalid? ==> r.message == Join(e.messages)
    ensures e.Unexpected? ==> r == Rejected(500, InternalError)
  {
    match e
    case DuplicateKey => Rejected(409, EmailTaken)
    case Invalid(messages) => Rejected(400, Join(messages))
    case Unexpected => Rejected(500, InternalError)
  }

  /** A duplicate key at save time gives the same reply as finding the email registered. */
  lemma DuplicateKeyIsConflict(body: SignupBody, users: map<string, User>)
    requires AllPresent(body) && body.password.value == body.confirmPassword.value
    requires |body.password.value| >= MinPasswordLength && body.email.value in users
    ensures SignupGuards(body, users) == Some(SaveFailureReply(DuplicateKey))
  {
  }

  /**
   * The messages of a schema error, separated by ", ": the reply starts
   * with the first message and ends with the last, and a single message is
   * the whole reply.
   */
  function Join(messages: seq<string>): (r: string)
    ensures messages == [] ==> r == ""
    ensures |messages| == 1 ==> r == messages[0]
    ensures |messages| > 0 ==> messages[0] <= r
    ensures |messages| > 0 ==> |messages[|messages| - 1]| <= |r| && r[|r| - |messages[|messages| - 1]|..] == messages[|messages| - 1]
    ensures |messages| > 1 ==> |r| >= |messages[0]| + 2 && r[|messages[0]|..|messages[0]| + 2] == ", "
  {
    if |messages| == 0 then ""
    else if |messages| == 1 then messages[0]
    else messages[0] + ", " + Join(messages[1..])
  }

  /**
   * Joining two non-empty lists is joining each and putting ", " between:
   * with the single-message case, every message appears, once and in order.
   */
  lemma {:induction false} JoinAppend(a: seq<string>, b: seq<string>)
    requires a != [] && b != []
    ensures Join(a + b) == Join(a) + ", " + Join(b)
  {
    assert (a + b)[0] == a[0];
    assert (a + b)[1..] == a[1..] + b;
    if |a| > 1 {
      JoinAppend(a[1..], b);
    }
  }

  /** Every user is stored under its own email, as the unique email index keeps it. */
  ghost predicate EmailKeyed(users: map<string, User>)
  {
    forall e :: e in users ==> users[e].email == e
  }

  /** The store of users, keyed by email. */
  class UserStore {
    var users: map<string, User>
    /** The id the next saved user receives. */
    var nextId: nat

    ghost predicate Valid()
      reads this
    {
      && EmailKeyed(users)
      && (forall e :: e in users ==> users[e].id < nextId)
      && (forall e1, e2 :: e1 in users && e2 in users && e1 != e2 ==> users[e1].id != users[e2].id)
    }

    constructor ()
      ensures Valid() && users == map[] && nextId == 0
    {
      users := map[];
      nextId := 0;
    }

    /**
     * POST /signup. On any failing guard nothing is stored; otherwise the
     * user is stored with the hash of the password (never the password)
     * and the reply carries the token and the public user.
     */
    method Signup(body: SignupBody, crypto: Crypto, salt: nat) returns (reply: Reply)
      requires Valid()
      modifies this
      ensures Valid()
      ensures SignupGuards(body, old(users)).Some? ==>
        && reply == SignupGuards(body, old(users)).value
        && users == old(users) && nextId == old(nextId)
      ensures SignupGuards(body, old(users)).None? ==>
        var u := User(old(nextId), body.fullName.value, body.email.value, crypto.hash(body.password.value, salt));
        && users == old(users)[u.email := u]
        && nextId == old(nextId) + 1
        && reply == Authenticated(201, UserCreated, TokenFor(u), Public(u))
    {
      var rejected := SignupGuards(body, users);
      if rejected.Some? {
        return rejected.value;
      }
      var hashed := crypto.hash(body.password.value, salt);
      var u := User(nextId, body.fullName.value, body.email.value, hashed);
      users := users[u.email := u];
      nextId := nextId + 1;
      reply := Authenticated(201, UserCreated, TokenFor(u), Public(u));
    }
  }

  // ---------------------------------------------------------------------
  // POST /login
  // ---------------------------------------------------------------------

  /**
   * POST /login. Both fields are required; an unknown email and a wrong
   * password give one and the same 401.
   */
  function Login(body: LoginBody, users: map<string, User>, crypto: Crypto): (r: Reply)
    ensures r.Authenticated? <==>
      && Truthy(body.email) && Truthy(body.password)
      && body.email.value in users
      && crypto.verify(body.password.value, users[body.email.value].passwordHash)
    ensures r.Authenticated? ==>
      var u := users[body.email.value];
      r == Authenticated(200, LoginSucceeded, TokenFor(u), Public(u))
    ensures r.Rejected? ==> r.status == (if Truthy(body.email) && Truthy(body.password) then 401 else 400)
    ensures !(Truthy(body.email) && Truthy(body.password)) ==> r == Rejected(400, CredentialsRequired)
    ensures r.Rejected? && r.status == 401 ==> r.message == BadCredentials
  {
    if !Truthy(body.email) || !Truthy(body.password) then
      Rejected(400, CredentialsRequired)
    else if body.email.value !in users then
      Rejected(401, BadCredentials)
    else
      var u := users[body.email.value];
      if !crypto.verify(body.password.value, u.passwordHash) then
        Rejected(401, BadCredentials)
      else
        Authenticated(200, LoginSucceeded, TokenFor(u), Public(u))
  }

  /** An unknown email and a wrong password for a known one give identical replies. */
  lemma LoginFailuresIndistinguishable(users: map<string, User>, crypto: Crypto,
                                       unknown: string, known: string, p1: string, p2: string)
    requires unknown != "" && unknown !in users && p1 != ""
    requires known != "" && known in users && p2 != "" && !crypto.verify(p2, users[known].passwordHash)
    ensures Login(LoginBody(Some(unknown), Some(p1)), users, crypto) == Rejected(401, BadCredentials)
    ensures Login(LoginBody(Some(known), Some(p2)), users, crypto) == Rejected(401, BadCredentials)
  {
  }

  /** The reply when the login handler throws. */
  function LoginFailureReply(e: LoginError): (r: Reply)
    ensures r.Rejected? && r.status in {400, 500}
    ensures r.status == 400 <==> e.Validation?
    ensures e.Validation? ==> r.message == Join(e.messages)
    ensures e.Other? ==> r == Rejected(500, InternalError)
  {
    match e
    case Validation(messages) => Rejected(400, Join(messages))
    case Other => Rejected(500, InternalError)
  }

  /**
   * On a store where every user sits under its own email (the invariant
   * `UserStore.Valid` keeps), a successful login's token and public user
   * carry the email the user logged in with.
   */
  lemma LoginTokenCarriesEmail(body: LoginBody, users: map<string, User>, crypto: Crypto)
    requires EmailKeyed(users)
    ensures var r := Login(body, users, crypto);
      r.Authenticated? ==> r.token.email == body.email.value && r.user.email == body.email.value
  {
  }

  /** On every store the constructor and Signup build, a login's token carries the email logged in with. */
  lemma StoreLoginCarriesEmail(store: UserStore, body: LoginBody, crypto: Crypto)
    requires store.Valid()
    ensures var r := Login(body, store.users, crypto);
      r.Authenticated? ==> r.token.email == body.email.value
  {
    LoginTokenCarriesEmail(body, store.users, crypto);
  }

  /**
   * Signup followed by login: once signup has stored a user, logging in
   * with the same email and password succeeds (when hashing is sound) and
   * shows the same public user that signup returned.
   */
  lemma SignupThenLogin(body: SignupBody, users: map<string, User>, crypto: Crypto, salt: nat, id: nat)
    requires Sound(crypto)
    requires SignupGuards(body, users).None?
    ensures var u := User(id, body.fullName.value, body.email.value, crypto.hash(body.password.value, salt));
      Login(LoginBody(body.email, body.password), users[u.email := u], crypto)
        == Authenticated(200, LoginSucceeded, TokenFor(u), Public(u))
  {
    var u := User(id, body.fullName.value, body.email.value, crypto.hash(body.password.value, salt));
    assert crypto.verify(body.password.value, u.passwordHash);
  }
}
