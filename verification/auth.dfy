/** The `/register` and `/login` handlers of routes/auth.js as pure functions from
    (request body, user store, library oracles, store faults) to (response, new store). */
module Auth {
  import opened Wrappers
  import opened Json
  import opened Http
  import opened Validation

  /** A stored user. `password` holds the output of the password hasher. */
  datatype User = User(id: string, name: string, email: string, phone: string, password: string, gender: string)

  /** The user collection, keyed by email (lookups are `findOne({ email })`). */
  type Store = map<string, User>

  /** Every record sits under its own email. */
  predicate Keyed(store: Store) {
    forall e :: e in store ==> store[e].email == e
  }

  /** The library calls the handlers make, and the configuration they read.
      `hash` is `bcrypt.hash(_, 10)`, `compare` is `bcrypt.compare`, `sign` is `jwt.sign` with
      the server secret and a one-hour expiry; each may throw, giving a `Failure` with the
      error's message. `adminEmail` is `process.env.ADMIN_EMAIL`, which may be unset. */
  datatype Env = Env(
    isEmail: string -> bool,
    hash: string -> Result<string, string>,
    compare: (string, string) -> Result<bool, string>,
    sign: Claims -> Result<string, string>,
    adminEmail: Option<string>)

  /** Whether `findOne` and `save` reject, and with which error message. */
  datatype StoreFaults = StoreFaults(find: Option<string>, save: Option<string>)

  datatype RegisterBody = RegisterBody(name: string, email: string, phone: string, password: string, gender: string)
  datatype LoginBody = LoginBody(email: string, password: string)

  /** What a handler sends, and the store it leaves behind. */
  datatype Exchange = Exchange(response: Response, store: Store)

  const InvalidEmailMsg := "Invalid or malicious email"
  const WeakPasswordMsg := "Password is too weak"
  const UserExistsMsg := "User already exists"
  const RegisteredMsg := "User registered successfully"
  const RegisterErrorMsg := "Database operation timeout or connection issue"
  const InvalidCredentialsMsg := "Invalid credentials"
  const LoginErrorMsg := "Server error"
  const TooManyAttemptsMsg := "Too many login attempts. Please try again later."

  function Reply(status: int, body: Body, store: Store): Exchange {
    Exchange(Response(status, body), store)
  }

  /** The record a successful registration saves: the password field is the hasher's output. */
  function NewUser(body: RegisterBody, id: string, hashed: string): User {
    User(id, body.name, body.email, body.phone, hashed, body.gender)
  }

  /** The claims of the token a registration issues: the new id and the role `'user'`. */
  function RegisterClaims(id: string): Claims {
    Claims(Str(id), Str("user"))
  }

  /** Every step of a registration succeeds. */
  ghost predicate RegisterSucceeds(body: RegisterBody, store: Store, faults: StoreFaults, env: Env) {
    && EmailAcceptable(env.isEmail, body.email)
    && PasswordStrong(body.password)
    && faults.find.None?
    && body.email !in store
    && env.hash(body.password).Success?
    && faults.save.None?
  }

  /** POST /register. `newId` is the `_id` the new document receives. */
  function Register(body: RegisterBody, store: Store, faults: StoreFaults, env: Env, newId: string): (x: Exchange)
    // The email check comes first: it decides alone, whatever the password.
    ensures x.response == Response(400, Msg(InvalidEmailMsg)) <==> !EmailAcceptable(env.isEmail, body.email)
    ensures x.response == Response(400, Msg(WeakPasswordMsg))
            <==> EmailAcceptable(env.isEmail, body.email) && !PasswordStrong(body.password)
    ensures x.response == Response(400, Msg(UserExistsMsg))
            <==> && EmailAcceptable(env.isEmail, body.email) && PasswordStrong(body.password)
                 && faults.find.None? && body.email in store
    // Rejections and failures before the save leave the store as it was.
    ensures x.response.status == 400 ==> x.store == store
    ensures x.response.status in {201, 400, 500}
    ensures x.response.status == 500 ==> x.response.body.Failed? && x.response.body.msg == RegisterErrorMsg
    // Every 400 is one of the three policy rejections, none of which carries a token.
    ensures x.response.status == 400 ==> x.response.body in {Msg(InvalidEmailMsg), Msg(WeakPasswordMsg), Msg(UserExistsMsg)}
    // Once both checks pass, each thrown error becomes a 500 carrying that error's message.
    ensures EmailAcceptable(env.isEmail, body.email) && PasswordStrong(body.password) && faults.find.Some?
            ==> x == Reply(500, Failed(RegisterErrorMsg, faults.find.value), store)
    ensures && EmailAcceptable(env.isEmail, body.email) && PasswordStrong(body.password)
            && faults.find.None? && body.email !in store && env.hash(body.password).Failure?
            ==> x == Reply(500, Failed(RegisterErrorMsg, env.hash(body.password).error), store)
    ensures && EmailAcceptable(env.isEmail, body.email) && PasswordStrong(body.password)
            && faults.find.None? && body.email !in store && env.hash(body.password).Success? && faults.save.Some?
            ==> x == Reply(500, Failed(RegisterErrorMsg, faults.save.value), store)
    ensures RegisterSucceeds(body, store, faults, env) && env.sign(RegisterClaims(newId)).Failure?
            ==> x.response == Response(500, Failed(RegisterErrorMsg, env.sign(RegisterClaims(newId)).error))
    // The store either stays as it was or gains exactly one record, under a fresh email,
    // holding the hash of the password.
    ensures x.store == store || (RegisterSucceeds(body, store, faults, env)
                                 && x.store == store[body.email := NewUser(body, newId, env.hash(body.password).value)])
    // Once every step up to the save succeeds, the record is saved, whether or not signing fails.
    ensures RegisterSucceeds(body, store, faults, env)
            ==> x.store == store[body.email := NewUser(body, newId, env.hash(body.password).value)]
    ensures x.response.status == 201
            <==> RegisterSucceeds(body, store, faults, env) && env.sign(RegisterClaims(newId)).Success?
    ensures x.response.status == 201
            ==> x.response.body == Registered(RegisteredMsg, env.sign(RegisterClaims(newId)).value)
    ensures Keyed(store) ==> Keyed(x.store)
  {
    if EmailRejected(env.isEmail, body.email) then Reply(400, Msg(InvalidEmailMsg), store)
    else if PasswordTooWeak(body.password) then Reply(400, Msg(WeakPasswordMsg), store)
    else if faults.find.Some? then Reply(500, Failed(RegisterErrorMsg, faults.find.value), store)
    else if body.email in store then Reply(400, Msg(UserExistsMsg), store)
    else match env.hash(body.password)
      case Failure(e) => Reply(500, Failed(RegisterErrorMsg, e), store)
      case Success(hashed) =>
        if faults.save.Some? then Reply(500, Failed(RegisterErrorMsg, faults.save.value), store)
        else
          var saved := store[body.email := NewUser(body, newId, hashed)];
          match env.sign(RegisterClaims(newId))
          // The record is already saved when signing throws.
          case Failure(e) => Reply(500, Failed(RegisterErrorMsg, e), saved)
          case Success(token) => Reply(201, Registered(RegisteredMsg, token), saved)
  }

  /** `'admin'` exactly when the submitted email equals the configured admin email. */
  function RoleFor(adminEmail: Option<string>, email: string): (role: string)
    ensures role == "admin" <==> adminEmail == Some(email)
    ensures role == "user" <==> adminEmail != Some(email)
  {
    if adminEmail == Some(email) then "admin" else "user"
  }

  /** `s.charAt(0).toUpperCase() + s.slice(1)`, for the ASCII role names it is applied to. */
  function Capitalize(s: string): string {
    if |s| == 0 then "" else [Patterns.AsciiUpper(s[0])] + s[1..]
  }

  /** The success message of a login with `role`. */
  function LoginMsg(role: string): (msg: string)
    ensures role == "admin" ==> msg == "Admin login successful"
    ensures role == "user" ==> msg == "User login successful"
  {
    var capitalized := Capitalize(role);
    assert role == "admin" ==> capitalized == "Admin";
    assert role == "user" ==> capitalized == "User";
    capitalized + " login successful"
  }

  /** Every step of a login up to signing succeeds. */
  ghost predicate CredentialsAccepted(body: LoginBody, store: Store, faults: StoreFaults, env: Env) {
    && faults.find.None?
    && body.email in store
    && env.compare(body.password, store[body.email].password) == Success(true)
  }

  /** POST /login, once past the rate limiter. */
  function Login(body: LoginBody, store: Store, faults: StoreFaults, env: Env): (x: Exchange)
    ensures x.store == store
    ensures x.response.status in {200, 400, 500}
    // An unknown email and a wrong password are answered alike.
    ensures x.response.status == 400 <==> x.response == Response(400, Msg(InvalidCredentialsMsg))
    ensures x.response.status == 400
            <==> && faults.find.None?
                 && (body.email !in store || env.compare(body.password, store[body.email].password) == Success(false))
    ensures x.response.status == 500 ==> x.response.body.Failed? && x.response.body.msg == LoginErrorMsg
    // Each thrown error becomes a 500 carrying that error's message.
    ensures faults.find.Some? ==> x.response == Response(500, Failed(LoginErrorMsg, faults.find.value))
    ensures && faults.find.None? && body.email in store
            && env.compare(body.password, store[body.email].password).Failure?
            ==> x.response == Response(500, Failed(LoginErrorMsg, env.compare(body.password, store[body.email].password).error))
    ensures && CredentialsAccepted(body, store, faults, env)
            && env.sign(Claims(Str(store[body.email].id), Str(RoleFor(env.adminEmail, body.email)))).Failure?
            ==> x.response == Response(500, Failed(LoginErrorMsg,
                  env.sign(Claims(Str(store[body.email].id), Str(RoleFor(env.adminEmail, body.email)))).error))
    ensures x.response.status == 200
            <==> && CredentialsAccepted(body, store, faults, env)
                 && env.sign(Claims(Str(store[body.email].id), Str(RoleFor(env.adminEmail, body.email)))).Success?
    ensures x.response.status == 200 ==>
              var role := if env.adminEmail == Some(body.email) then "admin" else "user";
              var id := store[body.email].id;
              x.response.body == LoggedIn(if role == "admin" then "Admin login successful" else "User login successful",
                                          env.sign(Claims(Str(id), Str(role))).value, id, role)
  {
    if faults.find.Some? then Reply(500, Failed(LoginErrorMsg, faults.find.value), store)
    else if body.email !in store then Reply(400, Msg(InvalidCredentialsMsg), store)
    else
      var user := store[body.email];
      match env.compare(body.password, user.password)
      case Failure(e) => Reply(500, Failed(LoginErrorMsg, e), store)
      case Success(isMatch) =>
        if !isMatch then Reply(400, Msg(InvalidCredentialsMsg), store)
        else
          var role := RoleFor(env.adminEmail, body.email);
          match env.sign(Claims(Str(user.id), Str(role)))
          case Failure(e) => Reply(500, Failed(LoginErrorMsg, e), store)
          case Success(token) => Reply(200, LoggedIn(LoginMsg(role), token, user.id, role), store)
  }

  /** POST /login through the rate limiter: a limited client gets 429 before the handler runs.
      Whether the client is limited (5 attempts per 15 minutes) is decided by the limiter. */
  function LoginRoute(limited: bool, body: LoginBody, store: Store, faults: StoreFaults, env: Env): (x: Exchange)
    ensures x.store == store
    ensures x.response.status == 429 <==> limited
    ensures limited ==> x.response.body == Notice(TooManyAttemptsMsg)
    ensures !limited ==> x == Login(body, store, faults, env)
  {
    if limited then Reply(429, Notice(TooManyAttemptsMsg), store)
    else Login(body, store, faults, env)
  }

  // ---------------------------------------------------------------------------
  // Properties relating several calls

  /** The validation checks run before the store is consulted: when either fails, the
      response does not depend on the store or its faults, and nothing is saved. */
  lemma ChecksPrecedeStore(body: RegisterBody, s1: Store, s2: Store, f1: StoreFaults, f2: StoreFaults,
                           env: Env, id1: string, id2: string)
    requires !EmailAcceptable(env.isEmail, body.email) || !PasswordStrong(body.password)
    ensures Register(body, s1, f1, env, id1).response == Register(body, s2, f2, env, id2).response
    ensures Register(body, s1, f1, env, id1).store == s1
  {
  }

  /** Each single failing password criterion gives the weak-password response. */
  lemma EachPasswordCriterionRequired(body: RegisterBody, store: Store, faults: StoreFaults, env: Env, newId: string)
    requires EmailAcceptable(env.isEmail, body.email)
    requires || JsString.Utf16Length(body.password) < 8
             || (forall k :: 0 <= k < |body.password| ==> !Patterns.IsUpper(body.password[k]))
             || (forall k :: 0 <= k < |body.password| ==> !Patterns.IsLower(body.password[k]))
             || (forall k :: 0 <= k < |body.password| ==> !Patterns.IsDigit(body.password[k]))
             || (forall k :: 0 <= k < |body.password| ==> !Patterns.IsSpecial(body.password[k]))
    ensures Register(body, store, faults, env, newId) == Reply(400, Msg(WeakPasswordMsg), store)
  {
  }

  /** Registering the same acceptable email twice: 201, then "User already exists". */
  lemma RegisterTwice(body: RegisterBody, again: RegisterBody, store: Store, env: Env, id1: string, id2: string)
    requires RegisterSucceeds(body, store, StoreFaults(None, None), env)
    requires env.sign(RegisterClaims(id1)).Success?
    requires again.email == body.email && PasswordStrong(again.password)
    ensures var first := Register(body, store, StoreFaults(None, None), env, id1);
            && first.response.status == 201
            && Register(again, first.store, StoreFaults(None, None), env, id2)
               == Reply(400, Msg(UserExistsMsg), first.store)
  {
  }

  /** With a hasher that never returns its input, the saved password is never the plaintext. */
  lemma StoredPasswordIsNotPlaintext(body: RegisterBody, store: Store, faults: StoreFaults, env: Env, newId: string)
    requires forall p :: env.hash(p).Success? ==> env.hash(p).value != p
    requires body.email !in store
    ensures var x := Register(body, store, faults, env, newId);
            body.email in x.store ==> x.store[body.email].password != body.password
  {
  }

  /** A token failure after the save still reports 500, and the record stays saved. */
  lemma SignFailureKeepsRecord(body: RegisterBody, store: Store, env: Env, newId: string)
    requires RegisterSucceeds(body, store, StoreFaults(None, None), env)
    requires env.sign(RegisterClaims(newId)).Failure?
    ensures var x := Register(body, store, StoreFaults(None, None), env, newId);
            x.response.status == 500 && body.email in x.store && body.email !in store
  {
  }

  /** A caller cannot tell an unknown email from a wrong password. */
  lemma UnknownEmailLikeWrongPassword(unknown: LoginBody, wrong: LoginBody, store: Store, env: Env)
    requires unknown.email !in store
    requires wrong.email in store && env.compare(wrong.password, store[wrong.email].password) == Success(false)
    ensures Login(unknown, store, StoreFaults(None, None), env).response
         == Login(wrong, store, StoreFaults(None, None), env).response
  {
  }

  /** A rate-limited login never reaches the store: the response is the same whatever the store holds. */
  lemma LimitedLoginIgnoresStore(body: LoginBody, s1: Store, s2: Store, f1: StoreFaults, f2: StoreFaults, env: Env)
    ensures LoginRoute(true, body, s1, f1, env).response == LoginRoute(true, body, s2, f2, env).response
  {
  }

  /** A user who has just registered can log in with the same password, as a plain user
      unless the email is the admin email. */
  lemma RegisterThenLogin(body: RegisterBody, store: Store, env: Env, newId: string)
    requires RegisterSucceeds(body, store, StoreFaults(None, None), env)
    requires env.sign(RegisterClaims(newId)).Success?
    requires env.compare(body.password, env.hash(body.password).value) == Success(true)
    requires env.sign(Claims(Str(newId), Str(RoleFor(env.adminEmail, body.email)))).Success?
    ensures var first := Register(body, store, StoreFaults(None, None), env, newId);
            var x := Login(LoginBody(body.email, body.password), first.store, StoreFaults(None, None), env);
            && x.response.status == 200
            && x.response.body.userId == newId
            && (x.response.body.role == "admin" <==> env.adminEmail == Some(body.email))
  {
  }
}
