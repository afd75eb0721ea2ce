/**
 * The two API operations, `login` and `register`, over an account table keyed
 * by email. Their collaborators are parameters: the email syntax check of the
 * validation library (`isEmail`), the password hasher (`Hasher`, a hash and a
 * verify function), and the signing secret taken from `JWT_SECRET`. A token is
 * the record of what was signed; the salt of a hash and the id the database
 * gives a new account are inputs of `register`.
 */
module AuthController {
  import opened Wrappers
  import opened AuthTypes
  import opened ErrorHandler

  // ---------------------------------------------------------------------------
  // Request validation: `loginSchema` and `registerSchema` are the same schema.

  /** One property of the JSON request body, as the schema sees it. */
  datatype Field = Absent | Text(text: string) | NonString(received: string)

  datatype RequestBody = RequestBody(email: Field, password: Field)

  datatype Credentials = Credentials(email: string, password: string)

  const MinPasswordLength := 6
  const InvalidEmailMessage := "Invalid email address"
  const ShortPasswordMessage := "Password must be at least 6 characters"

  /** `s.length`: the number of UTF-16 code units, so a character above U+FFFF counts twice. */
  function Utf16Length(s: string): (n: nat)
    ensures |s| <= n <= 2 * |s|
  {
    if s == [] then 0 else (if s[0] as int > 0xFFFF then 2 else 1) + Utf16Length(s[1..])
  }

  /** A string with no character above U+FFFF has as many UTF-16 units as characters. */
  lemma {:induction false} Utf16LengthBmp(s: string)
    requires forall i :: 0 <= i < |s| ==> s[i] as int <= 0xFFFF
    ensures Utf16Length(s) == |s|
  {
    if s != [] {
      assert forall i :: 0 <= i < |s[1..]| ==> s[1..][i] == s[i + 1];
      Utf16LengthBmp(s[1..]);
    }
  }

  /** Five characters of the Basic Multilingual Plane are too short. */
  lemma FiveBmpCharactersAreTooShort(s: string)
    requires |s| == 5 && forall i :: 0 <= i < |s| ==> s[i] as int <= 0xFFFF
    ensures !LongEnough(s)
  {
    Utf16LengthBmp(s);
  }

  /** `.min(6)` on the password; six characters always suffice, three never do. */
  predicate LongEnough(password: string)
    ensures |password| >= MinPasswordLength ==> LongEnough(password)
    ensures LongEnough(password) ==> |password| >= MinPasswordLength / 2
  {
    Utf16Length(password) >= MinPasswordLength
  }

  /** Three characters from beyond the Basic Multilingual Plane already make a long enough password. */
  lemma ThreeAstralCharactersAreEnough()
    ensures LongEnough("\U{1F600}\U{1F600}\U{1F600}")
  {
  }

  /**
   * The issues reported for one string property that has a single check:
   * a missing or non-string value, or a string the check refuses.
   */
  function FieldIssues(key: string, f: Field, check: string -> bool, checkMessage: string): (r: seq<Issue>)
    ensures |r| <= 1
    ensures r == [] <==> f.Text? && check(f.text)
    ensures forall i :: 0 <= i < |r| ==> r[i].path == [Key(key)]
    ensures f.Absent? ==> r == [Issue([Key(key)], "Required")]
    ensures f.Text? && !check(f.text) ==> r == [Issue([Key(key)], checkMessage)]
    ensures f.NonString? ==> r == [Issue([Key(key)], "Expected string, received " + f.received)]
  {
    match f
    case Absent => [Issue([Key(key)], "Required")]
    case NonString(received) => [Issue([Key(key)], "Expected string, received " + received)]
    case Text(s) => if check(s) then [] else [Issue([Key(key)], checkMessage)]
  }

  /** `z.string().email("Invalid email address")` */
  function EmailIssues(isEmail: string -> bool, f: Field): (r: seq<Issue>)
    ensures r == [] <==> f.Text? && isEmail(f.text)
    ensures f.Text? && !isEmail(f.text) ==> r == [Issue([Key("email")], InvalidEmailMessage)]
  {
    FieldIssues("email", f, isEmail, InvalidEmailMessage)
  }

  /** `z.string().min(6, "Password must be at least 6 characters")` */
  function PasswordIssues(f: Field): (r: seq<Issue>)
    ensures r == [] <==> f.Text? && LongEnough(f.text)
    ensures f.Text? && !LongEnough(f.text) ==> r == [Issue([Key("password")], ShortPasswordMessage)]
  {
    FieldIssues("password", f, LongEnough, ShortPasswordMessage)
  }

  /** `schema.parse(req.body)`: both properties are checked, and every issue is reported, email first. */
  function ParseCredentials(isEmail: string -> bool, body: RequestBody): (r: Result<Credentials, seq<Issue>>)
    ensures r.Success? <==>
      body.email.Text? && isEmail(body.email.text) && body.password.Text? && LongEnough(body.password.text)
    ensures r.Success? ==> r.value == Credentials(body.email.text, body.password.text)
    ensures r.Failure? ==> 1 <= |r.error| <= 2 && r.error == EmailIssues(isEmail, body.email) + PasswordIssues(body.password)
  {
    var issues := EmailIssues(isEmail, body.email) + PasswordIssues(body.password);
    if issues == [] then Success(Credentials(body.email.text, body.password.text)) else Failure(issues)
  }

  // ---------------------------------------------------------------------------
  // Collaborators: hasher, token issuer, account table

  const BcryptCost := 10

  /** `hash(password, cost, salt)` and `verify(password, storedHash)`. */
  datatype Hasher = Hasher(hash: (string, nat, nat) -> string, verify: (string, string) -> bool)

  /** What the model asks of the hasher: a password always verifies against its own hash. */
  ghost predicate Sound(h: Hasher) {
    forall password, cost, salt :: h.verify(password, h.hash(password, cost, salt))
  }

  /** The claims of a token. */
  datatype Claims = Claims(id: string, email: string)

  /** A signed token: its claims, the secret that signed them and the lifetime it was given. */
  datatype Token = Token(claims: Claims, secret: string, expiresIn: string)

  const TokenLifetime := "1h"
  const DefaultSecret := "your-secret-key"

  /** `process.env.JWT_SECRET || "your-secret-key"`: an unset or empty variable falls back. */
  function SigningSecret(jwtSecret: Option<string>): (s: string)
    ensures jwtSecret.Some? && jwtSecret.value != "" ==> s == jwtSecret.value
    ensures jwtSecret.None? || jwtSecret.value == "" ==> s == DefaultSecret
    ensures s != ""
  {
    if jwtSecret.Some? && jwtSecret.value != "" then jwtSecret.value else DefaultSecret
  }

  /** A row of the account table; the email is its key. */
  datatype Account = Account(id: string, passwordHash: string)

  type Accounts = map<string, Account>

  const UniqueViolation := "Unique constraint failed on the fields: (`email`)"

  /** `prisma.user.create`: the email column is unique, and a second row with the same email is refused. */
  function CreateAccount(accounts: Accounts, email: string, passwordHash: string, id: string): (r: Result<Accounts, Error>)
    ensures r.Failure? <==> email in accounts
    ensures r.Failure? ==> Classify(r.error) == Database
    ensures r.Success? ==> r.value.Keys == accounts.Keys + {email} && r.value[email] == Account(id, passwordHash)
    ensures r.Success? ==> forall e :: e in accounts ==> r.value[e] == accounts[e]
  {
    if email in accounts then Failure(Thrown(PrismaKnownRequestName, UniqueViolation))
    else Success(accounts[email := Account(id, passwordHash)])
  }

  // ---------------------------------------------------------------------------
  // Results and HTTP responses

  /** The success payload: the public identity of the account and its token. */
  datatype AuthResponse = AuthResponse(user: User, token: Token)

  datatype Reply = Reply(statusCode: int, body: AuthResponse)

  /** Either the reply sent by the controller or the error it hands to `next`. */
  type Outcome = Result<Reply, Error>

  const InvalidCredentials := "Invalid email or password"
  const EmailInUse := "Email already in use"

  datatype ResponseBody = Authenticated(payload: AuthResponse) | Problem(problem: ErrorBody)

  datatype HttpResponse = HttpResponse(statusCode: int, body: ResponseBody)

  /** What the client receives: the reply itself, or what the error translator makes of the error. */
  function Respond(o: Outcome): (r: HttpResponse)
    ensures r.body.Authenticated? <==> o.Success?
    ensures o.Success? ==> r.statusCode == o.value.statusCode && r.body.payload == o.value.body
    ensures o.Failure? ==> r.statusCode == Handle(o.error).statusCode && r.body.problem == Handle(o.error).body
  {
    match o
    case Success(reply) => HttpResponse(reply.statusCode, Authenticated(reply.body))
    case Failure(e) => HttpResponse(Handle(e).statusCode, Problem(Handle(e).body))
  }

  function Authentication(id: string, email: string, jwtSecret: Option<string>): AuthResponse {
    AuthResponse(User(id, email), Token(Claims(id, email), SigningSecret(jwtSecret), TokenLifetime))
  }

  /** What `login` answers for a request, given the account table. */
  function LoginResult(accounts: Accounts, isEmail: string -> bool, hasher: Hasher, jwtSecret: Option<string>,
                       body: RequestBody): (r: Outcome)
    ensures ParseCredentials(isEmail, body).Failure? ==> r == Failure(ZodError(ParseCredentials(isEmail, body).error))
    ensures r.Success? <==>
      && ParseCredentials(isEmail, body).Success?
      && body.email.text in accounts
      && hasher.verify(body.password.text, accounts[body.email.text].passwordHash)
    ensures ParseCredentials(isEmail, body).Success? && r.Failure? ==> r.error == AppError(401, InvalidCredentials)
    ensures r.Success? ==>
      var id := accounts[body.email.text].id;
      && r.value.statusCode == 200
      && r.value.body.user == User(id, body.email.text)
      && r.value.body.token == Token(Claims(id, body.email.text), SigningSecret(jwtSecret), TokenLifetime)
  {
    match ParseCredentials(isEmail, body)
    case Failure(issues) => Failure(ZodError(issues))
    case Success(c) =>
      if c.email !in accounts || !hasher.verify(c.password, accounts[c.email].passwordHash) then
        Failure(AppError(401, InvalidCredentials))
      else
        Success(Reply(200, Authentication(accounts[c.email].id, c.email, jwtSecret)))
  }

  /** What `register` answers for a request, and the account table after it. */
  function RegisterResult(accounts: Accounts, isEmail: string -> bool, hasher: Hasher, jwtSecret: Option<string>,
                          body: RequestBody, salt: nat, newId: string): (r: (Outcome, Accounts))
    ensures ParseCredentials(isEmail, body).Failure? ==> r.0 == Failure(ZodError(ParseCredentials(isEmail, body).error))
    ensures ParseCredentials(isEmail, body).Success? && body.email.text in accounts ==>
      r.0 == Failure(AppError(400, EmailInUse))
    ensures r.0.Success? <==> ParseCredentials(isEmail, body).Success? && body.email.text !in accounts
    ensures r.0.Failure? ==> r.1 == accounts
    ensures r.0.Success? ==>
      && r.0.value.statusCode == 201
      && r.0.value.body.user == User(newId, body.email.text)
      && r.0.value.body.token == Token(Claims(newId, body.email.text), SigningSecret(jwtSecret), TokenLifetime)
      && r.1.Keys == accounts.Keys + {body.email.text}
      && |r.1| == |accounts| + 1
      && r.1[body.email.text] == Account(newId, hasher.hash(body.password.text, BcryptCost, salt))
      && forall e :: e in accounts ==> r.1[e] == accounts[e]
  {
    RegisterSteps(accounts, accounts, isEmail, hasher, jwtSecret, body, salt, newId)
  }

  /**
   * The steps of `register` when the look-up reads the table `seen` and the
   * insert writes to the table `current`. Run alone the two are the same table;
   * another request may insert between the two steps. An error the insert
   * raises is handed on unchanged.
   */
  function RegisterSteps(seen: Accounts, current: Accounts, isEmail: string -> bool, hasher: Hasher,
                         jwtSecret: Option<string>, body: RequestBody, salt: nat, newId: string): (r: (Outcome, Accounts))
    ensures ParseCredentials(isEmail, body).Failure? ==> r.0 == Failure(ZodError(ParseCredentials(isEmail, body).error))
    ensures ParseCredentials(isEmail, body).Success? && body.email.text in seen ==>
      r.0 == Failure(AppError(400, EmailInUse))
    ensures ParseCredentials(isEmail, body).Success? && body.email.text !in seen && body.email.text in current ==>
      r.0 == Failure(Thrown(PrismaKnownRequestName, UniqueViolation))
    ensures r.0.Success? <==> ParseCredentials(isEmail, body).Success? && body.email.text !in seen && body.email.text !in current
    ensures r.0.Failure? ==> r.1 == current
    ensures r.0.Success? ==>
      && r.0.value.statusCode == 201
      && r.0.value.body.user == User(newId, body.email.text)
      && r.0.value.body.token == Token(Claims(newId, body.email.text), SigningSecret(jwtSecret), TokenLifetime)
      && r.1.Keys == current.Keys + {body.email.text}
      && |r.1| == |current| + 1
      && r.1[body.email.text] == Account(newId, hasher.hash(body.password.text, BcryptCost, salt))
      && forall e :: e in current ==> r.1[e] == current[e]
  {
    match ParseCredentials(isEmail, body)
    case Failure(issues) => (Failure(ZodError(issues)), current)
    case Success(c) =>
      if c.email in seen then (Failure(AppError(400, EmailInUse)), current)
      else
        match CreateAccount(current, c.email, hasher.hash(c.password, BcryptCost, salt), newId)
        case Failure(e) => (Failure(e), current)
        case Success(updated) => (Success(Reply(201, Authentication(newId, c.email, jwtSecret))), updated)
  }

  // ---------------------------------------------------------------------------
  // The controller

  class AuthService {
    /** The account table: email to `(id, passwordHash)`. */
    var accounts: Accounts
    const isEmail: string -> bool
    const hasher: Hasher
    const jwtSecret: Option<string>

    constructor (accounts: Accounts, isEmail: string -> bool, hasher: Hasher, jwtSecret: Option<string>)
      ensures this.accounts == accounts && this.isEmail == isEmail
      ensures this.hasher == hasher && this.jwtSecret == jwtSecret
    {
      this.accounts := accounts;
      this.isEmail := isEmail;
      this.hasher := hasher;
      this.jwtSecret := jwtSecret;
    }

    /** `login`: validate, look the account up, check the password, issue a token. Reads the table only. */
    method Login(body: RequestBody) returns (r: Outcome)
      ensures r == LoginResult(accounts, isEmail, hasher, jwtSecret, body)
    {
      var parsed := ParseCredentials(isEmail, body);
      if parsed.Failure? {
        return Failure(ZodError(parsed.error));
      }
      var credentials := parsed.value;
      var user := if credentials.email in accounts then Some(accounts[credentials.email]) else None;
      if user.None? || !hasher.verify(credentials.password, user.value.passwordHash) {
        return Failure(AppError(401, InvalidCredentials));
      }
      r := Success(Reply(200, Authentication(user.value.id, credentials.email, jwtSecret)));
    }

    /**
     * `register`: validate, refuse a taken email, hash the password, insert the
     * row, issue a token. An error raised by the insert is handed on as it is.
     */
    method Register(body: RequestBody, salt: nat, newId: string) returns (r: Outcome)
      modifies this
      ensures (r, accounts) == RegisterResult(old(accounts), isEmail, hasher, jwtSecret, body, salt, newId)
    {
      var parsed := ParseCredentials(isEmail, body);
      if parsed.Failure? {
        return Failure(ZodError(parsed.error));
      }
      var credentials := parsed.value;
      if credentials.email in accounts {
        return Failure(AppError(400, EmailInUse));
      }
      var passwordHash := hasher.hash(credentials.password, BcryptCost, salt);
      var created := CreateAccount(accounts, credentials.email, passwordHash, newId);
      accounts := match created case Success(updated) => updated case Failure(_) => accounts;
      r := match created
        case Success(_) => Success(Reply(201, Authentication(newId, credentials.email, jwtSecret)))
        case Failure(e) => Failure(e);
    }
  }

  // ---------------------------------------------------------------------------
  // Properties

  /**
   * Validation comes before any lookup: a request the schema refuses gets the
   * same validation error whatever the table holds, and the table is kept.
   */
  lemma ValidationPrecedesLookup(accounts: Accounts, other: Accounts, isEmail: string -> bool, hasher: Hasher,
                                 jwtSecret: Option<string>, body: RequestBody, salt: nat, newId: string)
    requires ParseCredentials(isEmail, body).Failure?
    ensures LoginResult(accounts, isEmail, hasher, jwtSecret, body) == LoginResult(other, isEmail, hasher, jwtSecret, body)
    ensures RegisterResult(accounts, isEmail, hasher, jwtSecret, body, salt, newId).1 == accounts
    ensures Respond(LoginResult(accounts, isEmail, hasher, jwtSecret, body)).statusCode == 400
    ensures Respond(RegisterResult(accounts, isEmail, hasher, jwtSecret, body, salt, newId).0)
         == Respond(LoginResult(other, isEmail, hasher, jwtSecret, body))
  {
  }

  /** An unknown email and a wrong password get the very same response. */
  lemma LoginFailuresIndistinguishable(accounts: Accounts, isEmail: string -> bool, hasher: Hasher,
                                       jwtSecret: Option<string>, unknown: RequestBody, wrong: RequestBody)
    requires ParseCredentials(isEmail, unknown).Success? && unknown.email.text !in accounts
    requires ParseCredentials(isEmail, wrong).Success? && wrong.email.text in accounts
    requires !hasher.verify(wrong.password.text, accounts[wrong.email.text].passwordHash)
    ensures Respond(LoginResult(accounts, isEmail, hasher, jwtSecret, unknown))
         == Respond(LoginResult(accounts, isEmail, hasher, jwtSecret, wrong))
         == HttpResponse(401, Problem(ErrorBody("error", InvalidCredentials, None)))
  {
  }

  /** A taken email is refused with 400 "Email already in use", and the existing row, hash included, stays. */
  lemma DuplicateRegistrationRefused(accounts: Accounts, isEmail: string -> bool, hasher: Hasher,
                                     jwtSecret: Option<string>, body: RequestBody, salt: nat, newId: string)
    requires ParseCredentials(isEmail, body).Success? && body.email.text in accounts
    ensures Respond(RegisterResult(accounts, isEmail, hasher, jwtSecret, body, salt, newId).0)
         == HttpResponse(400, Problem(ErrorBody("error", EmailInUse, None)))
    ensures RegisterResult(accounts, isEmail, hasher, jwtSecret, body, salt, newId).1[body.email.text]
         == accounts[body.email.text]
  {
  }

  /** After a successful registration, logging in with the same credentials succeeds as the same user. */
  lemma RegisterThenLogin(accounts: Accounts, isEmail: string -> bool, hasher: Hasher, jwtSecret: Option<string>,
                          body: RequestBody, salt: nat, newId: string)
    requires Sound(hasher)
    requires RegisterResult(accounts, isEmail, hasher, jwtSecret, body, salt, newId).0.Success?
    ensures
      var (registered, updated) := RegisterResult(accounts, isEmail, hasher, jwtSecret, body, salt, newId);
      var login := LoginResult(updated, isEmail, hasher, jwtSecret, body);
      && login.Success?
      && login.value.body == registered.value.body
      && Respond(registered).statusCode == 201
      && Respond(login).statusCode == 200
  {
    var (registered, updated) := RegisterResult(accounts, isEmail, hasher, jwtSecret, body, salt, newId);
    var hash := hasher.hash(body.password.text, BcryptCost, salt);
    assert updated[body.email.text].passwordHash == hash;
    assert hasher.verify(body.password.text, hash);
  }

  /**
   * Run alone, `register` never reaches the database branch of the translator:
   * the look-up already refused a taken email.
   */
  lemma RegisterErrorsAreValidationOrDuplicate(accounts: Accounts, isEmail: string -> bool, hasher: Hasher,
                                               jwtSecret: Option<string>, body: RequestBody, salt: nat, newId: string)
    requires RegisterResult(accounts, isEmail, hasher, jwtSecret, body, salt, newId).0.Failure?
    ensures Classify(RegisterResult(accounts, isEmail, hasher, jwtSecret, body, salt, newId).0.error)
         in {Validation, Application}
  {
  }

  /**
   * Should the insert itself meet a taken email (a second request slipping in
   * between look-up and insert), `register` hands the store's error on
   * unchanged and it goes out as 400 "Database error occurred", not as
   * "Email already in use". The row the other request inserted stays.
   */
  lemma UniqueViolationIsDatabaseError(seen: Accounts, current: Accounts, isEmail: string -> bool, hasher: Hasher,
                                       jwtSecret: Option<string>, body: RequestBody, salt: nat, newId: string)
    requires ParseCredentials(isEmail, body).Success?
    requires body.email.text !in seen && body.email.text in current
    ensures
      var (outcome, after) := RegisterSteps(seen, current, isEmail, hasher, jwtSecret, body, salt, newId);
      && outcome == Failure(CreateAccount(current, body.email.text, hasher.hash(body.password.text, BcryptCost, salt), newId).error)
      && Respond(outcome) == HttpResponse(400, Problem(ErrorBody("error", DatabaseErrorOccurred, None)))
      && Respond(outcome) != Respond(Failure(AppError(400, EmailInUse)))
      && after == current
  {
  }

  function Request(email: string, password: string): RequestBody {
    RequestBody(Text(email), Text(password))
  }

  /**
   * The sign-up walk-through: register a@b.com, register it again, log in with
   * the five-character password "wrong", log in with the right one. The third
   * step is refused by validation (400), before the password is compared.
   */
  lemma SignUpWalkThrough(isEmail: string -> bool, hasher: Hasher, jwtSecret: Option<string>, salt: nat, newId: string)
    requires Sound(hasher) && isEmail("a@b.com")
    ensures
      var (first, accounts) := RegisterResult(map[], isEmail, hasher, jwtSecret, Request("a@b.com", "secret1"), salt, newId);
      var (second, after) := RegisterResult(accounts, isEmail, hasher, jwtSecret, Request("a@b.com", "secret1"), salt, newId);
      var wrong := LoginResult(after, isEmail, hasher, jwtSecret, Request("a@b.com", "wrong"));
      var right := LoginResult(after, isEmail, hasher, jwtSecret, Request("a@b.com", "secret1"));
      && Respond(first).statusCode == 201 && first.value.body.user.email == "a@b.com"
      && Respond(second) == HttpResponse(400, Problem(ErrorBody("error", EmailInUse, None)))
      && Respond(wrong).statusCode == 400 && Respond(wrong).body.problem.message == ValidationFailed
      && Respond(right).statusCode == 200 && right.value.body.user == first.value.body.user
  {
    assert Utf16Length("secret1") == 7;
    assert Utf16Length("wrong") == 5;
    var (first, accounts) := RegisterResult(map[], isEmail, hasher, jwtSecret, Request("a@b.com", "secret1"), salt, newId);
    assert "a@b.com" in accounts;
    assert hasher.verify("secret1", hasher.hash("secret1", BcryptCost, salt));
  }
}
