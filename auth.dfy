/**
 * The authentication core of the API server (server.js): the `user` table,
 * account creation, login with lazy migration of legacy plaintext passwords,
 * and the bearer-token guard in front of the protected routes.
 *
 * bcrypt and JSON Web Tokens are libraries this model cannot see. They are a
 * configuration value `Crypto` of four functions, and `Sound` states the only
 * facts the handlers rely on. The salt bcrypt draws, the clock JWT reads and
 * the failures of the database connection are parameters of the handlers.
 */
module Auth {
  import opened Wrappers
  import opened Text

  /** A row of the `user` table: the email as stored and the password column,
      which holds a bcrypt hash or, for rows older than hashing, the plaintext. */
  datatype Row = Row(email: string, password: string)

  /** The payload of a verified token. A token that the server did not issue
      (but that carries a valid signature) may lack the `email` claim. */
  datatype Claims = Claims(email: Option<string>)

  /** JSON bodies the routes send. */
  datatype Body =
    | Message(text: string)
    | TokenBody(token: string)
    | EmailList(emails: seq<string>)
    | EmailEcho(email: Option<string>)

  datatype Response = Response(status: nat, body: Body)

  const MissingFields := Response(400, Message("Email and password are required."))
  const AccountCreated := Response(201, Message("Account created successfully!"))
  const AccountExists := Response(409, Message("An account with this email already exists."))
  const CreateFailed := Response(500, Message("Error creating account."))
  const InvalidLogin := Response(401, Message("Invalid email or password."))
  const LoginFailed := Response(500, Message("Error logging in."))
  const NoToken := Response(401, Message("Access denied. No token provided."))
  const BadToken := Response(403, Message("Invalid token."))
  const NoAccount := Response(403, Message("Account not found or deactivated."))
  const GuardFailed := Response(500, Message("Database error during authentication."))
  const ListFailed := Response(500, Message("Error retrieving email addresses."))

  /** `expiresIn: '1h'`, in seconds. */
  const TokenLifetime: nat := 3600

  /**
   * The two foreign libraries, bound to the server's secret:
   * `hash(p, salt)` is `bcrypt.hash(p, 10)` when bcrypt draws `salt`;
   * `compare(p, stored)` is `bcrypt.compare(p, stored)`;
   * `sign(email, t)` is `jwt.sign({ email }, secret, { expiresIn: '1h' })` at time `t`;
   * `verify(token, now)` is `jwt.verify(token, secret)` at time `now`.
   */
  datatype Crypto = Crypto(
    hash: (string, nat) -> string,
    compare: (string, string) -> bool,
    sign: (string, nat) -> string,
    verify: (string, nat) -> Option<Claims>)

  /** A bcrypt hash always carries a bcrypt prefix and matches its own password. */
  ghost predicate SoundHasher(c: Crypto) {
    && (forall p, salt :: LooksHashed(c.hash(p, salt)))
    && (forall p, salt :: c.compare(p, c.hash(p, salt)))
  }

  /** A token verifies to the email it was signed for until one lifetime after
      it was signed, and fails to verify from that instant on. */
  ghost predicate SoundSigner(c: Crypto) {
    && (forall e, t: nat :: c.sign(e, t) != "")
    && (forall e, t: nat, now: nat :: now < t + TokenLifetime ==> c.verify(c.sign(e, t), now) == Some(Claims(Some(e))))
    && (forall e, t: nat, now: nat :: t + TokenLifetime <= now ==> c.verify(c.sign(e, t), now) == None)
  }

  ghost predicate Sound(c: Crypto) {
    SoundHasher(c) && SoundSigner(c)
  }

  // ---------------------------------------------------------------------
  // Request parsing
  // ---------------------------------------------------------------------

  /** `String(email || '').trim().toLowerCase()`: an absent email becomes "". */
  function NormalizeEmail(email: Option<string>): (r: string)
    ensures |r| <= |email.GetOr("")|
  {
    ToLower(Trim(email.GetOr("")))
  }

  /** A normalised email has no upper-case letter and no whitespace at either end. */
  lemma NormalizeEmailShape(email: Option<string>)
    ensures Canonical(NormalizeEmail(email))
  {
    var t := Trim(email.GetOr(""));
    if t != [] {
      ToLowerKeepsSpaces(t, 0);
      ToLowerKeepsSpaces(t, |t| - 1);
    }
  }

  /** An email is left as it is exactly when it has no upper-case letter and
      no whitespace at either end. */
  lemma NormalizeEmailFixedPoint(s: string)
    ensures NormalizeEmail(Some(s)) == s <==> Canonical(s)
  {
    if Canonical(s) {
      ToLowerNoUpper(s);
      TrimFixedPoint(s);
    } else {
      var n := NormalizeEmail(Some(s));
      NormalizeEmailShape(Some(s));
      assert Canonical(n);
    }
  }

  /** `!normalizedEmail || !password`: the request is refused with 400. */
  predicate MissingCredentials(email: Option<string>, password: Option<string>)
    ensures email.None? || password.None? ==> MissingCredentials(email, password)
    ensures !MissingCredentials(email, password) ==>
      email.Some? && email.value != "" && password.Some? && password.value != ""
  {
    NormalizeEmail(email) == "" || password.None? || password.value == ""
  }

  /** Normalising an already normalised email changes nothing. */
  lemma NormalizeEmailIdempotent(email: Option<string>)
    ensures NormalizeEmail(Some(NormalizeEmail(email))) == NormalizeEmail(email)
  {
    var s := Trim(email.GetOr(""));
    TrimIdempotent(email.GetOr(""));
    assert Trim(s) == s;
    TrimLowerCommute(s);
    assert Trim(ToLower(s)) == ToLower(s);
    ToLowerIdempotent(s);
  }

  /** The ternary of `authenticateToken`: strip a leading "Bearer ", else take
      the header as it is. */
  function BearerToken(header: string): (r: string)
    ensures |r| == if StartsWith(header, "Bearer ") then |header| - 7 else |header|
    ensures r == header[|header| - |r|..]
  {
    if StartsWith(header, "Bearer ") then header[7..] else header
  }

  /** A "Bearer " header yields exactly the token after the scheme. */
  lemma BearerTokenStripsScheme(token: string)
    ensures BearerToken("Bearer " + token) == token
  {
    assert ("Bearer " + token)[..7] == "Bearer ";
    assert ("Bearer " + token)[7..] == token;
  }

  /** A header in any other form is taken as the bare token. */
  lemma BearerTokenBare(header: string)
    requires !StartsWith(header, "Bearer ")
    ensures BearerToken(header) == header
  {
  }

  /** The token of the `Authorization` header, or None when `!token` sends 401:
      exactly when the header is absent, empty, or the bare scheme "Bearer ". */
  function ExtractToken(header: Option<string>): (r: Option<string>)
    ensures r.Some? ==> r.value != "" && header.Some?
    ensures r.None? <==> header.None? || header.value == "" || header.value == "Bearer "
    ensures header.Some? && StartsWith(header.value, "Bearer ") && r.Some? ==>
      r.value == header.value[7..]
    ensures header.Some? && header.value != "" && !StartsWith(header.value, "Bearer ") ==>
      r == Some(header.value)
  {
    match header
    case None => None
    case Some(h) =>
      var token := BearerToken(h);
      assert StartsWith(h, "Bearer ") && token == "" ==> h == h[..7] + token;
      if token == "" then None else Some(token)
  }

  // ---------------------------------------------------------------------
  // Credentials
  // ---------------------------------------------------------------------

  /** The `looksHashed` test: a bcrypt prefix `$2a$`, `$2b$` or `$2y$`.
      The prefix test is stated character by character. */
  predicate LooksHashed(stored: string)
    ensures LooksHashed(stored) <==>
      |stored| >= 4 && stored[0] == '$' && stored[1] == '2' && stored[3] == '$' &&
      (stored[2] == 'a' || stored[2] == 'b' || stored[2] == 'y')
  {
    assert |stored| >= 4 ==> stored[..4] == [stored[0], stored[1], stored[2], stored[3]];
    StartsWith(stored, "$2a$") || StartsWith(stored, "$2b$") || StartsWith(stored, "$2y$")
  }

  // ---------------------------------------------------------------------
  // The table
  // ---------------------------------------------------------------------

  /** The database's unique index on `email`, under a case-insensitive collation. */
  ghost predicate UniqueEmails(rows: seq<Row>) {
    forall i, j :: 0 <= i < j < |rows| ==> ToLower(rows[i].email) != ToLower(rows[j].email)
  }

  /** The first row of `SELECT ... WHERE LOWER(email) = key`, by index. */
  function FirstMatch(rows: seq<Row>, key: string): (r: Option<nat>)
    ensures r.Some? ==> r.value < |rows| && ToLower(rows[r.value].email) == key
    ensures r.Some? ==> forall j :: 0 <= j < r.value ==> ToLower(rows[j].email) != key
    ensures r.None? <==> forall j :: 0 <= j < |rows| ==> ToLower(rows[j].email) != key
  {
    if rows == [] then None
    else if ToLower(rows[0].email) == key then Some(0)
    else match FirstMatch(rows[1..], key)
      case None => None
      case Some(i) => Some(i + 1)
  }

  /** Under the unique index a lookup matches at most one row. */
  lemma FirstMatchUnique(rows: seq<Row>, key: string, j: nat)
    requires UniqueEmails(rows)
    requires j < |rows| && ToLower(rows[j].email) == key
    ensures FirstMatch(rows, key) == Some(j)
  {
  }

  /** `rows.map((row) => row.email)`, the body of `/api/users`. */
  function Emails(rows: seq<Row>): (r: seq<string>)
    ensures |r| == |rows|
  {
    seq(|rows|, k requires 0 <= k < |rows| => rows[k].email)
  }

  /** `UPDATE user SET password = ? WHERE email = ?`, the comparison made under
      the table's case-insensitive collation; the email column is not written. */
  function SetPassword(rows: seq<Row>, email: string, password: string): (r: seq<Row>)
    ensures |r| == |rows|
  {
    seq(|rows|, k requires 0 <= k < |rows| =>
      if ToLower(rows[k].email) == ToLower(email) then Row(rows[k].email, password) else rows[k])
  }

  /** Under the unique index the UPDATE keyed by a row's own email rewrites
      that row's password and no other row. */
  lemma SetPasswordOneRow(rows: seq<Row>, i: nat, password: string)
    requires UniqueEmails(rows) && i < |rows|
    ensures SetPassword(rows, rows[i].email, password) == rows[i := Row(rows[i].email, password)]
  {
  }

  /** Rewriting passwords keeps the emails, hence the unique index. */
  lemma SetPasswordKeepsUnique(rows: seq<Row>, email: string, password: string)
    requires UniqueEmails(rows)
    ensures UniqueEmails(SetPassword(rows, email, password))
  {
  }

  /** An INSERT of a normalised email that matches no row keeps the index unique,
      and a later lookup of that email finds the new row. */
  lemma InsertNew(rows: seq<Row>, key: string, password: string)
    requires UniqueEmails(rows) && FirstMatch(rows, key) == None
    requires ToLower(key) == key
    ensures UniqueEmails(rows + [Row(key, password)])
    ensures FirstMatch(rows + [Row(key, password)], key) == Some(|rows|)
  {
    var rows' := rows + [Row(key, password)];
    forall i, j | 0 <= i < j < |rows'|
      ensures ToLower(rows'[i].email) != ToLower(rows'[j].email)
    {
      assert rows'[i] == rows[i];
      if j < |rows| {
        assert rows'[j] == rows[j];
      }
    }
    var r := FirstMatch(rows', key);
    assert ToLower(rows'[|rows|].email) == key;
    assert r.Some?;
  }

  // ---------------------------------------------------------------------
  // The server
  // ---------------------------------------------------------------------

  /**
   * What the login route does once row `i` of `before` matched: a hashed
   * column is checked with bcrypt and nothing is written; a legacy column is
   * compared as plaintext and, when it matches, rewritten to a bcrypt hash
   * before the token is issued, a failed UPDATE ending in a 500.
   */
  ghost predicate PasswordOutcome(crypto: Crypto, before: seq<Row>, after: seq<Row>, i: nat,
                                  password: string, salt: nat, now: nat, updateError: bool,
                                  res: Response)
    ensures PasswordOutcome(crypto, before, after, i, password, salt, now, updateError, res) ==>
      i < |after| == |before| && after[i].email == before[i].email
    ensures PasswordOutcome(crypto, before, after, i, password, salt, now, updateError, res) &&
            res.status == 200 ==>
      if LooksHashed(before[i].password) then crypto.compare(password, before[i].password)
      else password == before[i].password
  {
    && i < |before|
    && var row := before[i];
       var token := Response(200, TokenBody(crypto.sign(row.email, now)));
       && (LooksHashed(row.password) ==>
             after == before &&
             res == if crypto.compare(password, row.password) then token else InvalidLogin)
       && (!LooksHashed(row.password) && password != row.password ==>
             res == InvalidLogin && after == before)
       && (!LooksHashed(row.password) && password == row.password && updateError ==>
             res == LoginFailed && after == before)
       && (!LooksHashed(row.password) && password == row.password && !updateError ==>
             res == token && after == before[i := Row(row.email, crypto.hash(password, salt))])
  }

  /** What `authenticateToken` decides: call the route with the decoded
      claims as `req.user`, or answer the request itself. */
  datatype Guard = Pass(user: Claims) | Reject(response: Response)

  class Server {
    /** The `user` table, in the order a `SELECT` without `ORDER BY` returns it. */
    var users: seq<Row>
    const crypto: Crypto

    ghost predicate Valid()
      reads this
    {
      UniqueEmails(users)
    }

    constructor (crypto: Crypto, users: seq<Row>)
      requires UniqueEmails(users)
      ensures Valid() && this.crypto == crypto && this.users == users
    {
      this.crypto := crypto;
      this.users := users;
    }

    /**
     * `POST /api/create-account`. `storeError` stands for a database failure
     * other than a duplicate key (connection or INSERT); a duplicate is a row
     * whose lower-cased email equals the normalised one.
     */
    method CreateAccount(email: Option<string>, password: Option<string>, salt: nat, storeError: bool)
      returns (res: Response)
      requires Valid()
      modifies this
      ensures Valid()
      ensures MissingCredentials(email, password) ==> res == MissingFields && users == old(users)
      ensures !MissingCredentials(email, password) && storeError ==>
        res == CreateFailed && users == old(users)
      ensures (!MissingCredentials(email, password) && !storeError &&
               FirstMatch(old(users), NormalizeEmail(email)).Some?) ==>
        res == AccountExists && users == old(users)
      ensures (!MissingCredentials(email, password) && !storeError &&
               FirstMatch(old(users), NormalizeEmail(email)).None?) ==>
        res == AccountCreated &&
        users == old(users) + [Row(NormalizeEmail(email), crypto.hash(password.value, salt))] &&
        FirstMatch(users, NormalizeEmail(email)) == Some(|old(users)|)
    {
      var normalizedEmail := NormalizeEmail(email);
      if MissingCredentials(email, password) {
        res := MissingFields;
      } else if storeError {
        res := CreateFailed;
      } else if FirstMatch(users, normalizedEmail).Some? {
        // The INSERT fails with ER_DUP_ENTRY.
        res := AccountExists;
      } else {
        var hashedPassword := crypto.hash(password.value, salt);
        ToLowerIdempotent(Trim(email.GetOr("")));
        Insert(normalizedEmail, hashedPassword);
        res := AccountCreated;
      }
    }

    /** The INSERT of a new row whose normalised email matches no row. */
    method Insert(key: string, hashedPassword: string)
      requires Valid() && FirstMatch(users, key) == None && ToLower(key) == key
      modifies this
      ensures Valid()
      ensures users == old(users) + [Row(key, hashedPassword)]
      ensures FirstMatch(users, key) == Some(|old(users)|)
    {
      InsertNew(users, key, hashedPassword);
      users := users + [Row(key, hashedPassword)];
    }

    /** The rehash UPDATE of a legacy row: the password column of row `i`
        becomes a bcrypt hash of `password`, and nothing else changes. */
    method Rehash(i: nat, password: string, salt: nat)
      requires Valid() && i < |users|
      modifies this
      ensures Valid()
      ensures users == old(users)[i := Row(old(users)[i].email, crypto.hash(password, salt))]
    {
      var hashedPassword := crypto.hash(password, salt);
      SetPasswordOneRow(users, i, hashedPassword);
      SetPasswordKeepsUnique(users, users[i].email, hashedPassword);
      users := SetPassword(users, users[i].email, hashedPassword);
    }

    /**
     * `POST /api/login`. `lookupError` stands for a failure of the connection
     * or the SELECT, `updateError` for a failure of the rehash UPDATE; both
     * end in the 500 of the outer catch.
     */
    method Login(email: Option<string>, password: Option<string>, salt: nat, now: nat,
                 lookupError: bool, updateError: bool)
      returns (res: Response)
      requires Valid()
      modifies this
      ensures Valid()
      ensures MissingCredentials(email, password) ==> res == MissingFields && users == old(users)
      ensures !MissingCredentials(email, password) && lookupError ==>
        res == LoginFailed && users == old(users)
      ensures (!MissingCredentials(email, password) && !lookupError &&
               FirstMatch(old(users), NormalizeEmail(email)).None?) ==>
        res == InvalidLogin && users == old(users)
      ensures (!MissingCredentials(email, password) && !lookupError &&
               FirstMatch(old(users), NormalizeEmail(email)).Some?) ==>
        PasswordOutcome(crypto, old(users), users, FirstMatch(old(users), NormalizeEmail(email)).value,
                        password.value, salt, now, updateError, res)
    {
      var normalizedEmail := NormalizeEmail(email);
      if MissingCredentials(email, password) {
        res := MissingFields;
      } else if lookupError {
        res := LoginFailed;
      } else {
        var found := FirstMatch(users, normalizedEmail);
        if found.None? {
          res := InvalidLogin;
        } else {
          res := CheckPassword(found.value, password.value, salt, now, updateError);
        }
      }
    }

    /**
     * The part of `POST /api/login` after the row `i` was found: bcrypt for a
     * hashed column, plain equality for a legacy one, then the rehash UPDATE
     * of a legacy row and the signed token.
     */
    method CheckPassword(i: nat, password: string, salt: nat, now: nat, updateError: bool)
      returns (res: Response)
      requires Valid() && i < |users|
      modifies this
      ensures Valid()
      ensures PasswordOutcome(crypto, old(users), users, i, password, salt, now, updateError, res)
    {
      var user := users[i];
      var storedPassword := user.password;
      var looksHashed := LooksHashed(storedPassword);

      var isPasswordValid := false;
      var shouldRehash := false;
      if looksHashed {
        isPasswordValid := crypto.compare(password, storedPassword);
      } else {
        // Backward compatibility for legacy plaintext passwords.
        isPasswordValid := password == storedPassword;
        shouldRehash := isPasswordValid;
      }

      if !isPasswordValid {
        return InvalidLogin;
      }
      if shouldRehash {
        if updateError {
          return LoginFailed;
        }
        Rehash(i, password, salt);
      }
      res := Response(200, TokenBody(crypto.sign(user.email, now)));
    }

    /**
     * The `authenticateToken` middleware at time `now`: the route runs with
     * `req.user` set to the decoded claims, or the request is answered here.
     * `lookupError` stands for a failure of the connection or of the account
     * re-check.
     */
    function Authenticate(header: Option<string>, now: nat, lookupError: bool): (g: Guard)
      reads this
      ensures ExtractToken(header).None? ==> g == Reject(NoToken)
      ensures ExtractToken(header).Some? && crypto.verify(ExtractToken(header).value, now).None? ==>
        g == Reject(BadToken)
      ensures ExtractToken(header).Some? && crypto.verify(ExtractToken(header).value, now).Some? ==>
        var claims := crypto.verify(ExtractToken(header).value, now).value;
        && (lookupError ==> g == Reject(GuardFailed))
        && (!lookupError && FirstMatch(users, NormalizeEmail(claims.email)).None? ==> g == Reject(NoAccount))
        && (!lookupError && FirstMatch(users, NormalizeEmail(claims.email)).Some? ==> g == Pass(claims))
      ensures g.Pass? ==>
        ExtractToken(header).Some? && !lookupError &&
        crypto.verify(ExtractToken(header).value, now) == Some(g.user) &&
        exists j :: 0 <= j < |users| && ToLower(users[j].email) == NormalizeEmail(g.user.email)
    {
      match ExtractToken(header)
      case None => Reject(NoToken)
      case Some(token) =>
        match crypto.verify(token, now)
        case None => Reject(BadToken)
        case Some(decoded) =>
          if lookupError then Reject(GuardFailed)
          else if FirstMatch(users, NormalizeEmail(decoded.email)).None? then Reject(NoAccount)
          else Pass(decoded)
    }

    /** `GET /api/auth/me`: behind the middleware, an echo of the token's
        `email` claim as the token carries it. */
    function Me(header: Option<string>, now: nat, lookupError: bool): (res: Response)
      reads this
      ensures res.status == 200 <==> Authenticate(header, now, lookupError).Pass?
      ensures res.status == 200 ==> res.body == EmailEcho(Authenticate(header, now, lookupError).user.email)
      ensures res.status != 200 ==> res == Authenticate(header, now, lookupError).response
    {
      match Authenticate(header, now, lookupError)
      case Reject(response) => response
      case Pass(user) => Response(200, EmailEcho(user.email))
    }

    /** `GET /api/users`: behind the middleware, every stored email in table
        order. `listError` stands for a failure of the SELECT. */
    function ListUsers(header: Option<string>, now: nat, lookupError: bool, listError: bool): (res: Response)
      reads this
      ensures res.status == 200 <==> Authenticate(header, now, lookupError).Pass? && !listError
      ensures res.status == 200 ==>
        (res.body.EmailList? && |res.body.emails| == |users| &&
         forall k :: 0 <= k < |users| ==> res.body.emails[k] == users[k].email)
      ensures Authenticate(header, now, lookupError).Reject? ==>
        res == Authenticate(header, now, lookupError).response
      ensures Authenticate(header, now, lookupError).Pass? && listError ==> res == ListFailed
    {
      match Authenticate(header, now, lookupError)
      case Reject(response) => response
      case Pass(_) => if listError then ListFailed else Response(200, EmailList(Emails(users)))
    }
  }

  // ---------------------------------------------------------------------
  // Request sequences
  // ---------------------------------------------------------------------

  /**
   * Creating an account and logging in with the same password and the email
   * in any case and spacing succeeds; the token names the normalised email and
   * opens `/api/auth/me` until it expires.
   */
  method SignUpThenLogIn(s: Server, signUpEmail: string, loginEmail: string, password: string,
                         salt: nat, now: nat, later: nat)
      returns (created: Response, loggedIn: Response, me: Response)
    requires s.Valid() && Sound(s.crypto)
    requires !MissingCredentials(Some(signUpEmail), Some(password))
    requires NormalizeEmail(Some(loginEmail)) == NormalizeEmail(Some(signUpEmail))
    requires FirstMatch(s.users, NormalizeEmail(Some(signUpEmail))) == None
    requires now <= later < now + TokenLifetime
    modifies s
    ensures created == AccountCreated
    ensures loggedIn == Response(200, TokenBody(s.crypto.sign(NormalizeEmail(Some(signUpEmail)), now)))
    ensures me == Response(200, EmailEcho(Some(NormalizeEmail(Some(signUpEmail)))))
  {
    var key := NormalizeEmail(Some(signUpEmail));
    NormalizeEmailIdempotent(Some(signUpEmail));
    created := s.CreateAccount(Some(signUpEmail), Some(password), salt, false);
    var stored := s.crypto.hash(password, salt);
    assert s.users == old(s.users) + [Row(key, stored)] && FirstMatch(s.users, key) == Some(|old(s.users)|);
    var i := |old(s.users)|;
    assert s.users[i] == Row(key, stored);
    assert FirstMatch(s.users, NormalizeEmail(Some(loginEmail))) == Some(i);
    assert LooksHashed(stored) && s.crypto.compare(password, stored);
    ghost var table := s.users;
    loggedIn := s.Login(Some(loginEmail), Some(password), salt, now, false, false);
    assert s.users == table;
    var token := s.crypto.sign(key, now);
    BearerTokenStripsScheme(token);
    assert ExtractToken(Some("Bearer " + token)) == Some(token);
    assert s.crypto.verify(token, later) == Some(Claims(Some(key)));
    assert FirstMatch(s.users, NormalizeEmail(Some(key))) == Some(i);
    me := s.Me(Some("Bearer " + token), later, false);
  }

  /**
   * A legacy row whose password column holds the plaintext logs in with that
   * plaintext; afterwards the column holds a bcrypt hash, no longer the
   * plaintext, and the same password logs in again through bcrypt.
   */
  method LegacyPasswordMigrates(s: Server, email: string, password: string, i: nat,
                                salt: nat, salt2: nat, now: nat)
      returns (first: Response, second: Response)
    requires s.Valid() && SoundHasher(s.crypto)
    requires !MissingCredentials(Some(email), Some(password))
    requires FirstMatch(s.users, NormalizeEmail(Some(email))) == Some(i)
    requires s.users[i].password == password && !LooksHashed(password)
    modifies s
    ensures first.status == 200 && second.status == 200
    ensures i < |s.users| && s.users[i] == Row(old(s.users[i].email), s.crypto.hash(password, salt))
    ensures LooksHashed(s.users[i].password) && s.users[i].password != password
  {
    first := s.Login(Some(email), Some(password), salt, now, false, false);
    FirstMatchUnique(s.users, NormalizeEmail(Some(email)), i);
    second := s.Login(Some(email), Some(password), salt2, now, false, false);
  }

  /** From one lifetime after signing on, a token the server issued is refused
      with 403 even though its account exists. */
  method ExpiredTokenRefused(s: Server, email: string, signedAt: nat, now: nat)
      returns (me: Response)
    requires s.Valid() && SoundSigner(s.crypto)
    requires signedAt + TokenLifetime <= now
    ensures me == BadToken
  {
    var token := s.crypto.sign(email, signedAt);
    BearerTokenStripsScheme(token);
    me := s.Me(Some("Bearer " + token), now, false);
  }
}
