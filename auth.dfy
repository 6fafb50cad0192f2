/**
 * `AuthController.register` and `AuthController.login`. Each request runs a
 * short state machine: validate; create the user (register) or look it up
 * and compare the password (login); generate the access token; persist a
 * refresh-token row; generate the refresh token naming that row; set two
 * cookies; respond. Any throw inside the try goes to `next`.
 *
 * The collaborators the controller calls but whose code is not part of this
 * model (token signing, the password comparison, the lookup by email, and
 * whether a database write fails) are the fields of an `Env`. The
 * controller records every observable step of a request, in order, in its
 * `trace`; the user and refresh-token tables are the two stores it writes.
 */
module Auth {
  import opened Wrappers
  import opened Http
  import opened Decimal
  import opened Users
  import opened RefreshTokens

  /** A register or login request: its body and what `validationResult(req)` reported. */
  datatype Request = Request(body: UserData, validationErrors: seq<ErrorEntry>)

  /** A JWT payload: `{sub, role}`, plus `id` for a refresh token. */
  datatype Claims = Claims(sub: string, role: Role, id: Option<string>)

  /** What the environment decides for one request. */
  datatype Env = Env(
    hash: Hasher,
    userSaveFault: Option<HttpError>,
    findByEmail: string -> Result<Option<User>, HttpError>,
    comparePassword: (string, string) -> Result<bool, HttpError>,
    generateAccessToken: Claims -> Result<string, HttpError>,
    refreshTimes: RecordTimes,
    refreshSaveFault: Option<HttpError>,
    generateRefreshToken: Claims -> Result<string, HttpError>)

  /** One observable step of a request. */
  datatype Effect =
    | UserCreated(user: User)
    | AccessTokenGenerated(claims: Claims, token: string)
    | RefreshRecordPersisted(record: RefreshToken)
    | RefreshTokenGenerated(claims: Claims, token: string)
    | CookieSet(cookie: Cookie)
    | Responded(status: int, body: Body)
    | Forwarded(error: HttpError)

  const CredentialsMismatch: string := "Email and password doesn't match"

  /** `maxAge` of the `accessToken` cookie: one hour in milliseconds. */
  const AccessMaxAge: int := 1000 * 60 * 60

  /** `maxAge` of the `refreshToken` cookie: 365 days in milliseconds. */
  const RefreshMaxAge: int := 1000 * 60 * 60 * 24 * 365

  /** `{sub: String(user.id), role: user.role}`: `sub` reads back as the user's id. */
  function AccessClaims(user: User): (claims: Claims)
    ensures forall i :: 0 <= i < |claims.sub| ==> IsDigit(claims.sub[i])
    ensures ParseNat(claims.sub) == user.id
    ensures claims.role == user.role && claims.id.None?
  {
    ParseNatToString(user.id);
    Claims(NatToString(user.id), user.role, None)
  }

  /** `{...payload, id: String(record.id)}`: the payload's claims, plus an `id` that reads back as the row's id. */
  function RefreshClaims(payload: Claims, record: RefreshToken): (claims: Claims)
    ensures claims.sub == payload.sub && claims.role == payload.role
    ensures claims.id.Some? && forall i :: 0 <= i < |claims.id.value| ==> IsDigit(claims.id.value[i])
    ensures ParseNat(claims.id.value) == record.id
  {
    ParseNatToString(record.id);
    payload.(id := Some(NatToString(record.id)))
  }

  /** `res.cookie(name, token, {domain: "localhost", sameSite: "strict", maxAge, httpOnly: true})`. */
  function TokenCookie(name: string, token: string, maxAge: int): (cookie: Cookie)
    ensures cookie.name == name && cookie.value == token && cookie.options.maxAge == maxAge
    ensures cookie.options.httpOnly && cookie.options.sameSite == Strict && cookie.options.domain == "localhost"
  {
    Cookie(name, token, CookieOptions("localhost", Strict, maxAge, true))
  }

  /** The last step: generate the refresh token naming `record`, set both cookies, respond. */
  function MintEffects(user: User, status: int, env: Env, payload: Claims, access: string, record: RefreshToken): (steps: seq<Effect>)
    ensures |steps| >= 1
    ensures steps[|steps| - 1].Forwarded? || steps[|steps| - 1] == Responded(status, IdBody(user.id))
    ensures steps[|steps| - 1].Responded? <==> env.generateRefreshToken(RefreshClaims(payload, record)).Success?
    ensures steps[0].RefreshTokenGenerated? ==> steps[0].claims.id == Some(NatToString(record.id))
  {
    var refreshPayload := RefreshClaims(payload, record);
    match env.generateRefreshToken(refreshPayload)
    case Failure(e) => [Forwarded(e)]
    case Success(refresh) =>
      [RefreshTokenGenerated(refreshPayload, refresh),
       CookieSet(TokenCookie("accessToken", access, AccessMaxAge)),
       CookieSet(TokenCookie("refreshToken", refresh, RefreshMaxAge)),
       Responded(status, IdBody(user.id))]
  }

  /** Persist the refresh row under id `recordId`, then mint. */
  function PersistEffects(user: User, status: int, env: Env, payload: Claims, access: string, recordId: nat): (steps: seq<Effect>)
    ensures |steps| >= 1
    ensures steps[0].RefreshRecordPersisted? <==> env.refreshSaveFault.None?
    ensures steps[0].RefreshRecordPersisted? ==> steps[0].record.id == recordId && steps[0].record.userId == user.id
    ensures steps[|steps| - 1].Forwarded? || steps[|steps| - 1] == Responded(status, IdBody(user.id))
  {
    match PersistOutcome(user, env.refreshTimes, env.refreshSaveFault, recordId)
    case Failure(e) => [Forwarded(e)]
    case Success(record) => [RefreshRecordPersisted(record)] + MintEffects(user, status, env, payload, access, record)
  }

  /**
   * The token steps shared by both flows, for `user`, answering `status`,
   * when the refresh table's next id is `recordId`.
   */
  function IssueEffects(user: User, status: int, env: Env, recordId: nat): (steps: seq<Effect>)
    ensures |steps| >= 1
    ensures steps[0].AccessTokenGenerated? <==> env.generateAccessToken(AccessClaims(user)).Success?
    ensures steps[|steps| - 1].Forwarded? || steps[|steps| - 1] == Responded(status, IdBody(user.id))
  {
    var payload := AccessClaims(user);
    match env.generateAccessToken(payload)
    case Failure(e) => [Forwarded(e)]
    case Success(access) => [AccessTokenGenerated(payload, access)] + PersistEffects(user, status, env, payload, access, recordId)
  }

  /** The `try` block of `register`: create the user, then the token steps. */
  function CreateEffects(data: UserData, env: Env, userId: nat, recordId: nat): (steps: seq<Effect>)
    ensures |steps| >= 1
    ensures steps[0].UserCreated? <==> CreateOutcome(data, env.hash, env.userSaveFault, userId).Success?
    ensures steps[|steps| - 1].Forwarded? || (steps[|steps| - 1].Responded? && steps[|steps| - 1].status == 201)
  {
    match CreateOutcome(data, env.hash, env.userSaveFault, userId)
    case Failure(e) => [Forwarded(e)]
    case Success(user) => [UserCreated(user)] + IssueEffects(user, 201, env, recordId)
  }

  /** The steps of `register` when the next user id is `userId` and the next refresh id `recordId`. */
  function RegisterEffects(req: Request, env: Env, userId: nat, recordId: nat): (steps: seq<Effect>)
    ensures |steps| >= 1
    ensures steps[0].UserCreated? <==>
      req.validationErrors == [] && CreateOutcome(req.body, env.hash, env.userSaveFault, userId).Success?
  {
    if req.validationErrors != [] then [Responded(400, ErrorsBody(req.validationErrors))]
    else CreateEffects(req.body, env, userId, recordId)
  }

  /** The steps of `login` when the next refresh id is `recordId`. */
  function LoginEffects(req: Request, env: Env, recordId: nat): (steps: seq<Effect>)
    ensures |steps| >= 1 && !steps[0].UserCreated?
    ensures steps[0].AccessTokenGenerated? ==>
      && req.validationErrors == []
      && env.findByEmail(req.body.email).Success? && env.findByEmail(req.body.email).value.Some?
      && env.comparePassword(req.body.password, env.findByEmail(req.body.email).value.value.password) == Success(true)
  {
    if req.validationErrors != [] then [Responded(400, ErrorsBody(req.validationErrors))]
    else
      match env.findByEmail(req.body.email)
      case Failure(e) => [Forwarded(e)]
      case Success(None) => [Forwarded(BadRequest(CredentialsMismatch))]
      case Success(Some(user)) =>
        match env.comparePassword(req.body.password, user.password)
        case Failure(e) => [Forwarded(e)]
        case Success(matched) =>
          if !matched then [Forwarded(BadRequest(CredentialsMismatch))]
          else IssueEffects(user, 200, env, recordId)
  }

  /** The users a sequence of steps inserted, in order. */
  function CreatedUsers(effects: seq<Effect>): seq<User>
  {
    if effects == [] then []
    else (if effects[0].UserCreated? then [effects[0].user] else []) + CreatedUsers(effects[1..])
  }

  /** The refresh-token rows a sequence of steps inserted, in order. */
  function PersistedRecords(effects: seq<Effect>): seq<RefreshToken>
  {
    if effects == [] then []
    else (if effects[0].RefreshRecordPersisted? then [effects[0].record] else []) + PersistedRecords(effects[1..])
  }

  lemma {:induction false} CreatedUsersAppend(a: seq<Effect>, b: seq<Effect>)
    ensures CreatedUsers(a + b) == CreatedUsers(a) + CreatedUsers(b)
  {
    if a == [] {
      assert a + b == b;
    } else {
      assert (a + b)[0] == a[0];
      assert (a + b)[1..] == a[1..] + b;
      CreatedUsersAppend(a[1..], b);
    }
  }

  lemma {:induction false} PersistedRecordsAppend(a: seq<Effect>, b: seq<Effect>)
    ensures PersistedRecords(a + b) == PersistedRecords(a) + PersistedRecords(b)
  {
    if a == [] {
      assert a + b == b;
    } else {
      assert (a + b)[0] == a[0];
      assert (a + b)[1..] == a[1..] + b;
      PersistedRecordsAppend(a[1..], b);
    }
  }

  /**
   * Concatenation of traces regroups freely. The controller methods call it
   * after a nested call, so that the regrouping is not rediscovered by
   * extensionality inside each method.
   */
  lemma AppendAssoc(a: seq<Effect>, b: seq<Effect>, c: seq<Effect>)
    ensures (a + b) + c == a + (b + c)
  {
  }

  /** The writes of one step followed by more steps. */
  lemma FiltersAppend(e: Effect, rest: seq<Effect>)
    ensures CreatedUsers([e] + rest) == (if e.UserCreated? then [e.user] else []) + CreatedUsers(rest)
    ensures PersistedRecords([e] + rest) == (if e.RefreshRecordPersisted? then [e.record] else []) + PersistedRecords(rest)
  {
    assert ([e] + rest)[0] == e;
    assert ([e] + rest)[1..] == rest;
  }

  /** Steps that neither create a user nor persist a row write nothing. */
  lemma {:induction false} NoWrites(effects: seq<Effect>)
    requires forall i :: 0 <= i < |effects| ==> !effects[i].UserCreated? && !effects[i].RefreshRecordPersisted?
    ensures CreatedUsers(effects) == [] && PersistedRecords(effects) == []
  {
    if effects != [] {
      NoWrites(effects[1..]);
    }
  }

  /** Persisting and minting create no user and insert exactly the row persisted, if any. */
  lemma PersistWrites(user: User, status: int, env: Env, payload: Claims, access: string, recordId: nat)
    ensures CreatedUsers(PersistEffects(user, status, env, payload, access, recordId)) == []
    ensures PersistedRecords(PersistEffects(user, status, env, payload, access, recordId)) ==
      if env.refreshSaveFault.None?
      then [PersistOutcome(user, env.refreshTimes, env.refreshSaveFault, recordId).value]
      else []
  {
    match PersistOutcome(user, env.refreshTimes, env.refreshSaveFault, recordId)
    case Failure(e) =>
    case Success(record) =>
      FiltersAppend(RefreshRecordPersisted(record), MintEffects(user, status, env, payload, access, record));
      NoWrites(MintEffects(user, status, env, payload, access, record));
  }

  /** The token steps create no user and insert at most the one row they persist. */
  lemma IssueWrites(user: User, status: int, env: Env, recordId: nat)
    ensures CreatedUsers(IssueEffects(user, status, env, recordId)) == []
    ensures PersistedRecords(IssueEffects(user, status, env, recordId)) ==
      if env.generateAccessToken(AccessClaims(user)).Success? && env.refreshSaveFault.None?
      then [PersistOutcome(user, env.refreshTimes, env.refreshSaveFault, recordId).value]
      else []
  {
    var payload := AccessClaims(user);
    match env.generateAccessToken(payload)
    case Failure(e) =>
    case Success(access) =>
      FiltersAppend(AccessTokenGenerated(payload, access), PersistEffects(user, status, env, payload, access, recordId));
      PersistWrites(user, status, env, payload, access, recordId);
  }

  /** The `try` block of register inserts the created user, if any, and whatever the token steps persist. */
  lemma CreateWrites(data: UserData, env: Env, userId: nat, recordId: nat)
    ensures var created := CreateOutcome(data, env.hash, env.userSaveFault, userId);
      && CreatedUsers(CreateEffects(data, env, userId, recordId)) ==
           (if created.Success? then [created.value] else [])
      && PersistedRecords(CreateEffects(data, env, userId, recordId)) ==
           (if created.Success? then PersistedRecords(IssueEffects(created.value, 201, env, recordId)) else [])
  {
    var created := CreateOutcome(data, env.hash, env.userSaveFault, userId);
    if created.Success? {
      FiltersAppend(UserCreated(created.value), IssueEffects(created.value, 201, env, recordId));
      IssueWrites(created.value, 201, env, recordId);
    }
  }

  /** Login inserts no user, and only what the token steps persist. */
  lemma LoginWrites(req: Request, env: Env, recordId: nat)
    ensures CreatedUsers(LoginEffects(req, env, recordId)) == []
    ensures PersistedRecords(LoginEffects(req, env, recordId)) ==
      if LoginEffects(req, env, recordId)[0].AccessTokenGenerated?
      then PersistedRecords(IssueEffects(env.findByEmail(req.body.email).value.value, 200, env, recordId))
      else []
  {
    if req.validationErrors == [] && env.findByEmail(req.body.email).Success?
       && env.findByEmail(req.body.email).value.Some? {
      var user := env.findByEmail(req.body.email).value.value;
      if env.comparePassword(req.body.password, user.password) == Success(true) {
        IssueWrites(user, 200, env, recordId);
      }
    }
  }

  class AuthController {
    const userService: UserService
    /** The refresh-token table that `presistRefreshToken` inserts into. */
    const tokenStore: RefreshTokenStore
    /** Every observable step of every request handled so far, in order. */
    var trace: seq<Effect>

    ghost predicate Valid()
      reads userService.repository, tokenStore
    {
      userService.repository.Valid() && tokenStore.Valid()
    }

    constructor (userService: UserService, tokenStore: RefreshTokenStore)
      requires userService.repository.Valid() && tokenStore.Valid()
      ensures Valid() && trace == []
      ensures this.userService == userService && this.tokenStore == tokenStore
    {
      this.userService := userService;
      this.tokenStore := tokenStore;
      trace := [];
    }

    /** Generate the refresh token for `record`, set both cookies, respond. */
    method Mint(user: User, status: int, env: Env, payload: Claims, access: string, record: RefreshToken)
      modifies this
      ensures trace == old(trace) + MintEffects(user, status, env, payload, access, record)
    {
      var refreshPayload := RefreshClaims(payload, record);
      var refresh := env.generateRefreshToken(refreshPayload);
      if refresh.Failure? {
        trace := trace + [Forwarded(refresh.error)];
        return;
      }
      trace := trace + [RefreshTokenGenerated(refreshPayload, refresh.value)];
      trace := trace + [CookieSet(TokenCookie("accessToken", access, AccessMaxAge))];
      trace := trace + [CookieSet(TokenCookie("refreshToken", refresh.value, RefreshMaxAge))];
      trace := trace + [Responded(status, IdBody(user.id))];
    }

    /** Persist the refresh-token row, then mint. */
    method PersistAndMint(user: User, status: int, env: Env, payload: Claims, access: string)
      requires Valid()
      modifies this, tokenStore
      ensures Valid()
      ensures trace == old(trace) + PersistEffects(user, status, env, payload, access, old(tokenStore.nextId))
      ensures tokenStore.rows == old(tokenStore.rows) +
                PersistedRecords(PersistEffects(user, status, env, payload, access, old(tokenStore.nextId)))
      ensures tokenStore.nextId ==
                old(tokenStore.nextId) + |PersistedRecords(PersistEffects(user, status, env, payload, access, old(tokenStore.nextId)))|
    {
      PersistWrites(user, status, env, payload, access, tokenStore.nextId);
      var record := tokenStore.Persist(user, env.refreshTimes, env.refreshSaveFault);
      if record.Failure? {
        trace := trace + [Forwarded(record.error)];
        return;
      }
      ghost var before := trace;
      trace := trace + [RefreshRecordPersisted(record.value)];
      Mint(user, status, env, payload, access, record.value);
      AppendAssoc(before, [RefreshRecordPersisted(record.value)], MintEffects(user, status, env, payload, access, record.value));
    }

    /** Lines 49-78 of register and 121-154 of login, which are the same apart from the status. */
    method Issue(user: User, status: int, env: Env)
      requires Valid()
      modifies this, tokenStore
      ensures Valid()
      ensures trace == old(trace) + IssueEffects(user, status, env, old(tokenStore.nextId))
      ensures tokenStore.rows == old(tokenStore.rows) + PersistedRecords(IssueEffects(user, status, env, old(tokenStore.nextId)))
      ensures tokenStore.nextId == old(tokenStore.nextId) + |PersistedRecords(IssueEffects(user, status, env, old(tokenStore.nextId)))|
    {
      var payload := AccessClaims(user);
      var access := env.generateAccessToken(payload);
      if access.Failure? {
        trace := trace + [Forwarded(access.error)];
        return;
      }
      FiltersAppend(AccessTokenGenerated(payload, access.value), PersistEffects(user, status, env, payload, access.value, tokenStore.nextId));
      ghost var before := trace;
      trace := trace + [AccessTokenGenerated(payload, access.value)];
      PersistAndMint(user, status, env, payload, access.value);
      AppendAssoc(before, [AccessTokenGenerated(payload, access.value)],
                  PersistEffects(user, status, env, payload, access.value, old(tokenStore.nextId)));
    }

    /** The `try` block of `register` (lines 39-82). */
    method CreateAndIssue(data: UserData, env: Env)
      requires Valid()
      modifies this, userService.repository, tokenStore
      ensures Valid()
      ensures trace == old(trace) + CreateEffects(data, env, old(userService.repository.nextId), old(tokenStore.nextId))
      ensures userService.repository.rows == old(userService.repository.rows) +
                CreatedUsers(CreateEffects(data, env, old(userService.repository.nextId), old(tokenStore.nextId)))
      ensures tokenStore.rows == old(tokenStore.rows) +
                PersistedRecords(CreateEffects(data, env, old(userService.repository.nextId), old(tokenStore.nextId)))
      ensures userService.repository.nextId == old(userService.repository.nextId) +
                |CreatedUsers(CreateEffects(data, env, old(userService.repository.nextId), old(tokenStore.nextId)))|
      ensures tokenStore.nextId == old(tokenStore.nextId) +
                |PersistedRecords(CreateEffects(data, env, old(userService.repository.nextId), old(tokenStore.nextId)))|
    {
      CreateWrites(data, env, userService.repository.nextId, tokenStore.nextId);
      var created := userService.Create(data, env.hash, env.userSaveFault);
      if created.Failure? {
        trace := trace + [Forwarded(created.error)];
        return;
      }
      ghost var before := trace;
      trace := trace + [UserCreated(created.value)];
      Issue(created.value, 201, env);
      AppendAssoc(before, [UserCreated(created.value)], IssueEffects(created.value, 201, env, old(tokenStore.nextId)));
    }

    /** `AuthController.register`. */
    method Register(req: Request, env: Env)
      requires Valid()
      modifies this, userService.repository, tokenStore
      ensures Valid()
      ensures trace == old(trace) + RegisterEffects(req, env, old(userService.repository.nextId), old(tokenStore.nextId))
      ensures userService.repository.rows == old(userService.repository.rows) +
                CreatedUsers(RegisterEffects(req, env, old(userService.repository.nextId), old(tokenStore.nextId)))
      ensures tokenStore.rows == old(tokenStore.rows) +
                PersistedRecords(RegisterEffects(req, env, old(userService.repository.nextId), old(tokenStore.nextId)))
      ensures userService.repository.nextId == old(userService.repository.nextId) +
                |CreatedUsers(RegisterEffects(req, env, old(userService.repository.nextId), old(tokenStore.nextId)))|
      ensures tokenStore.nextId == old(tokenStore.nextId) +
                |PersistedRecords(RegisterEffects(req, env, old(userService.repository.nextId), old(tokenStore.nextId)))|
    {
      if req.validationErrors != [] {
        trace := trace + [Responded(400, ErrorsBody(req.validationErrors))];
        return;
      }
      CreateAndIssue(req.body, env);
    }

    /** `AuthController.login`; it writes no user row. */
    method Login(req: Request, env: Env)
      requires Valid()
      modifies this, tokenStore
      ensures Valid()
      ensures trace == old(trace) + LoginEffects(req, env, old(tokenStore.nextId))
      ensures tokenStore.rows == old(tokenStore.rows) + PersistedRecords(LoginEffects(req, env, old(tokenStore.nextId)))
      ensures tokenStore.nextId == old(tokenStore.nextId) + |PersistedRecords(LoginEffects(req, env, old(tokenStore.nextId)))|
    {
      if req.validationErrors != [] {
        trace := trace + [Responded(400, ErrorsBody(req.validationErrors))];
        return;
      }
      var found := env.findByEmail(req.body.email);
      if found.Failure? {
        trace := trace + [Forwarded(found.error)];
        return;
      }
      if found.value.None? {
        trace := trace + [Forwarded(BadRequest(CredentialsMismatch))];
        return;
      }
      var user := found.value.value;
      var matched := env.comparePassword(req.body.password, user.password);
      if matched.Failure? {
        trace := trace + [Forwarded(matched.error)];
        return;
      }
      if !matched.value {
        trace := trace + [Forwarded(BadRequest(CredentialsMismatch))];
        return;
      }
      Issue(user, 200, env);
    }
  }
}
