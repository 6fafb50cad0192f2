/**
 * What the register and login flows promise, stated over the step
 * sequences `RegisterEffects` and `LoginEffects` that the controller's
 * methods are proved to append to their trace.
 */
module AuthProperties {
  import opened Wrappers
  import opened Http
  import opened Decimal
  import opened Users
  import opened RefreshTokens
  import opened Auth

  predicate Terminal(e: Effect)
  {
    e.Responded? || e.Forwarded?
  }

  /** Exactly one response or `next(err)`, and it is the last step. */
  ghost predicate RespondsOnce(effects: seq<Effect>)
  {
    && |effects| >= 1
    && Terminal(effects[|effects| - 1])
    && forall i :: 0 <= i < |effects| - 1 ==> !Terminal(effects[i])
  }

  /**
   * A refresh token is generated right after its row is persisted, and its
   * `id` claim is that row's id.
   */
  ghost predicate MintedAfterPersist(effects: seq<Effect>)
  {
    forall j :: 0 <= j < |effects| && effects[j].RefreshTokenGenerated? ==>
      && 0 < j
      && effects[j - 1].RefreshRecordPersisted?
      && effects[j].claims.id == Some(NatToString(effects[j - 1].record.id))
  }

  /**
   * An error forwarded to `next` comes with no cookie and no response; a
   * cookie is set only after all three token steps succeeded.
   */
  ghost predicate NoPartialEmission(effects: seq<Effect>)
  {
    && ((exists i :: 0 <= i < |effects| && effects[i].Forwarded?) ==>
          forall j :: 0 <= j < |effects| ==> !effects[j].CookieSet? && !effects[j].Responded?)
    && forall j :: 0 <= j < |effects| && effects[j].CookieSet? ==>
          exists a, p, m :: 0 <= a < p < m < j
            && effects[a].AccessTokenGenerated?
            && effects[p].RefreshRecordPersisted?
            && effects[m].RefreshTokenGenerated?
  }

  /**
   * Every cookie is httpOnly, sameSite strict, for domain localhost, and is
   * either `accessToken` for 3,600,000 ms or `refreshToken` for
   * 31,536,000,000 ms.
   */
  ghost predicate CookiesAsSet(effects: seq<Effect>)
  {
    forall j :: 0 <= j < |effects| && effects[j].CookieSet? ==>
      var c := effects[j].cookie;
      && c.options.domain == "localhost"
      && c.options.sameSite == Strict
      && c.options.httpOnly
      && ((c.name == "accessToken" && c.options.maxAge == 3600000)
          || (c.name == "refreshToken" && c.options.maxAge == 31536000000))
  }

  ghost predicate WellFormed(effects: seq<Effect>)
  {
    RespondsOnce(effects) && MintedAfterPersist(effects) && NoPartialEmission(effects) && CookiesAsSet(effects)
  }

  /** The request ended with a `{id}` response. */
  predicate Succeeded(effects: seq<Effect>)
  {
    |effects| > 0 && effects[|effects| - 1].Responded? && effects[|effects| - 1].body.IdBody?
  }

  /**
   * The six token steps, in order, for `user`: access token over
   * `{sub: String(user.id), role}`, the row `recordId` linked to the user,
   * the refresh token over the same payload plus `id: String(recordId)`,
   * the two cookies carrying exactly those tokens, then `{id: user.id}`.
   */
  ghost predicate IssuedFor(e: seq<Effect>, user: User, recordId: nat, status: int)
  {
    && |e| == 6
    && e[0].AccessTokenGenerated? && e[0] == AccessTokenGenerated(Claims(NatToString(user.id), user.role, None), e[0].token)
    && e[1].RefreshRecordPersisted? && e[1].record.id == recordId && e[1].record.userId == user.id
    && e[2].RefreshTokenGenerated? && e[2] == RefreshTokenGenerated(Claims(NatToString(user.id), user.role, Some(NatToString(recordId))), e[2].token)
    && e[3] == CookieSet(Cookie("accessToken", e[0].token, CookieOptions("localhost", Strict, 3600000, true)))
    && e[4] == CookieSet(Cookie("refreshToken", e[2].token, CookieOptions("localhost", Strict, 31536000000, true)))
    && e[5] == Responded(status, IdBody(user.id))
  }

  /** The four ways the token steps can end. */
  lemma IssueCases(user: User, status: int, env: Env, recordId: nat)
    ensures var e := IssueEffects(user, status, env, recordId);
      || (|e| == 1 && e[0].Forwarded?)
      || (|e| == 2 && e[0].AccessTokenGenerated? && e[1].Forwarded?)
      || (|e| == 3 && e[0].AccessTokenGenerated? && e[1].RefreshRecordPersisted? && e[2].Forwarded?)
      || IssuedFor(e, user, recordId, status)
    ensures Succeeded(IssueEffects(user, status, env, recordId)) <==>
      && env.generateAccessToken(AccessClaims(user)).Success?
      && env.refreshSaveFault.None?
      && env.generateRefreshToken(Claims(NatToString(user.id), user.role, Some(NatToString(recordId)))).Success?
  {
  }

  /** A full six-step issue after at most one `UserCreated` sets cookies only after the three token steps. */
  lemma IssuedNoPartialEmission(prefix: seq<Effect>, tail: seq<Effect>, user: User, recordId: nat, status: int)
    requires prefix == [] || (|prefix| == 1 && prefix[0].UserCreated?)
    requires IssuedFor(tail, user, recordId, status)
    ensures NoPartialEmission(prefix + tail)
  {
    var k := |prefix|;
    var e := prefix + tail;
    forall j | 0 <= j < |e| && e[j].CookieSet?
      ensures exists a, p, m ::
                0 <= a < p < m < j && e[a].AccessTokenGenerated? && e[p].RefreshRecordPersisted? && e[m].RefreshTokenGenerated?
    {
      assert e[k].AccessTokenGenerated? && e[k + 1].RefreshRecordPersisted? && e[k + 2].RefreshTokenGenerated?;
    }
  }

  /** A full six-step issue after at most one `UserCreated` is well formed. */
  lemma IssuedWellFormed(prefix: seq<Effect>, tail: seq<Effect>, user: User, recordId: nat, status: int)
    requires prefix == [] || (|prefix| == 1 && prefix[0].UserCreated?)
    requires IssuedFor(tail, user, recordId, status)
    ensures WellFormed(prefix + tail)
  {
    assert (prefix + tail)[|prefix| + 1].record.id == recordId;
    IssuedNoPartialEmission(prefix, tail, user, recordId, status);
  }

  /** Prefixing the token steps with at most one `UserCreated` keeps every guarantee. */
  lemma IssueWellFormed(prefix: seq<Effect>, user: User, status: int, env: Env, recordId: nat)
    requires prefix == [] || (|prefix| == 1 && prefix[0].UserCreated?)
    ensures WellFormed(prefix + IssueEffects(user, status, env, recordId))
  {
    IssueCases(user, status, env, recordId);
    if IssuedFor(IssueEffects(user, status, env, recordId), user, recordId, status) {
      IssuedWellFormed(prefix, IssueEffects(user, status, env, recordId), user, recordId, status);
    }
  }

  /** Every register request runs a well-formed sequence of steps. */
  lemma RegisterWellFormed(req: Request, env: Env, userId: nat, recordId: nat)
    ensures WellFormed(RegisterEffects(req, env, userId, recordId))
  {
    if req.validationErrors == [] {
      match CreateOutcome(req.body, env.hash, env.userSaveFault, userId)
      case Failure(e) =>
      case Success(user) => IssueWellFormed([UserCreated(user)], user, 201, env, recordId);
    }
  }

  /** Every login request runs a well-formed sequence of steps. */
  lemma LoginWellFormed(req: Request, env: Env, recordId: nat)
    ensures WellFormed(LoginEffects(req, env, recordId))
  {
    if req.validationErrors == [] && env.findByEmail(req.body.email).Success?
       && env.findByEmail(req.body.email).value.Some? {
      var user := env.findByEmail(req.body.email).value.value;
      if env.comparePassword(req.body.password, user.password) == Success(true) {
        IssueWellFormed([], user, 200, env, recordId);
        assert [] + IssueEffects(user, 200, env, recordId) == IssueEffects(user, 200, env, recordId);
      }
    }
  }

  /**
   * Validation errors short-circuit both flows: a 400 with the errors array,
   * and nothing from the environment is consulted.
   */
  lemma ValidationFailureShortCircuits(req: Request, env: Env, other: Env, userId: nat, recordId: nat)
    requires req.validationErrors != []
    ensures RegisterEffects(req, env, userId, recordId) == [Responded(400, ErrorsBody(req.validationErrors))]
    ensures LoginEffects(req, env, recordId) == [Responded(400, ErrorsBody(req.validationErrors))]
    ensures RegisterEffects(req, other, userId, recordId) == RegisterEffects(req, env, userId, recordId)
    ensures LoginEffects(req, other, recordId) == LoginEffects(req, env, recordId)
  {
  }

  /**
   * Register answers 201 exactly when every collaborator succeeds, and then
   * it created the CUSTOMER user holding the digest and issued the tokens
   * for it.
   */
  lemma RegisterSuccess(req: Request, env: Env, userId: nat, recordId: nat)
    ensures Succeeded(RegisterEffects(req, env, userId, recordId)) <==>
      && req.validationErrors == []
      && env.hash(req.body.password, SaltRounds).Success?
      && env.userSaveFault.None?
      && env.generateAccessToken(Claims(NatToString(userId), Customer, None)).Success?
      && env.refreshSaveFault.None?
      && env.generateRefreshToken(Claims(NatToString(userId), Customer, Some(NatToString(recordId)))).Success?
    ensures Succeeded(RegisterEffects(req, env, userId, recordId)) ==>
      var e := RegisterEffects(req, env, userId, recordId);
      var user := User(userId, req.body.firstName, req.body.lastName, req.body.email,
                       env.hash(req.body.password, SaltRounds).value, Customer);
      && e[0] == UserCreated(user)
      && IssuedFor(e[1..], user, recordId, 201)
  {
    if req.validationErrors == [] {
      match CreateOutcome(req.body, env.hash, env.userSaveFault, userId)
      case Failure(err) =>
      case Success(user) =>
        IssueCases(user, 201, env, recordId);
        var e := RegisterEffects(req, env, userId, recordId);
        assert e[1..] == IssueEffects(user, 201, env, recordId);
    }
  }

  /**
   * Login answers 200 exactly when the email is known, the password matches
   * and every token step succeeds; then it issued the tokens for the stored
   * user, and it never creates a user.
   */
  lemma LoginSuccess(req: Request, env: Env, recordId: nat)
    ensures CreatedUsers(LoginEffects(req, env, recordId)) == []
    ensures Succeeded(LoginEffects(req, env, recordId)) <==>
      && req.validationErrors == []
      && env.findByEmail(req.body.email).Success?
      && env.findByEmail(req.body.email).value.Some?
      && var user := env.findByEmail(req.body.email).value.value;
      && env.comparePassword(req.body.password, user.password) == Success(true)
      && env.generateAccessToken(Claims(NatToString(user.id), user.role, None)).Success?
      && env.refreshSaveFault.None?
      && env.generateRefreshToken(Claims(NatToString(user.id), user.role, Some(NatToString(recordId)))).Success?
    ensures Succeeded(LoginEffects(req, env, recordId)) ==>
      && req.validationErrors == []
      && env.findByEmail(req.body.email).Success?
      && env.findByEmail(req.body.email).value.Some?
      && var user := env.findByEmail(req.body.email).value.value;
      && env.comparePassword(req.body.password, user.password) == Success(true)
      && IssuedFor(LoginEffects(req, env, recordId), user, recordId, 200)
  {
    LoginWrites(req, env, recordId);
    if req.validationErrors == [] && env.findByEmail(req.body.email).Success?
       && env.findByEmail(req.body.email).value.Some? {
      var user := env.findByEmail(req.body.email).value.value;
      if env.comparePassword(req.body.password, user.password) == Success(true) {
        IssueCases(user, 200, env, recordId);
      }
    }
  }

  /**
   * An unknown email and a wrong password end identically: the same 400
   * error forwarded, with nothing persisted, generated or set.
   */
  lemma CredentialFailuresIndistinguishable(req: Request, unknown: Env, mismatch: Env, recordId: nat)
    requires req.validationErrors == []
    requires unknown.findByEmail(req.body.email) == Success(None)
    requires mismatch.findByEmail(req.body.email).Success? && mismatch.findByEmail(req.body.email).value.Some?
    requires mismatch.comparePassword(req.body.password, mismatch.findByEmail(req.body.email).value.value.password) == Success(false)
    ensures LoginEffects(req, unknown, recordId) == [Forwarded(BadRequest("Email and password doesn't match"))]
    ensures LoginEffects(req, mismatch, recordId) == LoginEffects(req, unknown, recordId)
  {
  }

  /** On an unknown email the password comparison is never consulted. */
  lemma UnknownEmailSkipsComparison(req: Request, env: Env, compare: (string, string) -> Result<bool, HttpError>, recordId: nat)
    requires env.findByEmail(req.body.email) == Success(None)
    ensures LoginEffects(req, env.(comparePassword := compare), recordId) == LoginEffects(req, env, recordId)
  {
  }

  /**
   * The row is written before the refresh token exists: if generating the
   * refresh token then throws, the error is forwarded with no cookie, yet
   * the row stays in the table.
   */
  lemma MintFailureLeavesRow(user: User, status: int, env: Env, recordId: nat)
    requires env.generateAccessToken(AccessClaims(user)).Success? && env.refreshSaveFault.None?
    requires env.generateRefreshToken(Claims(NatToString(user.id), user.role, Some(NatToString(recordId)))).Failure?
    ensures var e := IssueEffects(user, status, env, recordId);
      && |e| == 3 && e[0].AccessTokenGenerated? && e[1].RefreshRecordPersisted? && e[2].Forwarded?
      && PersistedRecords(e) == [RefreshToken(recordId, env.refreshTimes.expiresAt, user.id,
                                              env.refreshTimes.createdAt, env.refreshTimes.updatedAt)]
  {
    IssueWrites(user, status, env, recordId);
  }
}
