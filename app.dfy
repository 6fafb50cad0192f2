/**
 * The application's own routes and its error-handling middleware: `GET /`,
 * and the handler that turns whatever reached `next(err)` into a status and
 * a one-entry `errors` body. The end-to-end lemmas below follow the
 * controller's and the user service's errors through that handler.
 */
module App {
  import opened Wrappers
  import opened Http
  import opened Decimal
  import opened Users
  import opened RefreshTokens
  import opened Auth
  import opened AuthProperties

  /** `err.statusCode` is truthy: `undefined` and 0 are falsy, every other number is truthy. */
  predicate HasStatus(err: HttpError): (truthy: bool)
    ensures err.statusCode.None? ==> !truthy
    ensures err.statusCode == Some(0) ==> !truthy
    ensures err.statusCode.Some? && err.statusCode.value != 0 ==> truthy
  {
    err.statusCode.Some? && err.statusCode.value != 0
  }

  /**
   * The error-handling middleware: status `err.statusCode || 500`, body
   * `{errors: [{type: err.name, msg: err.message, path: "", location: ""}]}`.
   */
  function HandleError(err: HttpError): (reply: Reply)
    ensures reply.status != 0
    ensures HasStatus(err) ==> reply.status == err.statusCode.value
    ensures !HasStatus(err) ==> reply.status == 500
    ensures reply.body.ErrorsBody? && |reply.body.errors| == 1
    ensures reply.body.errors[0].errorType == err.name && reply.body.errors[0].msg == err.message
    ensures reply.body.errors[0].path == "" && reply.body.errors[0].location == ""
  {
    var statusCode := if HasStatus(err) then err.statusCode.value else 500;
    Reply(statusCode, ErrorsBody([ErrorEntry(err.name, err.message, "", "")]))
  }

  /** `GET /`: `res.send` of a string, with Express's default status 200. */
  function Root(): (reply: Reply)
    ensures reply.status == 200 && reply.body == TextBody("Welcome to Auth services")
  {
    Reply(200, TextBody("Welcome to Auth services"))
  }

  /**
   * What the client receives for a request whose steps were `effects`: the
   * controller's own response, or the handler's rendering of the error
   * passed to `next`.
   */
  function ClientReply(effects: seq<Effect>): (reply: Option<Reply>)
    ensures reply.Some? <==> effects != [] && (effects[|effects| - 1].Responded? || effects[|effects| - 1].Forwarded?)
    ensures effects != [] && effects[|effects| - 1].Forwarded? ==>
      reply.value.status != 0 && reply.value.body.ErrorsBody? && |reply.value.body.errors| == 1
  {
    if effects == [] then None
    else
      match effects[|effects| - 1]
      case Responded(status, body) => Some(Reply(status, body))
      case Forwarded(err) => Some(HandleError(err))
      case _ => None
  }

  /** Every register and login request gets exactly one reply, never with status 0. */
  lemma EveryRequestReplied(req: Request, env: Env, userId: nat, recordId: nat)
    ensures ClientReply(RegisterEffects(req, env, userId, recordId)).Some?
    ensures ClientReply(LoginEffects(req, env, recordId)).Some?
    ensures ClientReply(RegisterEffects(req, env, userId, recordId)).value.status != 0
    ensures ClientReply(LoginEffects(req, env, recordId)).value.status != 0
  {
    RegisterWellFormed(req, env, userId, recordId);
    LoginWellFormed(req, env, recordId);
    IssueStatuses(req, env, userId, recordId);
    TerminalReplied(RegisterEffects(req, env, userId, recordId));
    TerminalReplied(LoginEffects(req, env, recordId));
  }

  /** A sequence that ends in a response or a forwarded error yields a reply; a forwarded one never has status 0. */
  lemma TerminalReplied(effects: seq<Effect>)
    requires RespondsOnce(effects)
    ensures ClientReply(effects).Some?
    ensures effects[|effects| - 1].Responded? ==> ClientReply(effects).value.status == effects[|effects| - 1].status
    ensures effects[|effects| - 1].Forwarded? ==> ClientReply(effects).value.status != 0
  {
  }

  /** The statuses the controller itself answers with: 400, 201 and 200. */
  lemma IssueStatuses(req: Request, env: Env, userId: nat, recordId: nat)
    ensures var r := RegisterEffects(req, env, userId, recordId);
      r[|r| - 1].Responded? ==> r[|r| - 1].status in {400, 201}
    ensures var l := LoginEffects(req, env, recordId);
      l[|l| - 1].Responded? ==> l[|l| - 1].status in {400, 200}
  {
    if req.validationErrors == [] {
      match CreateOutcome(req.body, env.hash, env.userSaveFault, userId)
      case Failure(e) =>
      case Success(user) =>
        IssueEndsWith(user, 201, env, recordId);
        var i := IssueEffects(user, 201, env, recordId);
        assert ([UserCreated(user)] + i)[|i|] == i[|i| - 1];
    }
    if req.validationErrors == [] && env.findByEmail(req.body.email).Success?
       && env.findByEmail(req.body.email).value.Some? {
      var user := env.findByEmail(req.body.email).value.value;
      if env.comparePassword(req.body.password, user.password) == Success(true) {
        IssueEndsWith(user, 200, env, recordId);
      }
    }
  }

  /** The token steps end in `next(err)` or in a response with the status they were given. */
  lemma IssueEndsWith(user: User, status: int, env: Env, recordId: nat)
    ensures var e := IssueEffects(user, status, env, recordId);
      |e| >= 1 && (e[|e| - 1].Forwarded? || (e[|e| - 1].Responded? && e[|e| - 1].status == status))
  {
    IssueCases(user, status, env, recordId);
  }

  /** Both credential failures reach the client as the same 400 BadRequestError. */
  lemma LoginCredentialFailureReply(req: Request, env: Env, recordId: nat)
    requires req.validationErrors == []
    requires || env.findByEmail(req.body.email) == Success(None)
             || (&& env.findByEmail(req.body.email).Success?
                 && env.findByEmail(req.body.email).value.Some?
                 && env.comparePassword(req.body.password, env.findByEmail(req.body.email).value.value.password) == Success(false))
    ensures ClientReply(LoginEffects(req, env, recordId)) ==
      Some(Reply(400, ErrorsBody([ErrorEntry("BadRequestError", "Email and password doesn't match", "", "")])))
  {
  }

  /** A failed user save reaches the client as a 500 InternalServerError with the fixed message. */
  lemma RegisterSaveFailureReply(req: Request, env: Env, userId: nat, recordId: nat)
    requires req.validationErrors == []
    requires env.hash(req.body.password, SaltRounds).Success? && env.userSaveFault.Some?
    ensures ClientReply(RegisterEffects(req, env, userId, recordId)) ==
      Some(Reply(500, ErrorsBody([ErrorEntry("InternalServerError", "Failed to store the data in the database", "", "")])))
  {
  }

  /** A hashing failure is not translated: a plain error reaches the client as 500 with its own name and message. */
  lemma RegisterHashFailureReply(req: Request, env: Env, userId: nat, recordId: nat)
    requires req.validationErrors == []
    requires env.hash(req.body.password, SaltRounds).Failure?
    requires env.hash(req.body.password, SaltRounds).error.statusCode == None
    ensures var err := env.hash(req.body.password, SaltRounds).error;
      ClientReply(RegisterEffects(req, env, userId, recordId)) ==
        Some(Reply(500, ErrorsBody([ErrorEntry(err.name, err.message, "", "")])))
  {
  }

  /** A successful register reaches the client as 201 with the new user's id. */
  lemma RegisterSuccessReply(req: Request, env: Env, userId: nat, recordId: nat)
    requires Succeeded(RegisterEffects(req, env, userId, recordId))
    ensures ClientReply(RegisterEffects(req, env, userId, recordId)) == Some(Reply(201, IdBody(userId)))
  {
    RegisterSuccess(req, env, userId, recordId);
  }
}
