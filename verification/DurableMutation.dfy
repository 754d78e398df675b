/** A mutation RPC from the parsed request to the reply: guards, idempotent execution and error
    mapping around the ledger transaction. */
module DurableMutation {
  import opened Prelude
  import opened JsonText
  import opened CanonicalJson
  import opened LedgerMachine
  import opened LedgerRefinement
  import opened IdempotencyStore
  import opened WireAgreement

  datatype RequestContext = RequestContext(
    scope: string,
    procedure: string,
    inputSchema: Schema,
    outputSchema: Schema,
    issues: Js -> Json, // how the schema reports what is wrong with a refused body
    sha256: Text -> string,
    ttlMs: int,
    hasInvoker: bool    // a durable handler invoker is configured
  )

  datatype Request = Request(jsonContent: bool, idempotencyKey: Option<string>, body: Js, requestId: Text, servedAt: Text)

  datatype ErrorCode =
    | BAD_REQUEST | UNAUTHORIZED | FORBIDDEN | NOT_FOUND | CONFLICT | PAYLOAD_TOO_LARGE | UNSUPPORTED_MEDIA_TYPE | RATE_LIMITED

  /** A `RpcApplicationError`. */
  datatype Refusal = Refusal(code: ErrorCode, message: Text, retryable: bool, details: Option<Json>)

  function StatusOf(code: ErrorCode): int {
    match code
    case BAD_REQUEST => 400
    case UNAUTHORIZED => 401
    case FORBIDDEN => 403
    case NOT_FOUND => 404
    case CONFLICT => 409
    case PAYLOAD_TOO_LARGE => 413
    case UNSUPPORTED_MEDIA_TYPE => 415
    case RATE_LIMITED => 429
  }

  function CodeName(code: ErrorCode): string {
    match code
    case BAD_REQUEST => "BAD_REQUEST"
    case UNAUTHORIZED => "UNAUTHORIZED"
    case FORBIDDEN => "FORBIDDEN"
    case NOT_FOUND => "NOT_FOUND"
    case CONFLICT => "CONFLICT"
    case PAYLOAD_TOO_LARGE => "PAYLOAD_TOO_LARGE"
    case UNSUPPORTED_MEDIA_TYPE => "UNSUPPORTED_MEDIA_TYPE"
    case RATE_LIMITED => "RATE_LIMITED"
  }

  /** How the handler ends. */
  datatype HandlerEnd = Returns(output: Js) | Refuses(refusal: Refusal) | Throws

  /** What the handler does with an accepted input: its writes, and how it ends. */
  type HandlerCode = Json -> (seq<Write>, HandlerEnd)

  predicate IsKeyChar(c: char) {
    'A' <= c <= 'Z' || 'a' <= c <= 'z' || '0' <= c <= '9' || c == '.' || c == '_' || c == ':' || c == '-'
  }

  /** `rpcIdempotencyKeySchema` */
  predicate IsIdempotencyKey(k: string) {
    1 <= |k| <= 128 && forall i :: 0 <= i < |k| ==> IsKeyChar(k[i])
  }

  datatype InvokeError = ConflictError(retryable: bool, message: string) | OwnError(refusal: Refusal) | Thrown

  function LedgerKey(ctx: RequestContext, idempotencyKey: string): Key {
    Key(ctx.scope, ctx.procedure, idempotencyKey)
  }

  /** `hashIdempotencyValue` of the input. */
  function RequestHash(ctx: RequestContext, input: Json): string {
    ctx.sha256(StableText(input))
  }

  /** The handler with its output validated inside the transaction, as the store sees it. */
  function ValidatedHandler(ctx: RequestContext, code: HandlerCode, input: Json): Handler {
    var (writes, end) := code(input);
    Handler(writes, match end
      case Returns(output) =>
        (match ValidateOutput(ctx.outputSchema, output)
         case Some(Tree(body)) => Some((200, body))
         case _ => None)
      case _ => None)
  }

  /** The handler's own output for this input passes the validation, as this body. */
  predicate Outputs(ctx: RequestContext, code: HandlerCode, input: Json, body: Json) {
    code(input).1.Returns? && ValidateOutput(ctx.outputSchema, code(input).1.output) == Some(Tree(body))
  }

  /** If the call is in the history as an execution, then with the writes and the output its code gave. */
  ghost predicate RanCode(h: seq<Finished>, id: nat, ctx: RequestContext, code: HandlerCode, input: Json) {
    forall j :: 0 <= j < |h| && h[j].id == id && h[j].outcome.Executed? ==>
      h[j].writes == code(input).0 && h[j].outcome.status == 200 && Outputs(ctx, code, input, h[j].outcome.body)
  }

  /** What may make an accepted mutation fail: its commit, a wait for a row in vain, a handler that throws or
      whose output is refused, or a result the ledger's constraints refuse. */
  ghost predicate Excused(s: State, s': State, id: nat, ctx: RequestContext, key: string, input: Json,
                          code: HandlerCode, fate: CommitFate) {
    || !fate.Done? || Blocked(s, s', id)
    || (!code(input).1.Refuses? && forall body :: !Outputs(ctx, code, input, body))
    || !Storable(LedgerKey(ctx, key), RequestHash(ctx, input), ctx.ttlMs, 200)
  }

  ghost predicate Untouched(s: State, s': State) {
    s' == s
  }

  const REUSED_KEY := "The idempotency key was already used for another request."
  const BUSY_KEY := "A request with this idempotency key is already in progress."

  /** `invoke` and `executeIdempotently`: how ledger outcomes become results and errors. */
  method Invoke(store: PostgresIdempotencyStore, ctx: RequestContext, idempotencyKey: Option<string>, input: Json,
                code: HandlerCode, patience: nat, fate: CommitFate)
    returns (r: Result<Json, InvokeError>, ghost id: nat)
    requires Inv(store.db)
    modifies store
    ensures Inv(store.db) && Leads(old(store.db), store.db)
    ensures idempotencyKey.None? || ctx.ttlMs <= 0 ==> r == Err(Thrown) && Untouched(old(store.db), store.db)
    ensures r.Ok? ==> idempotencyKey.Some? && Answers200(old(store.db), store.db, id, ctx, idempotencyKey.value, input, code, r.value)
    ensures r.Err? && r.error.ConflictError? && idempotencyKey.Some? ==>
              Recorded(store.db.history, |old(store.db).history|, id, LedgerKey(ctx, idempotencyKey.value), RequestHash(ctx, input),
                       if r.error.retryable then InProgress else Conflict)
    ensures r.Err? && r.error.ConflictError? ==> r.error.message == (if r.error.retryable then BUSY_KEY else REUSED_KEY)
    ensures r == Err(Thrown) && idempotencyKey.Some? && ctx.ttlMs > 0 && !fate.ReplyLost? ==> Absent(store.db.history, id)
    ensures r == Err(Thrown) && idempotencyKey.Some? && ctx.ttlMs > 0 ==>
              Excused(old(store.db), store.db, id, ctx, idempotencyKey.value, input, code, fate)
    ensures idempotencyKey.Some? && ctx.ttlMs > 0 ==>
              RanCode(store.db.history, id, ctx, code, input) && Dated(store.db.history, id, old(store.db).clock, ctx.ttlMs)
    ensures r.Err? && r.error.OwnError? ==> code(input).1 == Refuses(r.error.refusal) && Absent(store.db.history, id)
  {
    id := 0;
    LeadsNowhere(store.db);
    if idempotencyKey.None? || ctx.ttlMs <= 0 {
      return Err(Thrown), id;
    }
    var n, stored := store.RunAtomically(LedgerKey(ctx, idempotencyKey.value), RequestHash(ctx, input), ctx.ttlMs,
                                         ValidatedHandler(ctx, code, input), patience, fate);
    id := n;
    r := match stored
      case Ok(Executed(_, body)) => Ok(body)
      case Ok(Replay(_, body)) => Ok(body)
      case Ok(Conflict) => Err(ConflictError(false, REUSED_KEY))
      case Ok(InProgress) => Err(ConflictError(true, BUSY_KEY))
      case Err(error) =>
        if error.HandlerFailed? && code(input).1.Refuses? then Err(OwnError(code(input).1.refusal)) else Err(Thrown);
  }

  /** A returned body is either the validated output of the code, whose writes are all committed with
      it, or the body a replay read from the ledger. */
  ghost predicate Answers200(s: State, s': State, id: nat, ctx: RequestContext, idempotencyKey: string, input: Json,
                             code: HandlerCode, body: Json) {
    var key, hash := LedgerKey(ctx, idempotencyKey), RequestHash(ctx, input);
    || (exists status :: Recorded(s'.history, |s.history|, id, key, hash, Replay(status, body)))
    || (Outputs(ctx, code, input, body) && EffectOf(s'.history, id, code(input).0)
        && Recorded(s'.history, |s.history|, id, key, hash, Executed(200, body)))
  }

  datatype Reply = Reply(status: int, response: Response)

  function ErrorReply(status: int, code: string, message: string, retryable: bool, details: Option<Json>, requestId: Text): Reply {
    Reply(status, Failure(Ascii(code), Ascii(message), retryable, details, requestId))
  }

  function BadRequest(message: string, details: Option<Json>, requestId: Text): Reply {
    ErrorReply(400, "BAD_REQUEST", message, false, details, requestId)
  }

  function InternalError(retryable: bool, requestId: Text): Reply {
    ErrorReply(500, "INTERNAL_ERROR", "The server could not complete the RPC request.", retryable, None, requestId)
  }

  /** The reply is this error. */
  predicate Says(reply: Reply, status: int, code: string, message: string, retryable: bool, details: Option<Json>, requestId: Text) {
    reply == Reply(status, Failure(Ascii(code), Ascii(message), retryable, details, requestId))
  }

  predicate SaysConflict(reply: Reply, requestId: Text) {
    || Says(reply, 409, "CONFLICT", "The idempotency key was already used for another request.", false, None, requestId)
    || Says(reply, 409, "CONFLICT", "A request with this idempotency key is already in progress.", true, None, requestId)
  }

  predicate KeyOk(request: Request) {
    request.idempotencyKey.Some? && IsIdempotencyKey(request.idempotencyKey.value)
  }

  predicate Acceptable(ctx: RequestContext, request: Request) {
    KeyOk(request) && ctx.hasInvoker && ServerInput(ctx.inputSchema, request.body).Some?
  }

  /** The call replayed a stored body that the output schema no longer accepts. */
  ghost predicate RefusedReplay(s: State, s': State, id: nat, ctx: RequestContext, request: Request)
    requires Acceptable(ctx, request)
  {
    var input := ServerInput(ctx.inputSchema, request.body).value.j;
    exists status, body :: ValidateOutput(ctx.outputSchema, Tree(body)).None?
      && Recorded(s'.history, |s.history|, id, LedgerKey(ctx, request.idempotencyKey.value), RequestHash(ctx, input), Replay(status, body))
  }

  /** A fresh execution's body has passed the output validation and passes it again. */
  lemma OnlyReplaysFail(s: State, s': State, id: nat, ctx: RequestContext, request: Request, code: HandlerCode, body: Json)
    requires Acceptable(ctx, request) && ValidateOutput(ctx.outputSchema, Tree(body)).None?
    requires Answers200(s, s', id, ctx, request.idempotencyKey.value, ServerInput(ctx.inputSchema, request.body).value.j, code, body)
    ensures RefusedReplay(s, s', id, ctx, request)
  {
    var input := ServerInput(ctx.inputSchema, request.body).value.j;
    if Outputs(ctx, code, input, body) {
      ValidatedTwice(ctx.outputSchema, code(input).1.output, Tree(body));
    }
  }

  function RefusalReply(refusal: Refusal, requestId: Text): Reply {
    Reply(StatusOf(refusal.code),
          Failure(Ascii(CodeName(refusal.code)), refusal.message, refusal.retryable, refusal.details, requestId))
  }

  /** The handler's own error reaches the caller, and nothing of the call is left. */
  ghost predicate HandlerRefused(s': State, id: nat, input: Json, code: HandlerCode, reply: Reply, requestId: Text) {
    && code(input).1.Refuses? && Absent(s'.history, id)
    && var refusal := code(input).1.refusal;
       reply == Reply(StatusOf(refusal.code),
                      Failure(Ascii(CodeName(refusal.code)), refusal.message, refusal.retryable, refusal.details, requestId))
  }

  /** A success carries data that passed the second validation, of a body committed by this call or replayed. */
  ghost predicate Succeeded(s: State, s': State, id: nat, ctx: RequestContext, request: Request, input: Json, code: HandlerCode, reply: Reply)
    requires KeyOk(request)
  {
    && reply.status == 200 && reply.response.Success?
    && reply.response.requestId == request.requestId && reply.response.servedAt == request.servedAt
    && exists body :: Answers200(s, s', id, ctx, request.idempotencyKey.value, input, code, body)
         && ValidateOutput(ctx.outputSchema, Tree(body)) == Some(Tree(reply.response.data))
  }

  /** A conflict is in the ledger, and says whether to retry. */
  ghost predicate Conflicted(s: State, s': State, id: nat, ctx: RequestContext, request: Request, input: Json, reply: Reply)
    requires KeyOk(request)
  {
    && SaysConflict(reply, request.requestId)
    && Recorded(s'.history, |s.history|, id, LedgerKey(ctx, request.idempotencyKey.value), RequestHash(ctx, input),
                if reply.response.retryable then InProgress else Conflict)
  }

  /** An internal error has one of the causes it may have, and leaves nothing unless the commit's reply was lost
      or a stored body was refused on replay. */
  ghost predicate FailedInside(s: State, s': State, id: nat, ctx: RequestContext, request: Request, input: Json,
                               code: HandlerCode, fate: CommitFate, reply: Reply)
    requires Acceptable(ctx, request)
  {
    && Says(reply, 500, "INTERNAL_ERROR", "The server could not complete the RPC request.", true, None, request.requestId)
    && (ctx.ttlMs > 0 ==>
          || RefusedReplay(s, s', id, ctx, request)
          || (Excused(s, s', id, ctx, request.idempotencyKey.value, input, code, fate)
              && (!fate.ReplyLost? ==> Absent(s'.history, id))))
  }

  /** The end of the cascade: the invoker, the second validation of what it returns, error replies. */
  method RunInvoker(store: PostgresIdempotencyStore, ctx: RequestContext, request: Request, input: Json, code: HandlerCode,
                    patience: nat, fate: CommitFate)
    returns (reply: Reply, ghost id: nat)
    requires Inv(store.db) && Acceptable(ctx, request) && ServerInput(ctx.inputSchema, request.body) == Some(Tree(input))
    modifies store
    ensures Inv(store.db) && Leads(old(store.db), store.db)
    ensures || HandlerRefused(store.db, id, input, code, reply, request.requestId)
            || Succeeded(old(store.db), store.db, id, ctx, request, input, code, reply)
            || Conflicted(old(store.db), store.db, id, ctx, request, input, reply)
            || FailedInside(old(store.db), store.db, id, ctx, request, input, code, fate, reply)
    ensures ctx.ttlMs > 0 ==> RanCode(store.db.history, id, ctx, code, input)
  {
    var result;
    result, id := Invoke(store, ctx, request.idempotencyKey, input, code, patience, fate);
    match result {
      case Err(ConflictError(retryable, message)) =>
        reply := ErrorReply(409, "CONFLICT", message, retryable, None, request.requestId);
        assert Conflicted(old(store.db), store.db, id, ctx, request, input, reply);
      case Err(OwnError(refusal)) =>
        reply := RefusalReply(refusal, request.requestId);
      case Err(Thrown) =>
        reply := InternalError(true, request.requestId);
        assert FailedInside(old(store.db), store.db, id, ctx, request, input, code, fate, reply);
      case Ok(body) =>
        reply := ValidateAgain(ctx, request, input, code, old(store.db), store.db, id, body, fate);
    }
  }

  /** The second validation, of whatever body came back. */
  method ValidateAgain(ctx: RequestContext, request: Request, input: Json, code: HandlerCode, ghost s: State, ghost s': State,
                       ghost id: nat, body: Json, fate: CommitFate) returns (reply: Reply)
    requires Acceptable(ctx, request) && ServerInput(ctx.inputSchema, request.body) == Some(Tree(input))
    requires Answers200(s, s', id, ctx, request.idempotencyKey.value, input, code, body)
    ensures || Succeeded(s, s', id, ctx, request, input, code, reply)
            || FailedInside(s, s', id, ctx, request, input, code, fate, reply)
  {
    var validated := ValidateOutput(ctx.outputSchema, Tree(body));
    if validated.Some? {
      ValidatedTwice(ctx.outputSchema, Tree(body), validated.value);
      reply := Reply(200, Success(validated.value.j, request.requestId, request.servedAt));
    } else {
      OnlyReplaysFail(s, s', id, ctx, request, code, body);
      reply := InternalError(true, request.requestId);
    }
  }

  const BAD_KEY := "X-Idempotency-Key contains unsupported characters."
  const NO_KEY := "X-Idempotency-Key is required for this mutation."
  const INVALID_INPUT := "RPC input validation failed."
  const UNSTABLE_INPUT := "RPC input must be JSON-compatible after validation."

  /** `executeRpcProcedure` for a mutation with its durable invoker. A refused request touches nothing.
      A success carries committed effects or a replay of them, once more validated. A conflict is in the
      ledger and says whether to retry, unless it is the handler's own. The handler's refusal leaves no
      trace, and neither does an internal error, unless the reply of the commit was lost or the schema
      refuses a stored body on replay. */
  method ExecuteMutation(store: PostgresIdempotencyStore, ctx: RequestContext, request: Request, code: HandlerCode, patience: nat,
                     fate: CommitFate)
    returns (reply: Reply, ghost id: nat)
    requires Inv(store.db)
    modifies store
    ensures Inv(store.db) && Leads(old(store.db), store.db)
    ensures !request.jsonContent ==>
              Says(reply, 415, "UNSUPPORTED_MEDIA_TYPE", "RPC requests must use application/json.", false, None, request.requestId)
    ensures request.jsonContent && !KeyOk(request) ==>
              Says(reply, 400, "BAD_REQUEST", if request.idempotencyKey.Some? then BAD_KEY else NO_KEY, false, None, request.requestId)
    ensures request.jsonContent && KeyOk(request) && !ctx.hasInvoker ==>
              Says(reply, 500, "INTERNAL_ERROR", "The server could not complete the RPC request.", false, None, request.requestId)
    ensures request.jsonContent && KeyOk(request) && ctx.hasInvoker && ctx.inputSchema(request.body).None? ==>
              Says(reply, 400, "BAD_REQUEST", INVALID_INPUT, false, Some(ctx.issues(request.body)), request.requestId)
    ensures request.jsonContent && KeyOk(request) && ctx.hasInvoker && ctx.inputSchema(request.body).Some? && !Acceptable(ctx, request) ==>
              Says(reply, 400, "BAD_REQUEST", UNSTABLE_INPUT, false, None, request.requestId)
    ensures !request.jsonContent || !Acceptable(ctx, request) ==> Untouched(old(store.db), store.db)
    ensures request.jsonContent && Acceptable(ctx, request) ==>
              var input := ServerInput(ctx.inputSchema, request.body).value.j;
              || HandlerRefused(store.db, id, input, code, reply, request.requestId)
              || Succeeded(old(store.db), store.db, id, ctx, request, input, code, reply)
              || Conflicted(old(store.db), store.db, id, ctx, request, input, reply)
              || FailedInside(old(store.db), store.db, id, ctx, request, input, code, fate, reply)
    ensures request.jsonContent && Acceptable(ctx, request) && ctx.ttlMs > 0 ==>
              RanCode(store.db.history, id, ctx, code, ServerInput(ctx.inputSchema, request.body).value.j)
  {
    id := 0;
    LeadsNowhere(store.db);
    if !request.jsonContent {
      return ErrorReply(415, "UNSUPPORTED_MEDIA_TYPE", "RPC requests must use application/json.", false, None, request.requestId), id;
    }
    if request.idempotencyKey.Some? && !IsIdempotencyKey(request.idempotencyKey.value) {
      return BadRequest(BAD_KEY, None, request.requestId), id;
    }
    if request.idempotencyKey.None? {
      return BadRequest(NO_KEY, None, request.requestId), id;
    }
    if !ctx.hasInvoker {
      return InternalError(false, request.requestId), id;
    }
    if ctx.inputSchema(request.body).None? {
      return BadRequest(INVALID_INPUT, Some(ctx.issues(request.body)), request.requestId), id;
    }
    if ServerInput(ctx.inputSchema, request.body).None? {
      return BadRequest(UNSTABLE_INPUT, None, request.requestId), id;
    }
    reply, id := RunInvoker(store, ctx, request, ServerInput(ctx.inputSchema, request.body).value.j, code, patience, fate);
  }

  // ----- two calls -----

  /** The entry is of a call under this key with this input. */
  ghost predicate CallOf(f: Finished, ctx: RequestContext, key: string, input: Json) {
    f.key == LedgerKey(ctx, key) && f.hash == RequestHash(ctx, input)
  }

  ghost predicate Injective(sha256: Text -> string) {
    forall x, y :: sha256(x) == sha256(y) ==> x == y
  }

  /** Reusing a key within the lifetime of any of its results replays exactly when the two inputs mean
      the same JSON value, and conflicts exactly when they do not. */
  lemma ReplayOrConflict(s: State, i: nat, j: nat, ctx: RequestContext, key: string, a: Json, b: Json)
    requires Reachable(s) && i < j < |s.history| && s.history[i].outcome.Executed?
    requires CallOf(s.history[i], ctx, key, a) && CallOf(s.history[j], ctx, key, b)
    requires s.history[j].looked < Expiry(s.history[i]) && !s.history[j].outcome.InProgress?
    requires WellFormed(a) && WellFormed(b) && Injective(ctx.sha256)
    ensures s.history[j].outcome == (if Meaning(a) == Meaning(b) then ReplayOf(s, s.history[i]) else Conflict)
  {
    RetrySafety(s, i, j);
    RequestHashDecides(ctx.sha256, a, b);
  }

  lemma {:induction false} JsonbStays(s: State, steps: seq<Step>, s': State)
    requires Run(s, steps, s')
    ensures s'.jsonb == s.jsonb
    decreases |steps|
  {
    if steps != [] {
      assert Apply(s, steps[0]).jsonb == s.jsonb;
      JsonbStays(Apply(s, steps[0]), steps[1..], s');
    }
  }

  lemma LeadsReachable(s: State, s': State)
    requires Reachable(s) && Leads(s, s')
    ensures Reachable(s') && s.history <= s'.history && s'.jsonb == s.jsonb
  {
    var s0, first :| Initial(s0) && Run(s0, first, s);
    var rest :| Run(s, rest, s');
    RunAppend(s0, first, s, rest, s');
    ReachableInv(s);
    var es := Simulates(s, rest, s');
    JsonbStays(s, rest, s');
  }

  /** Two calls of `Invoke`, as their contracts leave them: the first, begun at `s`, executed; the second, under
      the same scope, procedure and key, was answered within the ttl, whatever others did. It carries the first
      one's body exactly when the two inputs mean the same, and conflicts exactly when they do not. */
  lemma InvokedTwice(s: State, s1: State, s2: State, first: nat, second: nat, ctx: RequestContext, key: string,
                     a: Json, b: Json, body: Json, answer: Outcome)
    requires Reachable(s) && Leads(s, s1) && Leads(s1, s2) && s2.clock < s.clock + ctx.ttlMs
    requires Recorded(s1.history, |s.history|, first, LedgerKey(ctx, key), RequestHash(ctx, a), Executed(200, body))
    requires Dated(s1.history, first, s.clock, ctx.ttlMs)
    requires Recorded(s2.history, |s1.history|, second, LedgerKey(ctx, key), RequestHash(ctx, b), answer)
    requires !answer.InProgress? && WellFormed(a) && WellFormed(b) && Injective(ctx.sha256)
    ensures answer == (if Meaning(a) == Meaning(b) then Replay(200, s.jsonb(body)) else Conflict)
  {
    LeadsReachable(s, s1);
    LeadsReachable(s1, s2);
    var i :| |s.history| <= i < |s1.history| && s1.history[i].id == first && CallOf(s1.history[i], ctx, key, a)
             && s1.history[i].outcome == Executed(200, body);
    var j :| |s1.history| <= j < |s2.history| && CallOf(s2.history[j], ctx, key, b) && s2.history[j].outcome == answer;
    assert s2.history[i] == s1.history[i];
    LivesItsTtl(s2, i);
    LooksBefore(s2, j);
    ReplayOrConflict(s2, i, j, ctx, key, a, b);
  }

  lemma LooksBefore(s: State, j: nat)
    requires Reachable(s) && j < |s.history|
    ensures s.history[j].looked <= s.history[j].committed <= s.clock
  {
    assert AllAnswered(s) by { ReachableInv(s); }
  }

  /** Calls under another scope, procedure or key never answer: a replay or conflict comes from an execution
      under exactly its own. */
  lemma AnsweredWithinScope(s: State, i: nat, j: nat, ctx: RequestContext, ctx': RequestContext, key: string, key': string,
                            a: Json, b: Json)
    requires Reachable(s) && j < |s.history| && AnsweredFrom(s.history, j, i)
    requires CallOf(s.history[i], ctx, key, a) && CallOf(s.history[j], ctx', key', b)
    ensures ctx.scope == ctx'.scope && ctx.procedure == ctx'.procedure && key == key'
  {
    assert s.history[..j][i] == s.history[i];
  }

  /** The keys and statuses of accepted mutations pass the ledger's constraints, given a procedure name of a
      length it allows and a hash in hexadecimal. */
  lemma AcceptedIsStorable(ctx: RequestContext, request: Request, input: Json)
    requires Acceptable(ctx, request) && ctx.ttlMs > 0 && 3 <= |ctx.procedure| <= 200 && IsHash(RequestHash(ctx, input))
    ensures Storable(LedgerKey(ctx, request.idempotencyKey.value), RequestHash(ctx, input), ctx.ttlMs, 200)
  {
  }
}
