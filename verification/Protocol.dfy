/**
 The tool broker and Guardian as two services that commit separately.

 A broker transaction is open while it waits for Guardian. Guardian commits in one step and the broker
 acts on the answer in another, so approvals, other transactions, redelivered requests, lost replies,
 crashes and the clock may come between any two of them.
 */
module Protocol {
  import opened Contracts
  import Guardian
  import RemoteClient

  /** The joined tool, version, policy and server rows a call resolves to. */
  datatype ToolRow = ToolRow(
    versionId: nat, serverId: nat, canonicalName: string, originalName: string, active: bool,
    riskClass: RiskClass, sideEffects: bool, idempotent: bool, core: bool, maxRetries: nat,
    requiredRoles: set<string>, requiredPurposes: set<string>, requiredConsents: set<string>,
    allowedAgents: set<string>, approvalMode: ApprovalMode, maximumResultBytes: nat)

  datatype Submit = Submit(
    runId: nat, agentName: string, scope: Scope, arguments: map<string, string>, argumentsValid: bool,
    purpose: string, resourceRefs: seq<string>, idempotencyKey: Option<string>)

  datatype CallStatus = Validated | WaitingApproval | Succeeded | Failed | Unknown | Blocked

  /** A committed or pending row of the call table. */
  datatype Call = Call(
    tenantId: nat, toolVersionId: nat, arguments: map<string, string>, requestHash: RequestHash,
    idempotencyKey: Option<string>, status: CallStatus, decisionId: Option<nat>,
    authorizationId: Option<nat>, correlationId: nat)

  datatype ToolResult = ToolResult(status: CallStatus, projection: Option<string>)

  datatype Phase =
    | Checking                          // the call is protected; Guardian must evaluate it
    | Decided(response: Guardian.Response)  // Guardian committed a decision; the broker has not acted on it
    | Cleared                           // a READ tool that needs no approval
    | Resuming                          // an approved call; Guardian must authorize it
    | Holding(token: Guardian.Token)    // an unspent authorization
    | Authorized(authorizationId: nat)  // the authorization is consumed

  /** An open broker transaction. `call` is the row it will commit. */
  datatype Transaction = Transaction(resume: bool, tool: ToolRow, call: Call, phase: Phase)

  /** What the tool does when invoked, as the broker sees it. */
  datatype Reply = Reply(
    attempts: seq<RemoteClient.Attempt>, coreResult: Option<string>, bytes: nat, secretResolved: bool)

  /** One invocation of a tool: an effect outside the database, which no rollback undoes. */
  datatype Invocation = Invocation(
    callId: nat, call: Call, tool: ToolRow, resumed: bool, toolName: string,
    arguments: map<string, string>, sends: nat, reply: Reply, committed: bool)

  datatype IdempotencyKey = IdempotencyKey(tenantId: nat, toolVersionId: nat, key: string)

  /**
   `names` gives each tool version its tool's name. History: `asked` is what the broker asks Guardian about
   each protected call, and `rivals` pairs two calls of one key of which the second began while the first
   was still open.
   */
  datatype World = World(
    now: int, nextCall: nat, guardian: Guardian.State, calls: map<nat, Call>,
    results: map<nat, ToolResult>, open: map<nat, Transaction>, log: seq<Invocation>,
    names: map<nat, string>, asked: map<nat, Evaluation>, rivals: set<(nat, nat)>)

  // ---------------------------------------------------------- access and replay

  datatype AccessError =
    | ContextIncomplete | ToolNotActive | AgentNotGranted | RoleRequired
    | PurposeNotAllowed | ConsentRequired | IdempotencyRequired | ArgumentsInvalid

  function ValidateAccess(request: Submit, tool: ToolRow): Option<AccessError> {
    if request.scope.sessionId.None? then Some(ContextIncomplete)
    else if !tool.active then Some(ToolNotActive)
    else if tool.allowedAgents != {} && request.agentName !in tool.allowedAgents then Some(AgentNotGranted)
    else if tool.requiredRoles - request.scope.roles != {} then Some(RoleRequired)
    else if tool.requiredPurposes != {} && request.purpose !in tool.requiredPurposes then Some(PurposeNotAllowed)
    else if tool.requiredConsents - request.scope.consentIds != {} then Some(ConsentRequired)
    else if tool.sideEffects && !HasKey(request.idempotencyKey) then Some(IdempotencyRequired)
    else if !request.argumentsValid then Some(ArgumentsInvalid)
    else None
  }

  predicate Protected(tool: ToolRow) {
    tool.riskClass != Read || tool.approvalMode != Never
  }

  function DocumentOf(request: Submit, tool: ToolRow): Document {
    Document(request.runId, request.agentName, request.scope, tool.serverId, tool.versionId,
             tool.canonicalName, tool.originalName, request.arguments, request.purpose,
             request.resourceRefs, request.idempotencyKey)
  }

  function SnapshotOf(tool: ToolRow): PolicySnapshot {
    PolicySnapshot(tool.riskClass, tool.requiredRoles, tool.requiredPurposes, tool.requiredConsents,
                   tool.allowedAgents, tool.approvalMode, tool.sideEffects, tool.idempotent)
  }

  function NewCall(request: Submit, tool: ToolRow): Call {
    Call(request.scope.tenantId, tool.versionId, request.arguments, Sha256(DocumentOf(request, tool)),
         request.idempotencyKey, Validated, None, None, request.scope.correlationId)
  }

  function KeyOf(call: Call): Option<IdempotencyKey> {
    if HasKey(call.idempotencyKey)
    then Some(IdempotencyKey(call.tenantId, call.toolVersionId, call.idempotencyKey.value))
    else None
  }

  /** The committed call that carries a key, the lowest id first. */
  function FindCall(calls: map<nat, Call>, key: IdempotencyKey, from: nat, limit: nat): (r: Option<nat>)
    requires from <= limit
    ensures r.Some? ==> r.value in calls && KeyOf(calls[r.value]) == Some(key)
    ensures r.None? ==> forall id: nat :: from <= id < limit && id in calls ==> KeyOf(calls[id]) != Some(key)
    decreases limit - from
  {
    if from == limit then None
    else if from in calls && KeyOf(calls[from]) == Some(key) then Some(from)
    else FindCall(calls, key, from + 1, limit)
  }

  datatype SubmitReply =
    | Denied(error: AccessError)
    | Conflict
    | InProgress
    | Waits                             // the matching row is locked by an open resume
    | Replayed(callId: nat, result: ToolResult)
    | Begun(callId: nat)

  /** What `execute` answers before it reaches Guardian or a tool. */
  function OnSubmit(w: World, request: Submit, tool: ToolRow): SubmitReply {
    var denied := ValidateAccess(request, tool);
    if denied.Some? then Denied(denied.value)
    else
      var call := NewCall(request, tool);
      var existing := if KeyOf(call).Some? then FindCall(w.calls, KeyOf(call).value, 0, w.nextCall) else None;
      if existing.None? then Begun(w.nextCall)
      else if existing.value in w.open then Waits
      else if w.calls[existing.value].requestHash != call.requestHash then Conflict
      else if existing.value !in w.results then InProgress
      else Replayed(existing.value, w.results[existing.value])
  }

  // ------------------------------------------------------------------- steps

  datatype Op =
    | Tick(microseconds: nat)
    | BeginExecute(request: Submit, tool: ToolRow)
    | EvaluateCall(callId: nat, signing: bool)
    | HearDecision(callId: nat)
    | GuardianUnavailable(callId: nat)
    | BeginResume(tenantId: nat, callId: nat, tool: ToolRow, correlationId: nat)
    | AuthorizeCall(callId: nat, signing: bool)
    | ConsumeToken(callId: nat)
    | Invoke(callId: nat, reply: Reply)
    | InvokeThenLose(callId: nat, reply: Reply)
    | Abort(callId: nat)
    | ActOnApproval(tenantId: nat, decisionId: nat, action: Guardian.ApprovalAction)
    | EvaluateElsewhere(evaluation: Evaluation, signing: bool)
    | AuthorizeElsewhere(tenantId: nat, callId: nat, hash: RequestHash, signing: bool)
    | ConsumeElsewhere(token: Guardian.Token, callId: nat, hash: RequestHash)

  predicate KnownTool(w: World, tool: ToolRow) {
    tool.versionId in w.names && w.names[tool.versionId] == tool.originalName
  }

  /** Open calls that hold the key of a submit that begins now. */
  function InFlight(w: World, call: Call): set<nat> {
    set id | id in w.open && KeyOf(call).Some? && KeyOf(w.open[id].call) == KeyOf(call)
  }

  function EvaluationOf(id: nat, tx: Transaction): Evaluation
    requires tx.call.requestHash.Sha256?
  {
    Evaluation(CanonicalRequest(id, tx.call.requestHash.document, tx.call.requestHash), SnapshotOf(tx.tool))
  }

  function DoBeginExecute(w: World, request: Submit, tool: ToolRow): World {
    if !KnownTool(w, tool) || !OnSubmit(w, request, tool).Begun? then w
    else
      var call := NewCall(request, tool);
      var tx := Transaction(false, tool, call, if Protected(tool) then Checking else Cleared);
      w.(nextCall := w.nextCall + 1,
         open := w.open[w.nextCall := tx],
         asked := if Protected(tool) then w.asked[w.nextCall := EvaluationOf(w.nextCall, tx)] else w.asked,
         rivals := w.rivals + set id | id in InFlight(w, call) :: (id, w.nextCall))
  }

  function Close(w: World, id: nat): World {
    w.(open := w.open - {id})
  }

  /** Commit the row of `id`, with its result unless it still waits for an approval. */
  function Commit(w: World, id: nat, call: Call, result: ToolResult): World {
    Close(w, id).(
      calls := w.calls[id := call],
      results := if call.status == WaitingApproval then w.results else w.results[id := result])
  }

  function CommitUncalled(w: World, id: nat, call: Call): World {
    Commit(w, id, call, ToolResult(call.status, None))
  }

  /** Guardian decided on the open call `id`. */
  function OnDecision(w: World, id: nat, response: Guardian.Response): World
    requires id in w.open
  {
    var tx := w.open[id];
    var call := tx.call.(decisionId := Some(response.decisionId));
    match response.outcome
    case Escalate => CommitUncalled(w, id, call.(status := WaitingApproval))
    case Verify => CommitUncalled(w, id, call.(status := WaitingApproval))
    case Block => CommitUncalled(w, id, call.(status := Blocked))
    case Allow => OnGrant(w, id, response)
  }

  function OnGrant(w: World, id: nat, response: Guardian.Response): World
    requires id in w.open
  {
    if response.grant.None? then Close(w, id)
    else
      var tx := w.open[id];
      var call := tx.call.(decisionId := Some(response.decisionId));
      w.(open := w.open[id := tx.(call := call, phase := Holding(response.grant.value.token))])
  }

  /** Guardian decides and commits; its reply is on the way. An error leaves Guardian as it was. */
  function DoEvaluate(w: World, id: nat, signing: bool): World {
    if id !in w.open || w.open[id].phase != Checking || w.open[id].call.requestHash == Empty then w
    else
      match Guardian.Evaluate(w.guardian, EvaluationOf(id, w.open[id]), w.now, signing)
      case Err(_) => w
      case Ok((guardian, response)) =>
        w.(guardian := guardian, open := w.open[id := w.open[id].(phase := Decided(response))])
  }

  function DoHear(w: World, id: nat): World {
    if id !in w.open || !w.open[id].phase.Decided? then w else OnDecision(w, id, w.open[id].phase.response)
  }

  // Fail closed: a protected call that Guardian answers with an error status is blocked. Silence, which may also
  // follow a committed decision, raises out of the request instead: that is `Abort`.
  function DoUnavailable(w: World, id: nat): World {
    if id !in w.open || (w.open[id].phase != Checking && !w.open[id].phase.Decided?) then w
    else CommitUncalled(w, id, w.open[id].call.(status := Blocked))
  }

  // The row lock: a call already held by an open transaction cannot be resumed.
  function DoBeginResume(w: World, tenantId: nat, id: nat, tool: ToolRow, correlationId: nat): World {
    if || id !in w.calls || w.calls[id].tenantId != tenantId || id in w.open
       || w.calls[id].status != WaitingApproval
       || !KnownTool(w, tool) || tool.versionId != w.calls[id].toolVersionId
    then w
    else
      var call := w.calls[id].(correlationId := correlationId);
      w.(open := w.open[id := Transaction(true, tool, call, Resuming)])
  }

  function DoAuthorize(w: World, id: nat, signing: bool): World {
    if id !in w.open || w.open[id].phase != Resuming then w
    else
      var tx := w.open[id];
      match Guardian.AuthorizeApproved(w.guardian, tx.call.tenantId, id, tx.call.requestHash, w.now, signing)
      case Err(_) => Close(w, id)
      case Ok((guardian, response)) => OnGrant(w.(guardian := guardian), id, response)
  }

  function DoConsume(w: World, id: nat): World {
    if id !in w.open || !w.open[id].phase.Holding? then w
    else
      var tx := w.open[id];
      match Guardian.Consume(w.guardian, tx.phase.token, id, tx.call.requestHash, w.now)
      case Err(_) => Close(w, id)
      case Ok((guardian, authorizationId)) =>
        w.(guardian := guardian, open := w.open[id := Spent(tx, authorizationId)])
  }

  function Spent(tx: Transaction, authorizationId: nat): Transaction {
    tx.(call := tx.call.(authorizationId := Some(authorizationId)), phase := Authorized(authorizationId))
  }

  predicate ReadyToCall(w: World, id: nat) {
    id in w.open && (w.open[id].phase == Cleared || w.open[id].phase.Authorized?)
  }

  /** A tool with side effects is never retried: its outcome may be unknown. */
  function CallOutcome(tool: ToolRow, reply: Reply): RemoteClient.CallOutcome {
    if tool.core then RemoteClient.CallOutcome(0, reply.coreResult)
    else if !reply.secretResolved then RemoteClient.CallOutcome(0, None)
    else RemoteClient.CallFrom(reply.attempts, 0, if tool.sideEffects then 0 else tool.maxRetries)
  }

  function ResultOf(tool: ToolRow, reply: Reply): ToolResult {
    var result := CallOutcome(tool, reply).result;
    if result.Some? && reply.bytes <= tool.maximumResultBytes then ToolResult(Succeeded, result)
    else ToolResult(if !tool.core && tool.sideEffects then Unknown else Failed, None)
  }

  function InvocationOf(w: World, id: nat, reply: Reply, committed: bool): Invocation
    requires id in w.open
  {
    var tx := w.open[id];
    Invocation(id, tx.call, tx.tool, tx.resume, tx.tool.originalName, tx.call.arguments,
               CallOutcome(tx.tool, reply).sends, reply, committed)
  }

  function DoInvoke(w: World, id: nat, reply: Reply): World {
    if !ReadyToCall(w, id) then w
    else
      var result := ResultOf(w.open[id].tool, reply);
      Commit(w, id, w.open[id].call.(status := result.status), result).(
        log := w.log + [InvocationOf(w, id, reply, true)])
  }

  // The tool ran, but the broker's transaction never committed.
  function DoInvokeThenLose(w: World, id: nat, reply: Reply): World {
    if !ReadyToCall(w, id) then w
    else Close(w, id).(log := w.log + [InvocationOf(w, id, reply, false)])
  }

  function DoAct(w: World, tenantId: nat, decisionId: nat, action: Guardian.ApprovalAction): World {
    match Guardian.ActOnApproval(w.guardian, tenantId, decisionId, action, w.now)
    case Err(_) => w
    case Ok(guardian) => w.(guardian := guardian)
  }

  /** Anyone may ask about any call already issued, under any policy snapshot; call ids are unguessable. */
  predicate MayAsk(w: World, e: Evaluation) {
    e.request.requestHash == Sha256(e.request.document) && e.request.callId < w.nextCall
  }

  // A request to Guardian may be delivered again, or by others, before, while or after the broker hears of it.
  function DoEvaluateElsewhere(w: World, e: Evaluation, signing: bool): World {
    if !MayAsk(w, e) then w
    else
      match Guardian.Evaluate(w.guardian, e, w.now, signing)
      case Err(_) => w
      case Ok((guardian, _)) => w.(guardian := guardian)
  }

  function DoAuthorizeElsewhere(w: World, tenantId: nat, callId: nat, hash: RequestHash, signing: bool): World {
    match Guardian.AuthorizeApproved(w.guardian, tenantId, callId, hash, w.now, signing)
    case Err(_) => w
    case Ok((guardian, _)) => w.(guardian := guardian)
  }

  // Anyone holding a token may spend it; the broker transaction waiting to do so then fails.
  function DoConsumeElsewhere(w: World, token: Guardian.Token, callId: nat, hash: RequestHash): World {
    match Guardian.Consume(w.guardian, token, callId, hash, w.now)
    case Err(_) => w
    case Ok((guardian, _)) => w.(guardian := guardian)
  }

  function Step(w: World, op: Op): World {
    match op
    case Tick(microseconds) => w.(now := w.now + microseconds)
    case BeginExecute(request, tool) => DoBeginExecute(w, request, tool)
    case EvaluateCall(id, signing) => DoEvaluate(w, id, signing)
    case HearDecision(id) => DoHear(w, id)
    case GuardianUnavailable(id) => DoUnavailable(w, id)
    case BeginResume(tenantId, id, tool, correlationId) => DoBeginResume(w, tenantId, id, tool, correlationId)
    case AuthorizeCall(id, signing) => DoAuthorize(w, id, signing)
    case ConsumeToken(id) => DoConsume(w, id)
    case Invoke(id, reply) => DoInvoke(w, id, reply)
    case InvokeThenLose(id, reply) => DoInvokeThenLose(w, id, reply)
    case Abort(id) => Close(w, id)
    case ActOnApproval(tenantId, decisionId, action) => DoAct(w, tenantId, decisionId, action)
    case EvaluateElsewhere(e, signing) => DoEvaluateElsewhere(w, e, signing)
    case AuthorizeElsewhere(tenantId, callId, hash, signing) => DoAuthorizeElsewhere(w, tenantId, callId, hash, signing)
    case ConsumeElsewhere(token, callId, hash) => DoConsumeElsewhere(w, token, callId, hash)
  }

  function Run(w: World, ops: seq<Op>): World
    decreases |ops|
  {
    if ops == [] then w else Run(Step(w, ops[0]), ops[1..])
  }

  lemma {:induction false} RunAppend(w: World, first: seq<Op>, second: seq<Op>)
    ensures Run(w, first + second) == Run(Run(w, first), second)
    decreases |first|
  {
    if first == [] {
      assert first + second == second;
    } else {
      assert (first + second)[0] == first[0] && (first + second)[1..] == first[1..] + second;
      RunAppend(Step(w, first[0]), first[1..], second);
    }
  }

  lemma OneStep(w: World, op: Op)
    ensures Run(w, [op]) == Step(w, op)
  {
    hide Step;
    assert [op][1..] == [] && Run(Step(w, op), []) == Step(w, op);
  }

  lemma TwoSteps(w: World, a: Op, b: Op)
    ensures Run(w, [a, b]) == Step(Step(w, a), b)
  {
    hide Step;
    assert [a, b][1..] == [b] && [b][1..] == [];
    assert Run(Step(Step(w, a), b), []) == Step(Step(w, a), b);
  }

  lemma FourSteps(w: World, a: Op, b: Op, c: Op, d: Op)
    ensures Run(w, [a, b, c, d]) == Step(Step(Step(Step(w, a), b), c), d)
  {
    hide Run, Step;
    assert [a, b, c, d] == [a, b] + [c, d];
    RunAppend(w, [a, b], [c, d]);
    TwoSteps(w, a, b);
    TwoSteps(Step(Step(w, a), b), c, d);
  }

  function Start(now: int, names: map<nat, string>): World {
    World(now, 0, Guardian.State([], map[], []), map[], map[], map[], [], names, map[], {})
  }
}
