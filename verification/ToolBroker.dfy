/** The tool broker: the only path to a tool, one database transaction per request. */
module ToolBroker {
  import opened Contracts
  import Guardian
  import GuardianService
  import RemoteClient
  import opened Protocol
  import ProtocolSafety

  datatype BrokerError =
    | AccessDenied(error: AccessError) | IdempotencyConflict | CallInProgress | ToolNotFound
    | CallNotFound | CallNotResumable | GuardianSilent | AuthorizationRejected

  /** `SafeToolResult`: a stored result, or the notice that an approval is needed first. */
  datatype SafeResult = Stored(callId: nat, result: ToolResult) | ApprovalRequired(callId: nat)

  /**
   What becomes of the request to Guardian: an answer, an error status, or nothing at all. Silence raises out of
   `execute`, whether or not Guardian was reached and committed.
   */
  datatype GuardianReply = Answered | Erred | Silent(reached: bool)

  /** The protocol steps of one `execute` that nothing interrupts; those not enabled do nothing. */
  function ExecuteSteps(
    id: nat, request: Submit, tool: ToolRow, guardian: GuardianReply, signing: bool, reply: Reply): seq<Op>
  {
    [BeginExecute(request, tool)] + AskSteps(id, tool, guardian, signing) + [ConsumeToken(id), Invoke(id, reply)]
  }

  /** Guardian is asked about a protected call only. */
  function AskSteps(id: nat, tool: ToolRow, guardian: GuardianReply, signing: bool): seq<Op> {
    if !Protected(tool) then []
    else
      match guardian
      case Answered => [EvaluateCall(id, signing), HearDecision(id), GuardianUnavailable(id)]
      case Erred => [GuardianUnavailable(id)]
      case Silent(reached) => (if reached then [EvaluateCall(id, signing)] else []) + [Abort(id)]
  }

  function ResumeSteps(
    tenantId: nat, id: nat, tool: ToolRow, correlationId: nat, signing: bool, reply: Reply): seq<Op>
  {
    [BeginResume(tenantId, id, tool, correlationId), AuthorizeCall(id, signing), ConsumeToken(id), Invoke(id, reply)]
  }

  /** What the caller hears when `execute` took the world from `w` to `w'`. */
  function ExecuteAnswer(
    w: World, w': World, request: Submit, tool: ToolRow, guardian: GuardianReply): Result<SafeResult, BrokerError>
  {
    if !KnownTool(w, tool) then Err(ToolNotFound)
    else
      match OnSubmit(w, request, tool)
      case Denied(error) => Err(AccessDenied(error))
      case Conflict => Err(IdempotencyConflict)
      case InProgress => Err(CallInProgress)
      case Waits => Err(CallInProgress)
      case Replayed(id, result) => Ok(Stored(id, result))
      case Begun(id) =>
        if id in w'.results then Ok(Stored(id, w'.results[id]))
        else if id in w'.calls then Ok(ApprovalRequired(id))
        else if Protected(tool) && guardian.Silent? then Err(GuardianSilent)
        else Err(AuthorizationRejected)
  }

  /** What `execute` hands out is on record: a stored result, or a call that waits for its approval. */
  lemma AnswersAreOnRecord(
    w: World, request: Submit, tool: ToolRow, guardian: GuardianReply, signing: bool, reply: Reply)
    requires ProtocolSafety.Inv(w) && w.open == map[]
    ensures var w' := Run(w, ExecuteSteps(w.nextCall, request, tool, guardian, signing, reply));
      var r := ExecuteAnswer(w, w', request, tool, guardian);
      && (r.Ok? && r.value.Stored? ==>
            r.value.callId in w'.results && w'.results[r.value.callId] == r.value.result)
      && (r.Ok? && r.value.ApprovalRequired? ==>
            && r.value.callId in w'.calls && r.value.callId !in w'.results
            && w'.calls[r.value.callId].status == WaitingApproval)
      && (w.nextCall in w'.results ==> r == Ok(Stored(w.nextCall, w'.results[w.nextCall])))
      && (w.nextCall in w'.calls && w.nextCall !in w'.results ==> r == Ok(ApprovalRequired(w.nextCall)))
  {
    hide Run, ExecuteSteps, OnSubmit, ProtocolSafety.Inv;
    var ops := ExecuteSteps(w.nextCall, request, tool, guardian, signing, reply);
    ProtocolSafety.RunKeepsInv(w, ops);
    var w' := Run(w, ops);
    if w.nextCall in w'.calls && w.nextCall !in w'.results { WaitsForApproval(w', w.nextCall); }
    if !KnownTool(w, tool) || !OnSubmit(w, request, tool).Begun? {
      RefusedRunsNothing(w, request, tool, guardian, signing, reply);
    } else {
      BegunIsNext(w, request, tool);
    }
  }

  lemma BegunIsNext(w: World, request: Submit, tool: ToolRow)
    requires OnSubmit(w, request, tool).Begun?
    ensures OnSubmit(w, request, tool).callId == w.nextCall
  {
  }

  lemma WaitsForApproval(w: World, id: nat)
    requires ProtocolSafety.Inv(w) && id in w.calls && id !in w.results
    ensures w.calls[id].status == WaitingApproval
  {
    assert ProtocolSafety.CommittedOk(w, id, w.calls[id]);
  }

  lemma RefusedRunsNothing(
    w: World, request: Submit, tool: ToolRow, guardian: GuardianReply, signing: bool, reply: Reply)
    requires ProtocolSafety.Inv(w) && w.open == map[] && (!KnownTool(w, tool) || !OnSubmit(w, request, tool).Begun?)
    ensures Run(w, ExecuteSteps(w.nextCall, request, tool, guardian, signing, reply)) == w
    ensures w.nextCall !in w.calls && w.nextCall !in w.results
    ensures match OnSubmit(w, request, tool)
            case Replayed(id, result) => id in w.results && w.results[id] == result
            case _ => true
  {
    hide ValidateAccess, FindCall;
    RefusedStays(w, request, tool, guardian, signing, reply);
    ProtocolSafety.FreshId(w);
  }

  /** The rest of an uninterrupted `execute`, once its transaction is open. */
  function AfterBegin(w: World, id: nat, tool: ToolRow, guardian: GuardianReply, signing: bool, reply: Reply): World {
    Step(Step(AfterAsking(w, id, tool, guardian, signing), ConsumeToken(id)), Invoke(id, reply))
  }

  function AfterAsking(w: World, id: nat, tool: ToolRow, guardian: GuardianReply, signing: bool): World {
    Run(w, AskSteps(id, tool, guardian, signing))
  }

  lemma BegunRuns(w: World, request: Submit, tool: ToolRow, guardian: GuardianReply, signing: bool, reply: Reply)
    ensures Run(w, ExecuteSteps(w.nextCall, request, tool, guardian, signing, reply)) ==
      AfterBegin(Step(w, BeginExecute(request, tool)), w.nextCall, tool, guardian, signing, reply)
  {
    hide Step, Run, AskSteps;
    var id := w.nextCall;
    var begin, ask := [BeginExecute(request, tool)], AskSteps(id, tool, guardian, signing);
    var last := [ConsumeToken(id), Invoke(id, reply)];
    RunAppend(w, begin + ask, last);
    RunAppend(w, begin, ask);
    OneStep(w, begin[0]);
    TwoSteps(Run(w, begin + ask), last[0], last[1]);
  }

  /** The asking, step by step. */
  lemma AskingUnfolds(w: World, id: nat, tool: ToolRow, signing: bool)
    requires Protected(tool)
    ensures AfterAsking(w, id, tool, Answered, signing) ==
      Step(Step(Step(w, EvaluateCall(id, signing)), HearDecision(id)), GuardianUnavailable(id))
    ensures AfterAsking(w, id, tool, Erred, signing) == Step(w, GuardianUnavailable(id))
    ensures AfterAsking(w, id, tool, Silent(true), signing) == Step(Step(w, EvaluateCall(id, signing)), Abort(id))
    ensures AfterAsking(w, id, tool, Silent(false), signing) == Step(w, Abort(id))
  {
    hide Step, Run;
    var e, h, u, a := EvaluateCall(id, signing), HearDecision(id), GuardianUnavailable(id), Abort(id);
    assert [e, h, u] == [e, h] + [u];
    RunAppend(w, [e, h], [u]);
    TwoSteps(w, e, h);
    OneStep(Step(Step(w, e), h), u);
    OneStep(w, u);
    assert [e] + [a] == [e, a] && [] + [a] == [a];
    TwoSteps(w, e, a);
    OneStep(w, a);
  }

  lemma RefusedStays(w: World, request: Submit, tool: ToolRow, guardian: GuardianReply, signing: bool, reply: Reply)
    requires w.open == map[] && DoBeginExecute(w, request, tool) == w
    ensures Run(w, ExecuteSteps(w.nextCall, request, tool, guardian, signing, reply)) == w
  {
    BegunRuns(w, request, tool, guardian, signing, reply);
    UnansweredStays(w, w.nextCall, tool, guardian, signing);
    ClosedStays(w, w.nextCall, reply);
  }

  lemma NothingInFlight(w: World, call: Call)
    requires w.open == map[]
    ensures w.rivals + (set id | id in InFlight(w, call) :: (id, w.nextCall)) == w.rivals
  {
    assert InFlight(w, call) == {};
  }

  lemma UnansweredStays(w: World, id: nat, tool: ToolRow, guardian: GuardianReply, signing: bool)
    requires id !in w.open || !Protected(tool)
    ensures AfterAsking(w, id, tool, guardian, signing) == w
  {
    if Protected(tool) {
      AskingUnfolds(w, id, tool, signing);
      assert w.open - {id} == w.open;
    }
  }

  lemma GivesUp(w: World, id: nat)
    requires w.open.Keys == {id}
    ensures Step(w, Abort(id)) == w.(open := map[])
  {
  }

  /** Without an open transaction the later steps of a call do nothing. */
  lemma ClosedStays(w: World, id: nat, reply: Reply)
    requires id !in w.open
    ensures Step(w, ConsumeToken(id)) == w && Step(w, Invoke(id, reply)) == w
  {
  }

  lemma UnopenedStays(w: World, id: nat, signing: bool, reply: Reply)
    requires id !in w.open
    ensures Step(Step(Step(w, AuthorizeCall(id, signing)), ConsumeToken(id)), Invoke(id, reply)) == w
  {
    ClosedStays(w, id, reply);
  }

  class Broker {
    const guardian: GuardianService.Service
    const names: map<nat, string>
    var nextCall: nat
    var calls: map<nat, Call>
    var results: map<nat, ToolResult>
    // What the tools saw.
    var log: seq<Invocation>
    ghost var asked: map<nat, Evaluation>

    constructor (guardian: GuardianService.Service, names: map<nat, string>)
      ensures this.guardian == guardian && this.names == names
      ensures forall now :: Snapshot(now) == Start(now, names).(guardian := guardian.Model())
    {
      this.guardian, this.names := guardian, names;
      nextCall, calls, results, log, asked := 0, map[], map[], [], map[];
    }

    /** The two services while the broker's own transaction on call `id`, if any, is open. */
    ghost function During(now: int, id: nat, tx: Option<Transaction>): World
      reads this, guardian
    {
      World(now, nextCall, guardian.Model(), calls, results,
            if tx.Some? then map[id := tx.value] else map[], log, names, asked, {})
    }

    ghost function Snapshot(now: int): World
      reads this, guardian
    {
      During(now, 0, None)
    }

    method StoreResult(id: nat, call: Call, result: ToolResult)
      modifies this`calls, this`results
      ensures calls == old(calls)[id := call.(status := result.status)]
      ensures results == old(results)[id := result]
    {
      calls := calls[id := call.(status := result.status)];
      results := results[id := result];
    }

    // Guardian answered with an error status: a protected call fails closed.
    method Block(id: nat, call: Call, tool: ToolRow, now: int)
      modifies this`calls, this`results
      ensures Snapshot(now) == DoUnavailable(old(During(now, id, Some(Transaction(false, tool, call, Checking)))), id)
    {
      StoreResult(id, call, ToolResult(Blocked, None));
    }

    /** Guardian's answer, if any; Guardian commits whatever it decided before the broker acts on it. */
    method AskGuardian(id: nat, call: Call, tool: ToolRow, now: int) returns (next: Transaction)
      requires call.requestHash.Sha256?
      modifies guardian`decisions, guardian`approvals, guardian`authorizations
      ensures During(now, id, Some(next)) ==
        DoEvaluate(old(During(now, id, Some(Transaction(false, tool, call, Checking)))), id, guardian.signing)
      ensures next == Transaction(false, tool, call, next.phase) && (next.phase == Checking || next.phase.Decided?)
    {
      var request := CanonicalRequest(id, call.requestHash.document, call.requestHash);
      var decision := guardian.EvaluateRequest(Evaluation(request, SnapshotOf(tool)), now);
      return Transaction(false, tool, call, if decision.Ok? then Decided(decision.value) else Checking);
    }

    method HearDecision(id: nat, call: Call, tool: ToolRow, response: Guardian.Response, now: int)
      returns (next: Option<Transaction>)
      modifies this`calls, this`results
      ensures During(now, id, next) ==
        DoHear(old(During(now, id, Some(Transaction(false, tool, call, Decided(response))))), id)
      ensures next.Some? ==> next.value.phase.Holding?
    {
      var decided := call.(decisionId := Some(response.decisionId));
      match response.outcome {
        case Escalate =>
          calls := calls[id := decided.(status := WaitingApproval)];
          return None;
        case Verify =>
          calls := calls[id := decided.(status := WaitingApproval)];
          return None;
        case Block =>
          StoreResult(id, decided, ToolResult(Blocked, None));
          return None;
        case Allow =>
          if response.grant.None? { return None; }
          return Some(Transaction(false, tool, decided, Holding(response.grant.value.token)));
      }
    }

    /** Guardian answers, and the broker acts on the answer. */
    method AskAndHear(id: nat, call: Call, tool: ToolRow, now: int) returns (next: Option<Transaction>)
      requires call.requestHash.Sha256?
      modifies this`calls, this`results, guardian`decisions, guardian`approvals, guardian`authorizations
      ensures var w := old(During(now, id, Some(Transaction(false, tool, call, Checking))));
        During(now, id, next) ==
          Step(Step(Step(w, EvaluateCall(id, guardian.signing)), Op.HearDecision(id)), GuardianUnavailable(id))
      ensures next.Some? ==> next.value.phase.Holding?
    {
      hide DoEvaluate, OnDecision;
      var asked := AskGuardian(id, call, tool, now);
      if asked.phase == Checking {
        Block(id, call, tool, now);
        return None;
      }
      next := HearDecision(id, call, tool, asked.phase.response, now);
    }

    /** Nobody answers: the request raises, and only what Guardian committed, if it was reached, remains. */
    method GiveUp(id: nat, call: Call, tool: ToolRow, reached: bool, now: int)
      requires call.requestHash.Sha256?
      modifies guardian`decisions, guardian`approvals, guardian`authorizations
      ensures var w := old(During(now, id, Some(Transaction(false, tool, call, Checking))));
        Snapshot(now) == Step(if reached then Step(w, EvaluateCall(id, guardian.signing)) else w, Abort(id))
    {
      hide DoEvaluate;
      if reached {
        var unheard := AskGuardian(id, call, tool, now);
        GivesUp(During(now, id, Some(unheard)), id);
      } else {
        GivesUp(During(now, id, Some(Transaction(false, tool, call, Checking))), id);
      }
    }

    /** The Guardian part of `execute`: asked and heard, failed closed, or given up in silence. */
    method Clear(id: nat, call: Call, tool: ToolRow, guardianReply: GuardianReply, now: int)
      returns (next: Option<Transaction>)
      requires call.requestHash.Sha256? && Protected(tool)
      modifies this`calls, this`results, guardian`decisions, guardian`approvals, guardian`authorizations
      ensures During(now, id, next) ==
        AfterAsking(old(During(now, id, Some(Transaction(false, tool, call, Checking)))), id, tool, guardianReply,
                    guardian.signing)
      ensures next.Some? ==> next.value.phase.Holding?
    {
      hide DoEvaluate, DoUnavailable, DoHear, AfterAsking;
      AskingUnfolds(During(now, id, Some(Transaction(false, tool, call, Checking))), id, tool, guardian.signing);
      match guardianReply {
        case Answered =>
          next := AskAndHear(id, call, tool, now);
        case Erred =>
          Block(id, call, tool, now);
          return None;
        case Silent(reached) =>
          GiveUp(id, call, tool, reached, now);
          return None;
      }
    }

    method AskForApproved(id: nat, call: Call, tool: ToolRow, now: int) returns (next: Option<Transaction>)
      modifies guardian`authorizations
      ensures During(now, id, next) ==
        DoAuthorize(old(During(now, id, Some(Transaction(true, tool, call, Resuming)))), id, guardian.signing)
      ensures next.Some? ==> next.value.phase.Holding?
    {
      var decision := guardian.Authorize(call.tenantId, id, call.requestHash, now);
      if decision.Err? || decision.value.grant.None? { return None; }
      var token := decision.value.grant.value.token;
      return Some(Transaction(true, tool, call.(decisionId := Some(decision.value.decisionId)), Holding(token)));
    }

    method Spend(id: nat, tx: Transaction, now: int) returns (next: Option<Transaction>)
      requires tx.phase.Holding?
      modifies guardian`authorizations
      ensures During(now, id, next) == DoConsume(old(During(now, id, Some(tx))), id)
      ensures next.Some? ==> next.value.phase.Authorized?
    {
      var consumed := guardian.ConsumeToken(tx.phase.token, id, tx.call.requestHash, now);
      if consumed.Err? { return None; }
      return Some(Spent(tx, consumed.value));
    }

    method CallTool(id: nat, tx: Transaction, reply: Reply, now: int) returns (result: ToolResult)
      requires tx.phase == Cleared || tx.phase.Authorized?
      modifies this`calls, this`results, this`log
      ensures Snapshot(now) == DoInvoke(old(During(now, id, Some(tx))), id, reply)
      ensures id in results && results[id] == result && |log| == |old(log)| + 1
    {
      var tool, call := tx.tool, tx.call;
      var sends: nat, projection: Option<string> := 0, None;
      if tool.core {
        projection := reply.coreResult;
      } else if reply.secretResolved {
        sends, projection := RemoteClient.CallTool(if tool.sideEffects then 0 else tool.maxRetries, reply.attempts);
      }
      log := log + [Invocation(id, call, tool, tx.resume, tool.originalName, call.arguments, sends, reply, true)];
      if projection.Some? && reply.bytes <= tool.maximumResultBytes {
        result := ToolResult(Succeeded, projection);
      } else {
        var outcomeUnknown := !tool.core && tool.sideEffects;
        result := ToolResult(if outcomeUnknown then Unknown else Failed, None);
      }
      StoreResult(id, call, result);
    }

    /** An authorization in hand is spent and the tool called, or the request ends there. */
    method SpendAndCall(id: nat, tx: Transaction, reply: Reply, now: int) returns (result: Option<ToolResult>)
      requires tx.phase.Holding?
      modifies this`calls, this`results, this`log, guardian`authorizations
      ensures Snapshot(now) == Step(Step(old(During(now, id, Some(tx))), ConsumeToken(id)), Invoke(id, reply))
      ensures result.Some? ==> id in results && results[id] == result.value && |log| == |old(log)| + 1
      ensures result.None? ==> calls == old(calls) && results == old(results) && log == old(log)
    {
      hide DoConsume, DoInvoke;
      var spent := Spend(id, tx, now);
      if spent.None? {
        ClosedStays(Snapshot(now), id, reply);
        return None;
      }
      var called := CallTool(id, spent.value, reply, now);
      return Some(called);
    }

    /** The part of `execute` after the call row is inserted; the answer is read off the rows. */
    method Proceed(id: nat, call: Call, tool: ToolRow, guardianReply: GuardianReply, reply: Reply, now: int)
      requires call.requestHash.Sha256? && id !in calls && id !in results
      modifies this`calls, this`results, this`log, guardian`decisions, guardian`approvals, guardian`authorizations
      ensures var phase := if Protected(tool) then Checking else Cleared;
        var w := old(During(now, id, Some(Transaction(false, tool, call, phase))));
        Snapshot(now) == AfterBegin(w, id, tool, guardianReply, guardian.signing, reply)
    {
      hide DoInvoke, AfterAsking;
      if tool.riskClass != Read || tool.approvalMode != Never {
        var cleared := Clear(id, call, tool, guardianReply, now);
        if cleared.None? {
          ClosedStays(Snapshot(now), id, reply);
          return;
        }
        var _ := SpendAndCall(id, cleared.value, reply, now);
      } else {
        var tx := Transaction(false, tool, call, Cleared);
        UnansweredStays(During(now, id, Some(tx)), id, tool, guardianReply, guardian.signing);
        var _ := CallTool(id, tx, reply, now);
      }
    }

    /** Resolution, access checks and idempotent replay: what `execute` may answer at once. */
    method Receive(request: Submit, tool: ToolRow, now: int) returns (early: Option<Result<SafeResult, BrokerError>>)
      ensures early.None? <==> KnownTool(Snapshot(now), tool) && OnSubmit(Snapshot(now), request, tool).Begun?
      ensures early.Some? ==> (forall g :: early.value == ExecuteAnswer(Snapshot(now), Snapshot(now), request, tool, g))
    {
      if tool.versionId !in names || names[tool.versionId] != tool.originalName { return Some(Err(ToolNotFound)); }
      var denied := ValidateAccess(request, tool);
      if denied.Some? { return Some(Err(AccessDenied(denied.value))); }
      if !HasKey(request.idempotencyKey) { return None; }
      var call := NewCall(request, tool);
      var existing := FindCall(calls, KeyOf(call).value, 0, nextCall);
      if existing.None? { return None; }
      if calls[existing.value].requestHash != call.requestHash { return Some(Err(IdempotencyConflict)); }
      if existing.value !in results { return Some(Err(CallInProgress)); }
      return Some(Ok(Stored(existing.value, results[existing.value])));
    }

    method ExecuteFresh(request: Submit, tool: ToolRow, guardianReply: GuardianReply, reply: Reply, now: int)
      requires KnownTool(Snapshot(now), tool) && OnSubmit(Snapshot(now), request, tool).Begun?
      requires nextCall !in calls && nextCall !in results
      modifies this, guardian`decisions, guardian`approvals, guardian`authorizations
      ensures Snapshot(now) ==
        AfterBegin(Step(old(Snapshot(now)), BeginExecute(request, tool)), old(nextCall), tool, guardianReply,
                   guardian.signing, reply)
    {
      ghost var before := Snapshot(now);
      var id := nextCall;
      var call := NewCall(request, tool);
      nextCall := nextCall + 1;
      ghost var tx := Transaction(false, tool, call, if Protected(tool) then Checking else Cleared);
      if Protected(tool) { asked := asked[id := EvaluationOf(id, tx)]; }
      NothingInFlight(before, call);
      assert During(now, id, Some(tx)) == Step(before, BeginExecute(request, tool));
      Proceed(id, call, tool, guardianReply, reply, now);
    }

    method Execute(request: Submit, tool: ToolRow, guardianReply: GuardianReply, reply: Reply, now: int)
      returns (r: Result<SafeResult, BrokerError>)
      requires nextCall !in calls && nextCall !in results
      modifies this, guardian`decisions, guardian`approvals, guardian`authorizations
      ensures Snapshot(now) ==
        Run(old(Snapshot(now)), ExecuteSteps(old(nextCall), request, tool, guardianReply, guardian.signing, reply))
      ensures r == ExecuteAnswer(old(Snapshot(now)), Snapshot(now), request, tool, guardianReply)
    {
      ghost var before := Snapshot(now);
      var early := Receive(request, tool, now);
      var id := nextCall;
      if early.None? {
        BegunRuns(before, request, tool, guardianReply, guardian.signing, reply);
        ExecuteFresh(request, tool, guardianReply, reply, now);
        r := if id in results then Ok(Stored(id, results[id]))
             else if id in calls then Ok(ApprovalRequired(id))
             else if Protected(tool) && guardianReply.Silent? then Err(GuardianSilent)
             else Err(AuthorizationRejected);
      } else {
        RefusedStays(before, request, tool, guardianReply, guardian.signing, reply);
        r := early.value;
      }
    }

    /** The checks of `resume`, up to the call it locks. */
    method Reopen(tenantId: nat, id: nat, tool: ToolRow, correlationId: nat, now: int)
      returns (r: Result<Call, BrokerError>)
      ensures Step(Snapshot(now), BeginResume(tenantId, id, tool, correlationId)) ==
        if r.Ok? then During(now, id, Some(Transaction(true, tool, r.value, Resuming))) else Snapshot(now)
    {
      if id !in calls || calls[id].tenantId != tenantId { return Err(CallNotFound); }
      if calls[id].status != WaitingApproval { return Err(CallNotResumable); }
      if || tool.versionId !in names || names[tool.versionId] != tool.originalName
         || tool.versionId != calls[id].toolVersionId { return Err(ToolNotFound); }
      return Ok(calls[id].(correlationId := correlationId));
    }

    method Resume(tenantId: nat, id: nat, tool: ToolRow, correlationId: nat, reply: Reply, now: int)
      returns (r: Result<SafeResult, BrokerError>)
      modifies this, guardian`authorizations
      ensures Snapshot(now) ==
        Run(old(Snapshot(now)), ResumeSteps(tenantId, id, tool, correlationId, guardian.signing, reply))
      ensures r.Ok? ==> id in results && r.value == Stored(id, results[id])
      ensures r.Ok? <==> |log| == |old(log)| + 1
      ensures r.Err? ==> calls == old(calls) && results == old(results) && log == old(log)
    {
      hide DoBeginResume, DoAuthorize, DoConsume, DoInvoke, Run;
      ghost var before := Snapshot(now);
      FourSteps(before, BeginResume(tenantId, id, tool, correlationId), AuthorizeCall(id, guardian.signing),
                ConsumeToken(id), Invoke(id, reply));
      var call := Reopen(tenantId, id, tool, correlationId, now);
      if call.Err? {
        UnopenedStays(before, id, guardian.signing, reply);
        return Err(call.error);
      }
      var granted := AskForApproved(id, call.value, tool, now);
      if granted.None? {
        ClosedStays(Snapshot(now), id, reply);
        return Err(AuthorizationRejected);
      }
      var result := SpendAndCall(id, granted.value, reply, now);
      if result.None? { return Err(AuthorizationRejected); }
      return Ok(Stored(id, result.value));
    }
  }
}
