/** What the rows of a call say about what happened to it: who was let in, what was decided, what the tool answered. */
module ProtocolOutcomes {
  import opened Contracts
  import Guardian
  import Policy
  import RemoteClient
  import opened Protocol
  import opened ProtocolSafety

  // ---------------------------------------------------------- tool and reply

  /** A tool with side effects gets one attempt. */
  function Retries(tool: ToolRow): nat {
    if tool.sideEffects then 0 else tool.maxRetries
  }

  /** Attempt `j` was answered, and none before it. */
  predicate FirstReturn(reply: Reply, j: nat) {
    && j < |reply.attempts| && reply.attempts[j].Returned?
    && forall k :: 0 <= k < j ==> !reply.attempts[k].Returned?
  }

  /** A core tool answers itself; of a remote one the first answer among the allowed attempts counts. */
  ghost predicate Yields(tool: ToolRow, reply: Reply, projection: string) {
    if tool.core then reply.coreResult == Some(projection)
    else
      && reply.secretResolved
      && exists j :: 0 <= j < |reply.attempts| && j <= Retries(tool) && FirstReturn(reply, j)
                     && reply.attempts[j] == RemoteClient.Returned(projection)
  }

  /**
   SUCCEEDED with exactly the projection that the reply yields within the size limit; else UNKNOWN if something may
   have happened outside, and FAILED if not.
   */
  ghost predicate Truthful(tool: ToolRow, reply: Reply, result: ToolResult) {
    && (forall p :: result == ToolResult(Succeeded, Some(p)) <==>
          Yields(tool, reply, p) && reply.bytes <= tool.maximumResultBytes)
    && (result.status == Succeeded <==> result.projection.Some?)
    && (result.status == Unknown <==> result.status != Succeeded && !tool.core && tool.sideEffects)
    && (result.status == Failed <==> result.status != Succeeded && (tool.core || !tool.sideEffects))
  }

  /** The attempts end at `last`: with the first answer, or unanswered after the allowed retries. */
  ghost predicate EndsAt(tool: ToolRow, reply: Reply, last: nat) {
    || (last <= Retries(tool) && FirstReturn(reply, last))
    || (last == Retries(tool) && forall k :: 0 <= k < |reply.attempts| && k <= last ==> !reply.attempts[k].Returned?)
  }

  /** Every attempt up to the last that left is counted; a core tool and a missing secret send nothing. */
  ghost predicate Counted(tool: ToolRow, reply: Reply, sends: nat) {
    if tool.core || !reply.secretResolved then sends == 0
    else forall last: nat :: EndsAt(tool, reply, last) ==>
      sends == |set k | 0 <= k < |reply.attempts| && k <= last && reply.attempts[k] != RemoteClient.Unsent|
  }

  lemma FirstReturnMeans(reply: Reply, j: nat)
    ensures FirstReturn(reply, j) <==> RemoteClient.FirstAnswer(reply.attempts, 0, j)
  {
    if FirstReturn(reply, j) {
      forall k: nat | k < j ensures !RemoteClient.Answered(reply.attempts, k) {}
    }
    if RemoteClient.FirstAnswer(reply.attempts, 0, j) {
      forall k | 0 <= k < j ensures !reply.attempts[k].Returned? { assert !RemoteClient.Answered(reply.attempts, k); }
    }
  }

  lemma ResultIsTruthful(tool: ToolRow, reply: Reply)
    ensures Truthful(tool, reply, ResultOf(tool, reply))
  {
    var result := CallOutcome(tool, reply).result;
    forall p ensures result == Some(p) <==> Yields(tool, reply, p) {
      forall j: nat | FirstReturn(reply, j) ensures RemoteClient.FirstAnswer(reply.attempts, 0, j) {
        FirstReturnMeans(reply, j);
      }
      if !tool.core && reply.secretResolved && result.Some? {
        var j: nat :| j <= Retries(tool) && RemoteClient.Answered(reply.attempts, j);
        var first := RemoteClient.FirstOf(reply.attempts, 0, j);
        FirstReturnMeans(reply, first);
      }
    }
  }

  lemma SendsAreCounted(tool: ToolRow, reply: Reply)
    ensures Counted(tool, reply, CallOutcome(tool, reply).sends)
  {
    if !tool.core && reply.secretResolved {
      forall last: nat | EndsAt(tool, reply, last)
        ensures CallOutcome(tool, reply).sends ==
          |set k | 0 <= k < |reply.attempts| && k <= last && reply.attempts[k] != RemoteClient.Unsent|
      {
        if FirstReturn(reply, last) { FirstReturnMeans(reply, last); }
        RemoteClient.SendsAreTheAttemptsThatLeft(reply.attempts, 0, Retries(tool), last);
        assert (set k | 0 <= k < |reply.attempts| && k <= last && reply.attempts[k] != RemoteClient.Unsent)
            == RemoteClient.Left(reply.attempts, 0, last);
      }
    }
  }

  // --------------------------------------------------------------- admission

  /** The call may use the tool: everything the broker asks of a first request, read off the hashed document. */
  predicate Admitted(hash: RequestHash, tool: ToolRow) {
    && hash.Sha256?
    && var d := hash.document;
       && tool.active && d.scope.sessionId.Some?
       && (tool.allowedAgents == {} || d.agentName in tool.allowedAgents)
       && tool.requiredRoles <= d.scope.roles
       && (tool.requiredPurposes == {} || d.purpose in tool.requiredPurposes)
       && tool.requiredConsents <= d.scope.consentIds
       && (tool.sideEffects ==> d.idempotencyKey.Some? && d.idempotencyKey.value != "")
  }

  /** A committed row carries the key this request brings for this tool. */
  predicate KeyUsed(w: World, request: Submit, tool: ToolRow) {
    && request.idempotencyKey.Some? && request.idempotencyKey.value != ""
    && exists id :: id in w.calls && w.calls[id].idempotencyKey == request.idempotencyKey
                    && w.calls[id].tenantId == request.scope.tenantId && w.calls[id].toolVersionId == tool.versionId
  }

  /** The row a request begins with: what the request brought and what the tool is. */
  predicate Begins(c: Call, request: Submit, tool: ToolRow) {
    && c.requestHash.Sha256?
    && var d := c.requestHash.document;
       && d.runId == request.runId && d.agentName == request.agentName && d.scope == request.scope
       && d.arguments == request.arguments && d.purpose == request.purpose && d.resourceRefs == request.resourceRefs
       && d.idempotencyKey == request.idempotencyKey
       && d.serverId == tool.serverId && d.toolVersionId == tool.versionId
       && d.canonicalName == tool.canonicalName && d.originalName == tool.originalName
       && c.correlationId == request.scope.correlationId && c.decisionId == None
  }

  lemma AccessMeans(request: Submit, tool: ToolRow)
    ensures ValidateAccess(request, tool).None? <==>
      Admitted(NewCall(request, tool).requestHash, tool) && request.argumentsValid
  {
    assert tool.requiredRoles - request.scope.roles == {} <==> tool.requiredRoles <= request.scope.roles by {
      if tool.requiredRoles - request.scope.roles == {} {
        forall r | r in tool.requiredRoles ensures r in request.scope.roles {
          assert r !in tool.requiredRoles - request.scope.roles;
        }
      }
    }
    var consents, given := tool.requiredConsents, request.scope.consentIds;
    assert consents - given == {} <==> consents <= given by {
      if consents - given == {} { forall c | c in consents ensures c in given { assert c !in consents - given; } }
    }
  }

  lemma KeyUsedMeans(w: World, request: Submit, tool: ToolRow)
    requires RowsOk(w)
    ensures var key := KeyOf(NewCall(request, tool));
      KeyUsed(w, request, tool) <==> key.Some? && FindCall(w.calls, key.value, 0, w.nextCall).Some?
  {
    hide FindCall;
    var key := KeyOf(NewCall(request, tool));
    if KeyUsed(w, request, tool) {
      var id :| id in w.calls && w.calls[id].idempotencyKey == request.idempotencyKey
        && w.calls[id].tenantId == request.scope.tenantId && w.calls[id].toolVersionId == tool.versionId;
      assert CommittedOk(w, id, w.calls[id]) && KeyOf(w.calls[id]) == key;
    }
    if key.Some? && FindCall(w.calls, key.value, 0, w.nextCall).Some? {
      var id := FindCall(w.calls, key.value, 0, w.nextCall).value;
      assert KeyOf(w.calls[id]) == key;
    }
  }

  lemma BegunSays(request: Submit, tool: ToolRow)
    ensures Begins(NewCall(request, tool), request, tool)
  {
  }

  lemma BegunMeans(w: World, request: Submit, tool: ToolRow)
    requires RowsOk(w)
    ensures OnSubmit(w, request, tool).Begun? <==>
      && request.argumentsValid && Admitted(NewCall(request, tool).requestHash, tool) && !KeyUsed(w, request, tool)
  {
    AccessMeans(request, tool);
    KeyUsedMeans(w, request, tool);
    hide ValidateAccess, FindCall, KeyUsed, Admitted, RowsOk, NewCall, KeyOf;
  }

  lemma BegunOpens(w: World, request: Submit, tool: ToolRow)
    requires w.nextCall !in w.open
    ensures var w' := Step(w, BeginExecute(request, tool));
      if KnownTool(w, tool) && OnSubmit(w, request, tool).Begun?
      then
        w.nextCall in w'.open
        && w'.open[w.nextCall] ==
             Transaction(false, tool, NewCall(request, tool),
                         if tool.riskClass == Read && tool.approvalMode == Never then Cleared else Checking)
      else w' == w
  {
    hide OnSubmit, NewCall, InFlight, EvaluationOf, KnownTool;
    assert NewCall(request, tool).requestHash.Sha256? by { BegunSays(request, tool); }
  }

  /** A submit opens a transaction exactly if the tool is known, the request admitted and its key unused. */
  lemma SubmitsBeginExactlyWhenAdmitted(w: World, request: Submit, tool: ToolRow)
    requires Inv(w)
    ensures var w' := Step(w, BeginExecute(request, tool));
      var id := w.nextCall;
      && (id in w'.open <==>
            && KnownTool(w, tool) && request.argumentsValid && Admitted(NewCall(request, tool).requestHash, tool)
            && !KeyUsed(w, request, tool))
      && (id in w'.open ==>
            && w'.open[id].tool == tool && !w'.open[id].resume && Begins(w'.open[id].call, request, tool)
            && w'.open[id].phase ==
                 (if tool.riskClass == Read && tool.approvalMode == Never then Cleared else Checking))
      && (id !in w'.open ==> w' == w)
  {
    FreshId(w);
    BegunMeans(w, request, tool);
    BegunOpens(w, request, tool);
    BegunSays(request, tool);
    hide Step, OnSubmit, KeyUsed, Inv, Admitted, KnownTool, NewCall, Begins;
  }

  // --------------------------------------------------------------- invariant

  /** Decision `d` is about this call's own request. */
  predicate About(g: Guardian.State, d: nat, id: nat, c: Call) {
    d < |g.decisions| && g.decisions[d].callId == id && g.decisions[d].requestHash == c.requestHash
  }

  /** The policy blocked the request, or an approver rejected it. */
  predicate Refused(g: Guardian.State, d: nat)
    requires d < |g.decisions|
  {
    g.decisions[d].outcome == Policy.Block || (d in g.approvals && g.approvals[d].status == Guardian.Rejected)
  }

  /** Authorization `a` was issued under decision `d`. */
  predicate Under(g: Guardian.State, a: nat, d: nat) {
    a < |g.authorizations| && g.authorizations[a].decisionId == d
  }

  /** Guardian's answer as its records bear it out. */
  predicate Borne(g: Guardian.State, id: nat, c: Call, r: Guardian.Response) {
    && About(g, r.decisionId, id, c)
    && match r.outcome
       case Escalate => g.decisions[r.decisionId].outcome == Policy.Escalate
       case Block => Refused(g, r.decisionId)
       case Allow =>
         && r.grant.Some? && Under(g, r.grant.value.token.authorizationId, r.decisionId)
         && g.authorizations[r.grant.value.token.authorizationId].token == r.grant.value.token
       case Verify => false
  }

  predicate PhaseOk(g: Guardian.State, id: nat, tx: Transaction) {
    && (!tx.resume ==> Admitted(tx.call.requestHash, tx.tool))
    && match tx.phase
       case Decided(r) => tx.call.decisionId == None && Borne(g, id, tx.call, r)
       case Holding(token) =>
         && tx.call.decisionId.Some? && Under(g, token.authorizationId, tx.call.decisionId.value)
         && g.authorizations[token.authorizationId].token == token
       case Authorized(a) => tx.call.decisionId.Some? && Under(g, a, tx.call.decisionId.value)
       case Resuming => true
       case _ => tx.call.decisionId == None
  }

  /** Invocation `k` is the one whose result call `id` stores. */
  predicate Stores(w: World, k: nat, id: nat) {
    k < |w.log| && w.log[k].callId == id && w.log[k].committed
  }

  ghost predicate RowOk(w: World, id: nat)
    requires id in w.calls
  {
    var c := w.calls[id];
    match c.status
    case Validated => false
    case WaitingApproval =>
      && c.decisionId.Some? && About(w.guardian, c.decisionId.value, id, c)
      && w.guardian.decisions[c.decisionId.value].outcome == Policy.Escalate
    case Blocked =>
      && id in w.results && w.results[id] == ToolResult(Blocked, None)
      && (c.decisionId.Some? ==>
            About(w.guardian, c.decisionId.value, id, c) && Refused(w.guardian, c.decisionId.value))
    case _ =>
      && id in w.results && w.results[id].status == c.status
      && exists k :: Stores(w, k, id)
  }

  ghost predicate EntryOk(w: World, inv: Invocation) {
    && (!inv.resumed ==> Admitted(inv.call.requestHash, inv.tool))
    && (inv.call.authorizationId.Some? ==>
          inv.call.decisionId.Some? && Under(w.guardian, inv.call.authorizationId.value, inv.call.decisionId.value))
    && Counted(inv.tool, inv.reply, inv.sends)
    && (inv.committed ==> inv.callId in w.results && Truthful(inv.tool, inv.reply, w.results[inv.callId]))
  }

  ghost predicate OutcomesOk(w: World) {
    && (forall id :: id in w.open ==> PhaseOk(w.guardian, id, w.open[id]))
    && (forall id :: id in w.calls ==> RowOk(w, id))
    && (forall k :: 0 <= k < |w.log| ==> EntryOk(w, w.log[k]))
  }

  // ------------------------------------------------------------------ frames

  lemma PhaseStays(g: Guardian.State, g': Guardian.State, id: nat, tx: Transaction)
    requires PhaseOk(g, id, tx) && Guardian.Extends(g, g')
    ensures PhaseOk(g', id, tx)
  {
    hide Admitted;
    if tx.phase.Decided? {
      var d := tx.phase.response.decisionId;
      assert g'.decisions[..|g.decisions|][d] == g'.decisions[d];
    }
  }

  lemma RowStays(w: World, w': World, id: nat)
    requires id in w.calls && RowOk(w, id) && Guardian.Extends(w.guardian, w'.guardian)
    requires id in w'.calls && w'.calls[id] == w.calls[id]
    requires id in w.results ==> id in w'.results && w'.results[id] == w.results[id]
    requires w.log <= w'.log
    ensures RowOk(w', id)
  {
    var c := w.calls[id];
    if c.decisionId.Some? && c.decisionId.value < |w.guardian.decisions| {
      assert w'.guardian.decisions[..|w.guardian.decisions|][c.decisionId.value]
          == w'.guardian.decisions[c.decisionId.value];
    }
    if c.status in {Succeeded, Failed, Unknown} {
      var k :| Stores(w, k, id);
      assert Stores(w', k, id);
    }
  }

  lemma EntryStays(w: World, w': World, inv: Invocation)
    requires EntryOk(w, inv) && Guardian.Extends(w.guardian, w'.guardian)
    requires forall i :: i in w.results ==> i in w'.results && w'.results[i] == w.results[i]
    ensures EntryOk(w', inv)
  {
    hide Admitted, Counted, Truthful;
  }

  /** Only call `id` changed; results are kept, and new log entries are in order. */
  lemma OutcomesFrame(w: World, w': World, id: nat)
    requires OutcomesOk(w) && Guardian.Extends(w.guardian, w'.guardian)
    requires forall i :: i in w.results ==> i in w'.results && w'.results[i] == w.results[i]
    requires w.log <= w'.log && forall k :: |w.log| <= k < |w'.log| ==> EntryOk(w', w'.log[k])
    requires forall i :: i in w'.calls ==> (i in w.calls && w'.calls[i] == w.calls[i]) || (i == id && RowOk(w', i))
    requires forall i :: i in w'.open ==>
      (i in w.open && w'.open[i] == w.open[i]) || (i == id && PhaseOk(w'.guardian, i, w'.open[i]))
    ensures OutcomesOk(w')
  {
    hide PhaseOk, RowOk, EntryOk, Guardian.Extends;
    forall i | i in w'.open ensures PhaseOk(w'.guardian, i, w'.open[i]) {
      if i in w.open && w'.open[i] == w.open[i] { PhaseStays(w.guardian, w'.guardian, i, w.open[i]); }
    }
    forall i | i in w'.calls ensures RowOk(w', i) {
      if i in w.calls && w'.calls[i] == w.calls[i] { RowStays(w, w', i); }
    }
    forall k | 0 <= k < |w'.log| ensures EntryOk(w', w'.log[k]) {
      if k < |w.log| { EntryStays(w, w', w.log[k]); }
    }
  }

  // ------------------------------------------------------------------- steps

  lemma SameGuardian(g: Guardian.State)
    ensures Guardian.Extends(g, g)
  {
  }

  /** What Guardian answers to an evaluation its own records bear out. */
  lemma AnswerIsBorne(g: Guardian.State, e: Evaluation, now: int, signing: bool, c: Call)
    requires Guardian.Inv(g, now) && Guardian.Evaluate(g, e, now, signing).Ok? && c.requestHash == e.request.requestHash
    ensures var (g', r) := Guardian.Evaluate(g, e, now, signing).value; Borne(g', e.request.callId, c, r)
  {
    hide Policy.Evaluate;
    var q := e.request;
    var found := Guardian.LatestLive(g.decisions, q.document.scope.tenantId, q.callId, q.requestHash, now);
    Guardian.PolicyNeverVerifies(e);
    if found.Some? && found.value in g.approvals {
      assert Guardian.ApprovalOk(g.decisions[found.value], g.approvals[found.value]);
    }
  }

  lemma BeginKeepsOutcomes(w: World, request: Submit, tool: ToolRow)
    requires Inv(w) && OutcomesOk(w)
    ensures OutcomesOk(DoBeginExecute(w, request, tool))
  {
    hide ValidateAccess, Admitted, FindCall, Inv, RowOk, EntryOk, Guardian.Extends;
    AccessMeans(request, tool);
    SameGuardian(w.guardian);
    OutcomesFrame(w, DoBeginExecute(w, request, tool), w.nextCall);
  }

  lemma EvaluateKeepsOutcomes(w: World, id: nat, signing: bool)
    requires Inv(w) && OutcomesOk(w)
    ensures OutcomesOk(DoEvaluate(w, id, signing))
  {
    hide Guardian.Evaluate, Admitted, RowOk, EntryOk, Guardian.Extends, Borne, Guardian.Inv;
    var w' := DoEvaluate(w, id, signing);
    if w' != w {
      var e := EvaluationOf(id, w.open[id]);
      Guardian.EvaluateKeepsInv(w.guardian, e, w.now, signing);
      AnswerIsBorne(w.guardian, e, w.now, signing, w.open[id].call);
      OutcomesFrame(w, w', id);
    }
  }

  lemma OpenHasNoResult(w: World, id: nat)
    requires Inv(w) && id in w.open
    ensures id !in w.results
  {
    hide Guardian.Inv;
    assert TransactionOk(w, id, w.open[id]);
  }

  /** Acting on an answer that Guardian's records bear out leaves the call in order. */
  lemma HeardIsOk(w: World, id: nat)
    requires id in w.open && w.open[id].phase.Decided? && PhaseOk(w.guardian, id, w.open[id]) && id !in w.results
    ensures var w' := DoHear(w, id);
      && (id in w'.calls ==> (id in w.calls && w'.calls[id] == w.calls[id]) || RowOk(w', id))
      && (id in w'.open ==> PhaseOk(w'.guardian, id, w'.open[id]))
  {
    hide Admitted;
    var r := w.open[id].phase.response;
    if r.outcome == Policy.Allow {
      hide RowOk, Commit;
      assert OnDecision(w, id, r) == OnGrant(w, id, r);
    } else {
      hide OnGrant;
      assert id !in OnDecision(w, id, r).open;
    }
  }

  /** Rows and transactions other than `id`'s, Guardian and the log are as they were. */
  ghost predicate MovesOne(w: World, w': World, id: nat) {
    && w'.guardian == w.guardian && w'.log == w.log
    && (forall i :: i in w.results ==> i in w'.results && w'.results[i] == w.results[i])
    && (forall i :: i in w'.calls && i != id ==> i in w.calls && w'.calls[i] == w.calls[i])
    && (forall i :: i in w'.open && i != id ==> i in w.open && w'.open[i] == w.open[i])
  }

  lemma CommitMovesOne(w: World, id: nat, call: Call)
    requires id !in w.results
    ensures MovesOne(w, CommitUncalled(w, id, call), id)
  {
  }

  lemma HearingMovesOne(w: World, id: nat, response: Guardian.Response)
    requires id in w.open && id !in w.results
    ensures MovesOne(w, OnDecision(w, id, response), id)
  {
    hide CommitUncalled, MovesOne;
    var call := w.open[id].call.(decisionId := Some(response.decisionId));
    match response.outcome {
      case Escalate => CommitMovesOne(w, id, call.(status := WaitingApproval));
      case Verify => CommitMovesOne(w, id, call.(status := WaitingApproval));
      case Block => CommitMovesOne(w, id, call.(status := Blocked));
      case Allow => GrantMovesOne(w, id, response);
    }
  }

  lemma GrantMovesOne(w: World, id: nat, response: Guardian.Response)
    requires id in w.open
    ensures MovesOne(w, OnGrant(w, id, response), id)
  {
  }

  lemma HearKeepsOutcomes(w: World, id: nat)
    requires Inv(w) && OutcomesOk(w)
    ensures OutcomesOk(DoHear(w, id))
  {
    hide Inv, RowOk, EntryOk, Guardian.Extends, PhaseOk, OnDecision;
    if id in w.open && w.open[id].phase.Decided? {
      OpenHasNoResult(w, id);
      SameGuardian(w.guardian);
      HeardIsOk(w, id);
      HearingMovesOne(w, id, w.open[id].phase.response);
      OutcomesFrame(w, DoHear(w, id), id);
    }
  }

  lemma UnavailableKeepsOutcomes(w: World, id: nat)
    requires Inv(w) && OutcomesOk(w)
    ensures OutcomesOk(DoUnavailable(w, id))
  {
    hide Inv, Admitted, EntryOk, Guardian.Extends;
    var w' := DoUnavailable(w, id);
    if w' != w {
      OpenHasNoResult(w, id);
      SameGuardian(w.guardian);
      assert PhaseOk(w.guardian, id, w.open[id]);
      OutcomesFrame(w, w', id);
    }
  }

  lemma CloseKeepsOutcomes(w: World, id: nat)
    requires OutcomesOk(w)
    ensures OutcomesOk(Close(w, id))
  {
    hide PhaseOk, RowOk, EntryOk, Guardian.Extends;
    SameGuardian(w.guardian);
    OutcomesFrame(w, Close(w, id), id);
  }

  lemma BeginResumeKeepsOutcomes(w: World, tenantId: nat, id: nat, tool: ToolRow, correlationId: nat)
    requires OutcomesOk(w)
    ensures OutcomesOk(DoBeginResume(w, tenantId, id, tool, correlationId))
  {
    hide RowOk, EntryOk, Guardian.Extends;
    SameGuardian(w.guardian);
    OutcomesFrame(w, DoBeginResume(w, tenantId, id, tool, correlationId), id);
  }

  lemma GuardianKeepsOutcomes(w: World, g: Guardian.State)
    requires OutcomesOk(w) && Guardian.Extends(w.guardian, g)
    ensures OutcomesOk(w.(guardian := g))
  {
    hide PhaseOk, RowOk, EntryOk, Guardian.Extends;
    OutcomesFrame(w, w.(guardian := g), 0);
  }

  lemma AuthorizedUnder(
    g: Guardian.State, tenantId: nat, callId: nat, hash: RequestHash, now: int, signing: bool)
    requires Guardian.AuthorizeApproved(g, tenantId, callId, hash, now, signing).Ok?
    ensures var (g', r) := Guardian.AuthorizeApproved(g, tenantId, callId, hash, now, signing).value;
      && r.grant.Some? && Under(g', r.grant.value.token.authorizationId, r.decisionId)
      && g'.authorizations[r.grant.value.token.authorizationId].token == r.grant.value.token
  {
  }

  lemma GrantIsOk(w: World, id: nat, response: Guardian.Response)
    requires id in w.open && w.open[id].resume && response.grant.Some?
    requires Under(w.guardian, response.grant.value.token.authorizationId, response.decisionId)
    requires w.guardian.authorizations[response.grant.value.token.authorizationId].token == response.grant.value.token
    ensures var w' := OnGrant(w, id, response);
      && id in w'.open && PhaseOk(w'.guardian, id, w'.open[id])
      && w' == w.(open := w.open[id := w'.open[id]])
  {
  }

  lemma ResumingIsResume(w: World, id: nat)
    requires Inv(w) && id in w.open && w.open[id].phase == Resuming
    ensures w.open[id].resume
  {
    hide Guardian.Inv, RowsOk, LogOk, HoldersOk, LogKeysOk;
    assert TransactionOk(w, id, w.open[id]);
  }

  lemma AuthorizeKeepsOutcomes(w: World, id: nat, signing: bool)
    requires Inv(w) && OutcomesOk(w)
    ensures OutcomesOk(DoAuthorize(w, id, signing))
  {
    hide Guardian.AuthorizeApproved, Inv, RowOk, EntryOk, PhaseOk, Guardian.Extends, OnGrant;
    if id in w.open && w.open[id].phase == Resuming {
      var tx := w.open[id];
      ResumingIsResume(w, id);
      WellGuarded(w);
      var r := Guardian.AuthorizeApproved(w.guardian, tx.call.tenantId, id, tx.call.requestHash, w.now, signing);
      if r.Ok? {
        AuthorizedUnder(w.guardian, tx.call.tenantId, id, tx.call.requestHash, w.now, signing);
        Guardian.AuthorizeApprovedKeepsInv(w.guardian, tx.call.tenantId, id, tx.call.requestHash, w.now, signing);
        GrantIsOk(w.(guardian := r.value.0), id, r.value.1);
        OutcomesFrame(w, DoAuthorize(w, id, signing), id);
      } else {
        CloseKeepsOutcomes(w, id);
      }
    }
  }

  lemma WellGuarded(w: World)
    requires Inv(w)
    ensures Guardian.Inv(w.guardian, w.now)
  {
  }

  lemma SpentIsHeld(g: Guardian.State, token: Guardian.Token, id: nat, hash: RequestHash, now: int)
    requires Guardian.Consume(g, token, id, hash, now).Ok?
    ensures Guardian.Consume(g, token, id, hash, now).value.1 == token.authorizationId
  {
  }

  lemma ConsumeKeepsOutcomes(w: World, id: nat)
    requires Inv(w) && OutcomesOk(w)
    ensures OutcomesOk(DoConsume(w, id))
  {
    hide Guardian.Consume, Inv, RowOk, EntryOk, Guardian.Extends, Admitted;
    WellGuarded(w);
    if id in w.open && w.open[id].phase.Holding? {
      var tx := w.open[id];
      assert PhaseOk(w.guardian, id, tx);
      var r := Guardian.Consume(w.guardian, tx.phase.token, id, tx.call.requestHash, w.now);
      if r.Ok? {
        Guardian.ConsumeKeepsInv(w.guardian, tx.phase.token, id, tx.call.requestHash, w.now);
        SpentIsHeld(w.guardian, tx.phase.token, id, tx.call.requestHash, w.now);
        PhaseStays(w.guardian, r.value.0, id, tx);
        OutcomesFrame(w, DoConsume(w, id), id);
      } else {
        CloseKeepsOutcomes(w, id);
      }
    }
  }

  /** The invocation of an open call that is ready is in order wherever its result is stored. */
  lemma InvokedIsOk(w: World, w': World, id: nat, reply: Reply, committed: bool)
    requires Inv(w) && OutcomesOk(w) && ReadyToCall(w, id) && w'.guardian == w.guardian
    requires committed ==> id in w'.results && w'.results[id] == ResultOf(w.open[id].tool, reply)
    ensures EntryOk(w', InvocationOf(w, id, reply, committed))
  {
    hide Admitted, Counted, Truthful, ResultOf, CallOutcome, Guardian.Inv, RowsOk, LogOk, HoldersOk, LogKeysOk;
    ResultIsTruthful(w.open[id].tool, reply);
    SendsAreCounted(w.open[id].tool, reply);
    assert TransactionOk(w, id, w.open[id]) && PhaseOk(w.guardian, id, w.open[id]);
  }

  lemma InvokeKeepsOutcomes(w: World, id: nat, reply: Reply)
    requires Inv(w) && OutcomesOk(w)
    ensures OutcomesOk(DoInvoke(w, id, reply))
  {
    hide Inv, EntryOk, PhaseOk, Guardian.Extends, InvocationOf, CallOutcome;
    if ReadyToCall(w, id) {
      var w' := DoInvoke(w, id, reply);
      OpenHasNoResult(w, id);
      SameGuardian(w.guardian);
      InvokedIsOk(w, w', id, reply, true);
      StoredBy(w, id, reply);
      OutcomesFrame(w, w', id);
    }
  }

  lemma StoredBy(w: World, id: nat, reply: Reply)
    requires ReadyToCall(w, id)
    ensures var w' := DoInvoke(w, id, reply); id in w'.calls && RowOk(w', id)
  {
    hide CallOutcome;
    assert Stores(DoInvoke(w, id, reply), |w.log|, id);
  }

  lemma LoseKeepsOutcomes(w: World, id: nat, reply: Reply)
    requires Inv(w) && OutcomesOk(w)
    ensures OutcomesOk(DoInvokeThenLose(w, id, reply))
  {
    hide Inv, EntryOk, PhaseOk, RowOk, Guardian.Extends, InvocationOf;
    if ReadyToCall(w, id) {
      var w' := DoInvokeThenLose(w, id, reply);
      SameGuardian(w.guardian);
      NotCommitted(w, id, reply);
      InvokedIsOk(w, w', id, reply, false);
      OutcomesFrame(w, w', id);
    }
  }

  lemma NotCommitted(w: World, id: nat, reply: Reply)
    requires id in w.open
    ensures !InvocationOf(w, id, reply, false).committed
  {
  }

  /** Steps of Guardian alone. */
  lemma ElsewhereKeepsOutcomes(w: World, op: Op)
    requires Inv(w) && OutcomesOk(w)
    requires op.ActOnApproval? || op.EvaluateElsewhere? || op.AuthorizeElsewhere? || op.ConsumeElsewhere?
    ensures OutcomesOk(Step(w, op))
  {
    hide OutcomesOk, Guardian.Extends, Guardian.Inv, Guardian.Evaluate, Guardian.AuthorizeApproved, Guardian.Consume,
         Guardian.ActOnApproval, MayAsk;
    SameGuardian(w.guardian);
    match op {
      case ActOnApproval(tenantId, decisionId, action) =>
        Guardian.ActKeepsInv(w.guardian, tenantId, decisionId, action, w.now);
      case EvaluateElsewhere(e, signing) => Guardian.EvaluateKeepsInv(w.guardian, e, w.now, signing);
      case AuthorizeElsewhere(tenantId, id, hash, signing) =>
        Guardian.AuthorizeApprovedKeepsInv(w.guardian, tenantId, id, hash, w.now, signing);
      case ConsumeElsewhere(token, id, hash) => Guardian.ConsumeKeepsInv(w.guardian, token, id, hash, w.now);
    }
    GuardianKeepsOutcomes(w, Step(w, op).guardian);
  }

  lemma TickKeepsOutcomes(w: World, microseconds: nat)
    requires OutcomesOk(w)
    ensures OutcomesOk(w.(now := w.now + microseconds))
  {
    hide PhaseOk, RowOk, EntryOk, Guardian.Extends;
    SameGuardian(w.guardian);
    OutcomesFrame(w, w.(now := w.now + microseconds), 0);
  }

  lemma StepKeepsOutcomes(w: World, op: Op)
    requires Inv(w) && OutcomesOk(w)
    ensures OutcomesOk(Step(w, op))
  {
    hide Inv, OutcomesOk, DoBeginExecute, DoEvaluate, DoHear, DoUnavailable, DoBeginResume, DoAuthorize, DoConsume,
         DoInvoke, DoInvokeThenLose, Close;
    match op {
      case Tick(microseconds) => TickKeepsOutcomes(w, microseconds);
      case BeginExecute(request, tool) => BeginKeepsOutcomes(w, request, tool);
      case EvaluateCall(id, signing) => EvaluateKeepsOutcomes(w, id, signing);
      case HearDecision(id) => HearKeepsOutcomes(w, id);
      case GuardianUnavailable(id) => UnavailableKeepsOutcomes(w, id);
      case BeginResume(tenantId, id, tool, correlationId) =>
        BeginResumeKeepsOutcomes(w, tenantId, id, tool, correlationId);
      case AuthorizeCall(id, signing) => AuthorizeKeepsOutcomes(w, id, signing);
      case ConsumeToken(id) => ConsumeKeepsOutcomes(w, id);
      case Invoke(id, reply) => InvokeKeepsOutcomes(w, id, reply);
      case InvokeThenLose(id, reply) => LoseKeepsOutcomes(w, id, reply);
      case Abort(id) => CloseKeepsOutcomes(w, id);
      case _ => ElsewhereKeepsOutcomes(w, op);
    }
  }

  lemma {:induction false} RunKeepsOutcomes(w: World, ops: seq<Op>)
    requires Inv(w) && OutcomesOk(w)
    ensures Inv(Run(w, ops)) && OutcomesOk(Run(w, ops))
    decreases |ops|
  {
    hide Inv, OutcomesOk, Step;
    if ops != [] {
      StepKeepsInv(w, ops[0]);
      StepKeepsOutcomes(w, ops[0]);
      RunKeepsOutcomes(Step(w, ops[0]), ops[1..]);
    }
  }

  // -------------------------------------------------------------- whole runs

  /**
   The result of every committed invocation is what its tool answered, and that is what a replay hands out; what was
   sent is counted whether or not the invocation committed.
   */
  lemma ResultsAreTruthful(now: int, names: map<nat, string>, ops: seq<Op>, k: nat)
    requires k < |Run(Start(now, names), ops).log|
    ensures var w := Run(Start(now, names), ops);
      var inv := w.log[k];
      && Counted(inv.tool, inv.reply, inv.sends)
      && (inv.committed ==>
            && inv.callId in w.calls && inv.callId in w.results
            && Truthful(inv.tool, inv.reply, w.results[inv.callId])
            && w.calls[inv.callId].status == w.results[inv.callId].status)
  {
    hide Run, Truthful, Counted, Guardian.Inv;
    StartIsOk(now, names);
    RunKeepsOutcomes(Start(now, names), ops);
    var w := Run(Start(now, names), ops);
    assert EntryOk(w, w.log[k]) && InvocationOk(w, w.log[k]);
    if w.log[k].committed { assert CommittedOk(w, w.log[k].callId, w.calls[w.log[k].callId]); }
  }

  /**
   Every committed row is explained: it waits because its own decision asks for an approver, it is blocked because
   Guardian refused it or failed, or it carries the answer of its one committed invocation.
   */
  lemma RowsAreExplained(now: int, names: map<nat, string>, ops: seq<Op>, id: nat)
    requires id in Run(Start(now, names), ops).calls
    ensures RowOk(Run(Start(now, names), ops), id)
  {
    hide Run, RowOk;
    StartIsOk(now, names);
    RunKeepsOutcomes(Start(now, names), ops);
  }

  /** Every invocation that is not a resumed one was let in under the very tool row it was made with. */
  lemma FirstInvocationsWereAdmitted(now: int, names: map<nat, string>, ops: seq<Op>, k: nat)
    requires k < |Run(Start(now, names), ops).log|
    ensures var inv := Run(Start(now, names), ops).log[k];
      && (!inv.resumed ==> Admitted(inv.call.requestHash, inv.tool))
      && (inv.call.authorizationId.Some? ==>
            && inv.call.decisionId.Some?
            && Under(Run(Start(now, names), ops).guardian, inv.call.authorizationId.value, inv.call.decisionId.value))
  {
    hide Run, Admitted;
    StartIsOk(now, names);
    RunKeepsOutcomes(Start(now, names), ops);
    var w := Run(Start(now, names), ops);
    assert EntryOk(w, w.log[k]);
  }

  // --------------------------------------------------- what each step must do

  /** A heard escalation parks the call, a heard refusal blocks it, and a heard grant is held; nothing else moves. */
  lemma HeardAnswersAreActedOn(w: World, id: nat)
    requires Inv(w) && OutcomesOk(w) && id in w.open && w.open[id].phase.Decided?
    ensures var w' := Step(w, HearDecision(id));
      var r := w.open[id].phase.response;
      && MovesOne(w, w', id)
      && (r.outcome == Policy.Escalate ==>
            && id !in w'.open && id in w'.calls && id !in w'.results && w'.calls[id].status == WaitingApproval
            && w'.calls[id].decisionId == Some(r.decisionId))
      && (r.outcome == Policy.Block ==>
            && id !in w'.open && id in w'.calls && id in w'.results && w'.calls[id].status == Blocked
            && w'.results[id] == ToolResult(Blocked, None) && w'.calls[id].decisionId == Some(r.decisionId))
      && (r.outcome == Policy.Allow ==>
            && id in w'.open && w'.open[id].phase.Holding? && r.grant.Some?
            && w'.open[id].phase.token == r.grant.value.token
            && w'.calls == w.calls && w'.results == w.results)
      && r.outcome != Policy.Verify
  {
    hide Inv, MovesOne, Admitted, RowOk, EntryOk;
    OpenHasNoResult(w, id);
    HearingMovesOne(w, id, w.open[id].phase.response);
    assert PhaseOk(w.guardian, id, w.open[id]);
  }

  /** Fail closed: whatever Guardian decided, an error status blocks the call for good. */
  lemma ErrorsBlock(w: World, id: nat)
    requires Inv(w) && id in w.open && (w.open[id].phase == Checking || w.open[id].phase.Decided?)
    ensures var w' := Step(w, GuardianUnavailable(id));
      && MovesOne(w, w', id) && id !in w'.open
      && id in w'.calls && w'.calls[id].status == Blocked
      && id in w'.results && w'.results[id] == ToolResult(Blocked, None)
  {
    hide Inv, MovesOne;
    OpenHasNoResult(w, id);
    CommitMovesOne(w, id, w.open[id].call.(status := Blocked));
  }

  /** A resume opens exactly a waiting call of the tenant that nobody holds, for its own tool version. */
  lemma ResumesOpenExactly(w: World, tenantId: nat, id: nat, tool: ToolRow, correlationId: nat)
    requires Inv(w)
    ensures var w' := Step(w, BeginResume(tenantId, id, tool, correlationId));
      && (w' != w ==> id !in w.open && id in w'.open)
      && (id !in w.open ==> (id in w'.open <==>
            && id in w.calls && id !in w.results && w.calls[id].tenantId == tenantId
            && KnownTool(w, tool) && w.calls[id].toolVersionId == tool.versionId))
      && (id !in w.open && id in w'.open ==>
            && w'.open[id].resume && w'.open[id].tool == tool && w'.open[id].phase == Resuming
            && w'.open[id].call.requestHash == w.calls[id].requestHash
            && w'.open[id].call.correlationId == correlationId)
      && w'.calls == w.calls && w'.results == w.results && w'.log == w.log && w'.guardian == w.guardian
  {
    hide Guardian.Inv, OpenOk, LogOk, HoldersOk, LogKeysOk;
    if id in w.calls { assert CommittedOk(w, id, w.calls[id]); }
  }

  // ------------------------------------------------------------------ rivals

  /** In world `w` operation `op` begins call `j` while call `i`, of the same key, is open. */
  predicate BeginsBeside(w: World, op: Op, i: nat, j: nat) {
    && op.BeginExecute? && w.nextCall == j && i in w.open
    && HasKey(op.request.idempotencyKey)
    && w.open[i].call.idempotencyKey == op.request.idempotencyKey
    && w.open[i].call.tenantId == op.request.scope.tenantId && w.open[i].call.toolVersionId == op.tool.versionId
  }

  lemma StepPairs(w: World, op: Op, i: nat, j: nat)
    requires (i, j) in Step(w, op).rivals && (i, j) !in w.rivals
    ensures BeginsBeside(w, op, i, j)
  {
    hide Guardian.Evaluate, Guardian.AuthorizeApproved, Guardian.Consume, Guardian.ActOnApproval, MayAsk, ResultOf,
         InvocationOf, OnSubmit, EvaluationOf, KnownTool;
    if op.HearDecision? && op.callId in w.open && w.open[op.callId].phase.Decided? {
      HearingPairsNothing(w, op.callId, w.open[op.callId].phase.response);
    }
  }

  lemma HearingPairsNothing(w: World, id: nat, response: Guardian.Response)
    requires id in w.open
    ensures OnDecision(w, id, response).rivals == w.rivals
  {
  }

  /** Rivals are only ever two calls of one key of which the second began while the first was open. */
  lemma {:induction false} RivalsOverlapped(now: int, names: map<nat, string>, ops: seq<Op>, i: nat, j: nat)
    requires (i, j) in Run(Start(now, names), ops).rivals
    ensures exists n :: 0 <= n < |ops| && BeginsBeside(Run(Start(now, names), ops[..n]), ops[n], i, j)
    decreases |ops|
  {
    hide Step, BeginsBeside;
    var w := Start(now, names);
    if ops != [] {
      var n := |ops| - 1;
      assert ops == ops[..n] + [ops[n]];
      RunAppend(w, ops[..n], [ops[n]]);
      OneStep(Run(w, ops[..n]), ops[n]);
      if (i, j) in Run(w, ops[..n]).rivals {
        RivalsOverlapped(now, names, ops[..n], i, j);
        var m :| 0 <= m < n && BeginsBeside(Run(w, ops[..n][..m]), ops[..n][m], i, j);
        assert ops[..n][..m] == ops[..m];
      } else {
        StepPairs(Run(w, ops[..n]), ops[n], i, j);
      }
    }
  }
}
