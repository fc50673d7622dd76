/**
 Guardian judges a request under the policy snapshot that comes with it, and answers a repeated request from its
 first live decision. Which snapshot an invocation was judged under, and when it is the tool's own.
 */
module ProtocolSnapshots {
  import opened Contracts
  import Guardian
  import opened Protocol
  import opened ProtocolSafety

  /** An answer is about exactly the request asked, and under its snapshot exactly if the first live decision is. */
  lemma AnsweredUnderTheFirstSnapshot(g: Guardian.State, e: Evaluation, now: int, signing: bool)
    requires Guardian.Inv(g, now) && DecisionsHashed(g) && e.request.requestHash == Sha256(e.request.document)
    requires Guardian.Evaluate(g, e, now, signing).Ok?
    ensures var (g', response) := Guardian.Evaluate(g, e, now, signing).value;
      var q := e.request;
      var first := Guardian.LatestLive(g.decisions, q.document.scope.tenantId, q.callId, q.requestHash, now);
      && response.decisionId < |g'.decisions|
      && var judged := g'.decisions[response.decisionId].evaluation;
         && judged.request == q
         && (judged.policy == e.policy <==> first.None? || g.decisions[first.value].evaluation.policy == e.policy)
  {
    var q := e.request;
    var first := Guardian.LatestLive(g.decisions, q.document.scope.tenantId, q.callId, q.requestHash, now);
    if first.Some? {
      assert Guardian.DecisionOk(g.decisions[first.value], now);
    }
  }

  // -------------------------------------------------------------- whole runs

  /** If the step asks Guardian about call `id`, it asks what the broker asks. */
  predicate AsksAsBroker(w: World, op: Op, id: nat) {
    op.EvaluateElsewhere? && op.evaluation.request.callId == id && id in w.asked ==> w.asked[id] == op.evaluation
  }

  ghost predicate Undisputed(w: World, ops: seq<Op>, id: nat)
    decreases |ops|
  {
    ops != [] ==> AsksAsBroker(w, ops[0], id) && Undisputed(Step(w, ops[0]), ops[1..], id)
  }

  /** Every decision about call `id` is about what the broker asked, snapshot included. */
  predicate OwnDecisions(w: World, id: nat) {
    id in w.asked ==>
      forall i :: 0 <= i < |w.guardian.decisions| && w.guardian.decisions[i].evaluation.request.callId == id ==>
        w.guardian.decisions[i].evaluation == w.asked[id]
  }

  /** One step adds at most one decision, about what was asked of Guardian in it. */
  lemma DecisionsGrow(w: World, op: Op)
    ensures var ds, ds' := w.guardian.decisions, Step(w, op).guardian.decisions;
      || ds' == ds
      || (&& |ds'| == |ds| + 1 && ds'[..|ds|] == ds
          && (|| (op.EvaluateElsewhere? && ds'[|ds|].evaluation == op.evaluation)
              || (&& op.EvaluateCall? && op.callId in w.open && w.open[op.callId].phase == Checking
                  && w.open[op.callId].call.requestHash.Sha256?
                  && ds'[|ds|].evaluation == EvaluationOf(op.callId, w.open[op.callId]))))
  {
    hide Guardian.Evaluate, OnSubmit, ResultOf, InvocationOf, MayAsk;
    match op {
      case EvaluateElsewhere(e, signing) => EvaluateDecides(w.guardian, e, w.now, signing);
      case EvaluateCall(id, signing) =>
        if id in w.open && w.open[id].call.requestHash.Sha256? {
          EvaluateDecides(w.guardian, EvaluationOf(id, w.open[id]), w.now, signing);
        }
      case _ => DecisionsStay(w, op);
    }
  }

  lemma DecisionsStay(w: World, op: Op)
    requires !op.EvaluateElsewhere? && !op.EvaluateCall?
    ensures Step(w, op).guardian.decisions == w.guardian.decisions
  {
    hide OnSubmit, ResultOf, InvocationOf, Guardian.AuthorizeApproved, Guardian.Consume, Guardian.ActOnApproval;
    match op {
      case AuthorizeCall(id, signing) =>
        if id in w.open {
          var call := w.open[id].call;
          AuthorizingDecidesNothing(w.guardian, call.tenantId, id, call.requestHash, w.now, signing);
        }
      case AuthorizeElsewhere(tenantId, id, hash, signing) =>
        AuthorizingDecidesNothing(w.guardian, tenantId, id, hash, w.now, signing);
      case ConsumeToken(id) =>
        if id in w.open && w.open[id].phase.Holding? {
          ConsumingDecidesNothing(w.guardian, w.open[id].phase.token, id, w.open[id].call.requestHash, w.now);
        }
      case ConsumeElsewhere(token, id, hash) => ConsumingDecidesNothing(w.guardian, token, id, hash, w.now);
      case ActOnApproval(tenantId, decisionId, action) =>
        ActingDecidesNothing(w.guardian, tenantId, decisionId, action, w.now);
      case _ => RowsLeaveGuardian(w, op);
    }
  }

  lemma AuthorizingDecidesNothing(
    g: Guardian.State, tenantId: nat, callId: nat, hash: RequestHash, now: int, signing: bool)
    ensures var r := Guardian.AuthorizeApproved(g, tenantId, callId, hash, now, signing);
      r.Ok? ==> r.value.0.decisions == g.decisions
  {
  }

  lemma ConsumingDecidesNothing(g: Guardian.State, token: Guardian.Token, callId: nat, hash: RequestHash, now: int)
    ensures var r := Guardian.Consume(g, token, callId, hash, now); r.Ok? ==> r.value.0.decisions == g.decisions
  {
  }

  lemma ActingDecidesNothing(
    g: Guardian.State, tenantId: nat, decisionId: nat, action: Guardian.ApprovalAction, now: int)
    ensures var r := Guardian.ActOnApproval(g, tenantId, decisionId, action, now);
      r.Ok? ==> r.value.decisions == g.decisions
  {
  }

  /** The broker's own steps. */
  lemma RowsLeaveGuardian(w: World, op: Op)
    requires op.Tick? || op.BeginExecute? || op.HearDecision? || op.GuardianUnavailable? || op.BeginResume?
      || op.Invoke? || op.InvokeThenLose? || op.Abort?
    ensures Step(w, op).guardian == w.guardian
  {
    hide OnSubmit, ResultOf, InvocationOf, ReadyToCall, KnownTool, InFlight, EvaluationOf, NewCall;
  }

  /** What the broker asks is written when a call begins. */
  lemma AskedGrows(w: World, op: Op)
    ensures var asked, asked' := w.asked, Step(w, op).asked;
      || asked' == asked
      || (op.BeginExecute? && w.nextCall in asked' && asked' == asked[w.nextCall := asked'[w.nextCall]])
  {
    hide Guardian.Evaluate, Guardian.AuthorizeApproved, Guardian.Consume, Guardian.ActOnApproval, OnSubmit, ResultOf,
         InvocationOf, MayAsk, ReadyToCall, KnownTool, InFlight, NewCall, OnDecision;
    if op.HearDecision? && op.callId in w.open && w.open[op.callId].phase.Decided? {
      HearingAsksNothing(w, op.callId, w.open[op.callId].phase.response);
    }
  }

  lemma HearingAsksNothing(w: World, id: nat, response: Guardian.Response)
    requires id in w.open
    ensures OnDecision(w, id, response).asked == w.asked
  {
  }

  lemma StepKeepsOwn(w: World, op: Op, id: nat)
    requires Inv(w) && OwnDecisions(w, id) && AsksAsBroker(w, op, id)
    ensures OwnDecisions(Step(w, op), id)
  {
    hide Step, LogOk, LogDistinct, HoldersOk, LogKeysOk, RowsOk, Guardian.Inv;
    DecisionsGrow(w, op);
    AskedGrows(w, op);
    forall i | 0 <= i < |w.guardian.decisions|
      ensures w.guardian.decisions[i].evaluation.request.callId < w.nextCall
    {
      assert DecisionAsked(w, w.guardian.decisions[i].evaluation);
    }
    if op.EvaluateCall? && op.callId in w.open {
      assert TransactionOk(w, op.callId, w.open[op.callId]);
    }
    if op.BeginExecute? { DecisionsStayOnBegin(w, op); }
  }

  lemma DecisionsStayOnBegin(w: World, op: Op)
    requires op.BeginExecute?
    ensures Step(w, op).guardian == w.guardian
  {
  }

  lemma {:induction false} RunKeepsOwn(w: World, ops: seq<Op>, id: nat)
    requires Inv(w) && OwnDecisions(w, id) && Undisputed(w, ops, id)
    ensures Inv(Run(w, ops)) && OwnDecisions(Run(w, ops), id)
    decreases |ops|
  {
    hide Inv, Step, OwnDecisions;
    if ops != [] {
      StepKeepsInv(w, ops[0]);
      StepKeepsOwn(w, ops[0], id);
      RunKeepsOwn(Step(w, ops[0]), ops[1..], id);
    }
  }

  /**
   Unless somebody else asks Guardian about the very call under another snapshot, an authorized invocation was
   judged under what the broker asked; and if it is not a resumed one, under the policy of the tool invoked.
   */
  lemma UndisputedCallsAreJudgedByTheirTool(now: int, names: map<nat, string>, ops: seq<Op>, k: nat)
    requires var w := Run(Start(now, names), ops);
      && k < |w.log| && (Protected(w.log[k].tool) || w.log[k].resumed)
      && Undisputed(Start(now, names), ops, w.log[k].callId)
    ensures var w := Run(Start(now, names), ops);
      var inv := w.log[k];
      && inv.call.authorizationId.Some? && Traced(w, inv, inv.call.authorizationId.value)
      && inv.callId in w.asked
      && var authorization := w.guardian.authorizations[inv.call.authorizationId.value];
         var judged := w.guardian.decisions[authorization.decisionId].evaluation;
         judged == w.asked[inv.callId] && (!inv.resumed ==> judged.policy == SnapshotOf(inv.tool))
  {
    var w := Run(Start(now, names), ops);
    StartIsOk(now, names);
    RunKeepsOwn(Start(now, names), ops, w.log[k].callId);
    InvocationIsTraced(w, k);
    SnapshotOfInvocation(w, k);
  }

  lemma SnapshotOfInvocation(w: World, k: nat)
    requires LogOk(w) && k < |w.log| && w.log[k].call.authorizationId.Some?
    ensures var inv := w.log[k];
      AskedFor(w, inv.callId, inv.call) && (!inv.resumed ==> w.asked[inv.callId].policy == SnapshotOf(inv.tool))
  {
    assert InvocationOk(w, w.log[k]);
  }
}
