/** Where at-most-once stops, for every reachable world: lost transactions, overlapping submits, redelivery. */
module ProtocolLimits {
  import opened Contracts
  import Guardian
  import Policy
  import opened Protocol
  import opened ProtocolSafety

  // ----------------------------------------------- what an open submit still needs

  /** Guardian would accept this token for this call now. */
  predicate Spendable(g: Guardian.State, token: Guardian.Token, id: nat, hash: RequestHash, now: int) {
    Guardian.Consume(g, token, id, hash, now).Ok?
  }

  /** Guardian, asked now and able to sign, would allow. */
  predicate Allows(g: Guardian.State, e: Evaluation, now: int) {
    var r := Guardian.Evaluate(g, e, now, true);
    r.Ok? && r.value.1.outcome == Policy.Allow
  }

  /** An open submit that can still reach its tool: cleared, authorized, or granted by Guardian when asked. */
  predicate Clearable(w: World, id: nat) {
    && id in w.open && !w.open[id].resume && w.open[id].call.requestHash.Sha256?
    && var tx := w.open[id];
       match tx.phase
       case Cleared => true
       case Authorized(_) => true
       case Holding(token) => Spendable(w.guardian, token, id, tx.call.requestHash, w.now)
       case Decided(r) =>
         && r.outcome == Policy.Allow && r.grant.Some?
         && Spendable(w.guardian, r.grant.value.token, id, tx.call.requestHash, w.now)
       case Checking => Allows(w.guardian, EvaluationOf(id, tx), w.now)
       case Resuming => false
  }

  predicate SameApproval(g: Guardian.State, g': Guardian.State, d: nat) {
    (d in g'.approvals <==> d in g.approvals) && (d in g.approvals ==> g'.approvals[d] == g.approvals[d])
  }

  /** Guardian moved about call `id` alone. */
  ghost predicate MovesFor(g: Guardian.State, g': Guardian.State, id: nat) {
    && |g.decisions| <= |g'.decisions| <= |g.decisions| + 1 && g'.decisions[..|g.decisions|] == g.decisions
    && (|g'.decisions| > |g.decisions| ==> g'.decisions[|g.decisions|].callId == id)
    && (forall d: nat :: d < |g.decisions| ==> SameApproval(g, g', d))
    && |g.authorizations| <= |g'.authorizations|
    && (forall i :: 0 <= i < |g.authorizations| && g.authorizations[i].callId != id ==>
          g'.authorizations[i] == g.authorizations[i])
  }

  lemma AllowedIsSpendable(g: Guardian.State, e: Evaluation, now: int)
    requires Allows(g, e, now)
    ensures var r := Guardian.Evaluate(g, e, now, true).value;
      && r.1.grant.Some? && Spendable(r.0, r.1.grant.value.token, e.request.callId, e.request.requestHash, now)
      && MovesFor(g, r.0, e.request.callId)
  {
  }

  /** What Guardian would say about one call does not change when it moves for another. */
  lemma MovesForOthers(g: Guardian.State, g': Guardian.State, id: nat, e: Evaluation, now: int)
    requires MovesFor(g, g', id) && e.request.callId != id && Allows(g, e, now)
    ensures Allows(g', e, now)
  {
    var r := e.request;
    SameLatest(g.decisions, g'.decisions, r.document.scope.tenantId, r.callId, r.requestHash, now);
    var existing := Guardian.LatestLive(g.decisions, r.document.scope.tenantId, r.callId, r.requestHash, now);
    if existing.Some? {
      assert SameApproval(g, g', existing.value);
      assert g'.decisions[existing.value] == g'.decisions[..|g.decisions|][existing.value];
    }
  }

  lemma SameLatest(ds: seq<Guardian.Decision>, ds': seq<Guardian.Decision>, tenantId: nat, callId: nat,
                   hash: RequestHash, now: int)
    requires |ds| <= |ds'| <= |ds| + 1 && ds'[..|ds|] == ds && (|ds'| > |ds| ==> ds'[|ds|].callId != callId)
    ensures Guardian.LatestLive(ds', tenantId, callId, hash, now) == Guardian.LatestLive(ds, tenantId, callId, hash,
        now)
  {
    if |ds'| == |ds| { assert ds' == ds; }
  }

  lemma SpendableForOthers(g: Guardian.State, g': Guardian.State, id: nat, token: Guardian.Token, j: nat,
                           hash: RequestHash, now: int)
    requires MovesFor(g, g', id) && j != id && Spendable(g, token, j, hash, now)
    ensures Spendable(g', token, j, hash, now)
  {
  }

  /** Only call `id` and what Guardian knows of it changed. */
  ghost predicate StepsFor(w: World, w': World, id: nat) {
    && MovesFor(w.guardian, w'.guardian, id)
    && w'.now == w.now && w'.nextCall == w.nextCall && w'.names == w.names && w'.log == w.log
    && w'.calls == w.calls && w'.results == w.results
    && id in w.open && w'.open.Keys == w.open.Keys
    && (forall j :: j in w.open && j != id ==> w'.open[j] == w.open[j])
    && w'.open[id].tool == w.open[id].tool && w'.open[id].resume == w.open[id].resume
    && w'.open[id].call.requestHash == w.open[id].call.requestHash && KeyOf(w'.open[id].call) == KeyOf(w.open[id].call)
  }

  lemma ClearableForOthers(w: World, g': Guardian.State, id: nat, j: nat)
    requires MovesFor(w.guardian, g', id) && j != id && Clearable(w, j)
    ensures Clearable(w.(guardian := g'), j)
  {
    hide Spendable, Allows, MovesFor;
    var tx := w.open[j];
    match tx.phase {
      case Holding(token) => SpendableForOthers(w.guardian, g', id, token, j, tx.call.requestHash, w.now);
      case Decided(r) => SpendableForOthers(w.guardian, g', id, r.grant.value.token, j, tx.call.requestHash, w.now);
      case Checking => MovesForOthers(w.guardian, g', id, EvaluationOf(j, tx), w.now);
      case _ =>
    }
  }

  // ------------------------------------------------------------- driving it there

  function Drive(id: nat, reply: Reply, lose: bool): seq<Op> {
    [EvaluateCall(id, true), HearDecision(id), ConsumeToken(id),
     if lose then InvokeThenLose(id, reply) else Invoke(id, reply)]
  }

  lemma EvaluateDrives(w: World, id: nat)
    requires Clearable(w, id)
    ensures var w' := Step(w, EvaluateCall(id, true));
      StepsFor(w, w', id) && Clearable(w', id) && w'.open[id].phase != Checking
  {
    hide Spendable, Allows, Guardian.Evaluate;
    if w.open[id].phase == Checking {
      var e := EvaluationOf(id, w.open[id]);
      assert && Guardian.Evaluate(w.guardian, e, w.now, true).Ok?
             && Guardian.Evaluate(w.guardian, e, w.now, true).value.1.outcome == Policy.Allow
      by {
        WouldAllow(w.guardian, e, w.now);
      }
      AllowedIsSpendable(w.guardian, e, w.now);
    }
  }

  lemma WouldAllow(g: Guardian.State, e: Evaluation, now: int)
    requires Allows(g, e, now)
    ensures var r := Guardian.Evaluate(g, e, now, true); r.Ok? && r.value.1.outcome == Policy.Allow
  {
  }

  lemma HearDrives(w: World, id: nat)
    requires Clearable(w, id) && w.open[id].phase != Checking
    ensures var w' := Step(w, HearDecision(id));
      StepsFor(w, w', id) && Clearable(w', id) && w'.open[id].phase != Checking && !w'.open[id].phase.Decided?
  {
    hide Spendable;
  }

  lemma ConsumeDrives(w: World, id: nat)
    requires Clearable(w, id) && w.open[id].phase != Checking && !w.open[id].phase.Decided?
    ensures var w' := Step(w, ConsumeToken(id)); StepsFor(w, w', id) && ReadyToCall(w', id)
  {
  }

  lemma StepsForOthers(w: World, w': World, id: nat)
    requires StepsFor(w, w', id)
    ensures forall j :: j != id && Clearable(w, j) ==> Clearable(w', j)
  {
    hide Spendable, Allows;
    forall j | j != id && Clearable(w, j) ensures Clearable(w', j) {
      ClearableForOthers(w, w'.guardian, id, j);
    }
  }

  /** The invocation is of this call, under its hash and key. */
  predicate InvokedAs(inv: Invocation, id: nat, call: Call, lose: bool) {
    && inv.callId == id && inv.committed == !lose
    && inv.call.requestHash == call.requestHash && KeyOf(inv.call) == KeyOf(call)
  }

  /** What driving call `id` to its tool leaves behind. */
  ghost predicate Driven(w: World, w': World, id: nat, lose: bool) {
    && id in w.open
    && |w'.log| == |w.log| + 1 && w'.log[..|w.log|] == w.log
    && InvokedAs(w'.log[|w.log|], id, w.open[id].call, lose)
    && w'.now == w.now && w'.nextCall == w.nextCall && w'.names == w.names
    && (lose ==> w'.calls == w.calls && w'.results == w.results)
    && (forall j :: j in w.open && j != id ==> j in w'.open && w'.open[j] == w.open[j])
    && (forall j :: j != id && Clearable(w, j) ==> Clearable(w', j))
  }

  /** Undisturbed, an open submit that Guardian would grant reaches its tool, once. */
  lemma DriveInvokes(w: World, id: nat, reply: Reply, lose: bool)
    requires Clearable(w, id)
    ensures Driven(w, Run(w, Drive(id, reply, lose)), id, lose)
  {
    hide Spendable, Allows, MovesFor, Run, DoEvaluate, DoHear, DoConsume;
    var ops := Drive(id, reply, lose);
    FourSteps(w, ops[0], ops[1], ops[2], ops[3]);
    var w1 := Step(w, ops[0]);
    EvaluateDrives(w, id);
    StepsForOthers(w, w1, id);
    var w2 := Step(w1, ops[1]);
    HearDrives(w1, id);
    StepsForOthers(w1, w2, id);
    var w3 := Step(w2, ops[2]);
    ConsumeDrives(w2, id);
    StepsForOthers(w2, w3, id);
    InvokeDrives(w3, id, reply, lose);
  }

  lemma InvokeDrives(w: World, id: nat, reply: Reply, lose: bool)
    requires ReadyToCall(w, id)
    ensures Driven(w, Step(w, if lose then InvokeThenLose(id, reply) else Invoke(id, reply)), id, lose)
  {
    hide Spendable, Allows, CallOutcome, ResultOf;
  }

  // ------------------------------------------------------- overlapping submits

  /**
   Two open submits of one key that Guardian would grant both reach the tool, and both commit: the lookup
   cannot lock a row that does not exist yet.
   */
  lemma RivalsBothInvoke(w: World, a: nat, b: nat, reply: Reply)
    requires a != b && Clearable(w, a) && Clearable(w, b) && SharedKey(w.open[a].call, w.open[b].call)
    ensures var w' := Run(w, Drive(a, reply, false) + Drive(b, reply, false));
      && |w'.log| == |w.log| + 2 && w'.log[..|w.log|] == w.log
      && var first, second := w'.log[|w.log|], w'.log[|w.log| + 1];
         first.callId == a && second.callId == b && first.committed && second.committed && SharedKey(first.call,
             second.call)
  {
    assert a in w.open && b in w.open;
    hide Run, Clearable, KeyOf;
    DriveInvokes(w, a, reply, false);
    var w1 := Run(w, Drive(a, reply, false));
    DriveInvokes(w1, b, reply, false);
    RunAppend(w, Drive(a, reply, false), Drive(b, reply, false));
    var w2 := Run(w1, Drive(b, reply, false));
    assert w2.log[|w.log|] == w1.log[|w.log|];
  }

  /** A submit that begins now, and that the policy allows where it is asked. */
  predicate Welcome(w: World, request: Submit, tool: ToolRow) {
    && KnownTool(w, tool) && HasKey(request.idempotencyKey) && OnSubmit(w, request, tool).Begun?
    && (Protected(tool) ==> PolicyAllows(request, tool))
  }

  predicate PolicyAllows(request: Submit, tool: ToolRow) {
    var document := DocumentOf(request, tool);
    var request := CanonicalRequest(0, document, Sha256(document));
    Policy.Evaluate(Evaluation(request, SnapshotOf(tool))).outcome == Policy.Allow
  }

  lemma {:induction false} NoRowYet(calls: map<nat, Call>, key: IdempotencyKey, from: nat, limit: nat, limit': nat)
    requires from <= limit <= limit' && FindCall(calls, key, from, limit).None?
    requires forall id :: limit <= id < limit' ==> id !in calls
    ensures FindCall(calls, key, from, limit').None?
    decreases limit' - from
  {
    if from < limit' {
      if from < limit {
        NoRowYet(calls, key, from + 1, limit, limit');
      } else {
        NoRowYet(calls, key, from + 1, from + 1, limit');
      }
    }
  }

  lemma NewCallIsUnknown(w: World, e: Evaluation)
    requires Guardian.Inv(w.guardian, w.now) && AskedOk(w) && e.request.callId == w.nextCall
    ensures Guardian.LatestLive(w.guardian.decisions, e.request.document.scope.tenantId, w.nextCall,
                                e.request.requestHash, w.now).None?
  {
    forall i | 0 <= i < |w.guardian.decisions| ensures w.guardian.decisions[i].callId < w.nextCall {
      assert DecisionAsked(w, w.guardian.decisions[i].evaluation);
      assert Guardian.DecisionOk(w.guardian.decisions[i], w.now);
    }
  }

  lemma PolicyIgnoresCallId(request: Submit, tool: ToolRow, id: nat)
    ensures var document := DocumentOf(request, tool);
      var e := Evaluation(CanonicalRequest(id, document, Sha256(document)), SnapshotOf(tool));
      PolicyAllows(request, tool) <==> Policy.Evaluate(e).outcome == Policy.Allow
  {
  }

  lemma FirstAnswerAllows(g: Guardian.State, e: Evaluation, now: int)
    requires Guardian.LatestLive(g.decisions, e.request.document.scope.tenantId, e.request.callId,
                                 e.request.requestHash, now).None?
    requires Policy.Evaluate(e).outcome == Policy.Allow
    ensures Allows(g, e, now)
  {
    hide Policy.Evaluate;
  }

  /** A welcome submit opens a call that can reach its tool, and leaves the next one as welcome. */
  lemma BeginClears(w: World, request: Submit, tool: ToolRow)
    requires Inv(w) && Welcome(w, request, tool)
    ensures var w' := Step(w, BeginExecute(request, tool));
      && Clearable(w', w.nextCall) && Welcome(w', request, tool)
      && w.nextCall in w'.open && w'.open[w.nextCall].call == NewCall(request, tool)
      && w'.nextCall == w.nextCall + 1 && w'.log == w.log && w'.calls == w.calls && w'.results == w.results
      && w'.guardian == w.guardian && w'.now == w.now
      && (forall j :: j in w.open ==> j in w'.open && w'.open[j] == w.open[j])
      && (forall j :: Clearable(w, j) ==> Clearable(w', j))
  {
    hide LogOk, LogDistinct, HoldersOk, LogKeysOk, Allows, Spendable, Guardian.Inv, PolicyAllows, ValidateAccess,
         TransactionOk, CommittedOk;
    FreshId(w);
    var call := NewCall(request, tool);
    NoRowYet(w.calls, KeyOf(call).value, 0, w.nextCall, w.nextCall + 1);
    if Protected(tool) {
      var e := EvaluationOf(w.nextCall, Transaction(false, tool, call, Checking));
      NewCallIsUnknown(w, e);
      PolicyIgnoresCallId(request, tool, w.nextCall);
      FirstAnswerAllows(w.guardian, e, w.now);
    }
  }

  /** In every reachable world, a welcome request submitted twice before either commits invokes its tool twice. */
  lemma OverlappingSubmitsRepeat(w: World, request: Submit, tool: ToolRow, reply: Reply)
    requires Inv(w) && Welcome(w, request, tool)
    ensures var n := w.nextCall;
      var begin := BeginExecute(request, tool);
      var w' := Run(w, [begin, begin] + (Drive(n, reply, false) + Drive(n + 1, reply, false)));
      && |w'.log| == |w.log| + 2
      && var first, second := w'.log[|w.log|], w'.log[|w.log| + 1];
         first.callId == n && second.callId == n + 1 && first.committed && second.committed && SharedKey(first.call,
             second.call)
  {
    hide Run, Clearable, Welcome, Inv, KeyOf, Step;
    var begin := BeginExecute(request, tool);
    TwoSteps(w, begin, begin);
    RunAppend(w, [begin, begin], Drive(w.nextCall, reply, false) + Drive(w.nextCall + 1, reply, false));
    BeginClears(w, request, tool);
    StepKeepsInv(w, begin);
    var w1 := Step(w, begin);
    BeginClears(w1, request, tool);
    WelcomeHasKey(w, request, tool);
    RivalsBothInvoke(Step(w1, begin), w.nextCall, w.nextCall + 1, reply);
  }

  lemma WelcomeHasKey(w: World, request: Submit, tool: ToolRow)
    requires Welcome(w, request, tool)
    ensures KeyOf(NewCall(request, tool)).Some?
  {
  }

  /** And so does one whose first transaction is lost after the tool ran, when its key is submitted again. */
  lemma LostSubmitRepeats(w: World, request: Submit, tool: ToolRow, reply: Reply)
    requires Inv(w) && Welcome(w, request, tool)
    ensures var n := w.nextCall;
      var begin := BeginExecute(request, tool);
      var w' := Run(w, ([begin] + Drive(n, reply, true)) + ([begin] + Drive(n + 1, reply, false)));
      && |w'.log| == |w.log| + 2
      && var first, second := w'.log[|w.log|], w'.log[|w.log| + 1];
         && !first.committed && second.committed && SharedKey(first.call, second.call)
         && first.call.requestHash == second.call.requestHash
  {
    hide Run, Clearable, Welcome, Inv, KeyOf, Step, Drive;
    var begin := BeginExecute(request, tool);
    RunAppend(w, [begin] + Drive(w.nextCall, reply, true), [begin] + Drive(w.nextCall + 1, reply, false));
    SubmitAndDrive(w, request, tool, reply, true);
    var w1 := Run(w, [begin] + Drive(w.nextCall, reply, true));
    RunKeepsInv(w, [begin] + Drive(w.nextCall, reply, true));
    SubmitAndDrive(w1, request, tool, reply, false);
    WelcomeHasKey(w, request, tool);
    var w2 := Run(w1, [begin] + Drive(w1.nextCall, reply, false));
    assert w2.log[|w.log|] == w1.log[|w.log|];
  }

  /** One submit, driven to its tool; if its transaction is lost, the next submit of the request is as welcome. */
  lemma SubmitAndDrive(w: World, request: Submit, tool: ToolRow, reply: Reply, lose: bool)
    requires Inv(w) && Welcome(w, request, tool)
    ensures var w' := Run(w, [BeginExecute(request, tool)] + Drive(w.nextCall, reply, lose));
      && |w'.log| == |w.log| + 1 && w'.log[..|w.log|] == w.log && w'.nextCall == w.nextCall + 1
      && InvokedAs(w'.log[|w.log|], w.nextCall, NewCall(request, tool), lose)
      && (lose ==> Welcome(w', request, tool))
  {
    hide Run, Clearable, Inv, KeyOf, Step, Drive, Welcome;
    var begin := BeginExecute(request, tool);
    RunAppend(w, [begin], Drive(w.nextCall, reply, lose));
    OneStep(w, begin);
    BeginClears(w, request, tool);
    WelcomeHasKey(w, request, tool);
    var w1 := Step(w, begin);
    DriveInvokes(w1, w.nextCall, reply, lose);
    if lose { StillWelcome(w1, Run(w1, Drive(w.nextCall, reply, lose)), request, tool); }
  }

  lemma StillWelcome(w: World, w': World, request: Submit, tool: ToolRow)
    requires Welcome(w, request, tool)
    requires w'.calls == w.calls && w'.names == w.names && w'.nextCall == w.nextCall
    ensures Welcome(w', request, tool)
  {
  }

  // -------------------------------------------------------- one decision, two grants

  /** Asked twice about one request that it allows, Guardian issues twice under one decision. */
  lemma AskedTwiceGrantsTwice(g: Guardian.State, e: Evaluation, now: int)
    requires Guardian.Inv(g, now) && Allows(g, e, now)
    ensures var g1 := Guardian.Evaluate(g, e, now, true).value.0;
      Allows(g1, e, now)
      && var g2 := Guardian.Evaluate(g1, e, now, true).value.0;
         && g2.decisions == g1.decisions && |g2.authorizations| == |g.authorizations| + 2
         && var a := |g.authorizations|;
            g2.authorizations[a].decisionId == g2.authorizations[a + 1].decisionId
            && g2.authorizations[a].status == g2.authorizations[a + 1].status == Guardian.Active
  {
    hide Policy.Evaluate, Guardian.LatestLive, Allows;
    AnswerStands(g, e, now);
    var g1 := Guardian.Evaluate(g, e, now, true).value.0;
    OldAnswerStands(g1, e, now);
  }

  /** The first live decision on exactly this request. */
  function FirstLive(g: Guardian.State, e: Evaluation, now: int): Option<nat> {
    var q := e.request;
    Guardian.LatestLive(g.decisions, q.document.scope.tenantId, q.callId, q.requestHash, now)
  }

  predicate ApprovalsBelong(g: Guardian.State) {
    forall d :: d in g.approvals ==> d < |g.decisions|
  }

  /** The answer added one live authorization, under a decision that answers this request from now on. */
  predicate Stands(g: Guardian.State, g': Guardian.State, decisionId: nat, e: Evaluation, now: int) {
    && |g'.authorizations| == |g.authorizations| + 1 && g'.authorizations[..|g.authorizations|] == g.authorizations
    && g'.authorizations[|g.authorizations|].decisionId == decisionId
    && g'.authorizations[|g.authorizations|].status == Guardian.Active
    && FirstLive(g', e, now) == Some(decisionId)
    && ApprovalsBelong(g') && Allows(g', e, now)
  }

  lemma AnswerStands(g: Guardian.State, e: Evaluation, now: int)
    requires Allows(g, e, now) && ApprovalsBelong(g)
    ensures var (g', response) := Guardian.Evaluate(g, e, now, true).value; Stands(g, g', response.decisionId, e, now)
  {
    hide Policy.Evaluate, Stands;
    if FirstLive(g, e, now).Some? { OldAnswerStands(g, e, now); } else { NewAnswerStands(g, e, now); }
  }

  lemma OldAnswerStands(g: Guardian.State, e: Evaluation, now: int)
    requires Allows(g, e, now) && ApprovalsBelong(g) && FirstLive(g, e, now).Some?
    ensures var (g', response) := Guardian.Evaluate(g, e, now, true).value;
      && Stands(g, g', response.decisionId, e, now) && g'.decisions == g.decisions
      && FirstLive(g, e, now) == Some(response.decisionId)
  {
    hide Policy.Evaluate, Guardian.LatestLive;
  }

  lemma NewAnswerStands(g: Guardian.State, e: Evaluation, now: int)
    requires Allows(g, e, now) && ApprovalsBelong(g) && FirstLive(g, e, now).None?
    ensures var (g', response) := Guardian.Evaluate(g, e, now, true).value; Stands(g, g', response.decisionId, e, now)
  {
    hide Policy.Evaluate;
    var g' := Guardian.Evaluate(g, e, now, true).value.0;
    NewestAnswers(g, g', e, now);
    hide Guardian.LatestLive;
    assert |g.decisions| !in g'.approvals;
  }

  /** A decision just made on this request is the newest live one. */
  lemma NewestAnswers(g: Guardian.State, g': Guardian.State, e: Evaluation, now: int)
    requires Allows(g, e, now) && FirstLive(g, e, now).None? && g' == Guardian.Evaluate(g, e, now, true).value.0
    ensures FirstLive(g', e, now) == Some(|g.decisions|)
  {
    hide Policy.Evaluate;
  }

  /**
   The re-evaluation path is taken in runs: when the broker's request to Guardian is delivered twice, the
   second answer comes from the first's decision, under which there are then two live authorizations.
   */
  lemma RedeliveryIssuesTwice(w: World, id: nat)
    requires Inv(w) && Clearable(w, id) && w.open[id].phase == Checking
    ensures var w' := Run(w, [EvaluateElsewhere(EvaluationOf(id, w.open[id]), true), EvaluateCall(id, true)]);
      var a := |w.guardian.authorizations|;
      && |w'.guardian.authorizations| == a + 2
      && w'.guardian.authorizations[a].decisionId == w'.guardian.authorizations[a + 1].decisionId
      && w'.guardian.authorizations[a].status == w'.guardian.authorizations[a + 1].status == Guardian.Active
      && id in w'.open && w'.open[id].phase.Decided?
  {
    hide Guardian.Evaluate, Inv, Allows, MayAsk, Run, Spendable;
    var e := EvaluationOf(id, w.open[id]);
    GuardianIsOk(w);
    OwnRequestMayBeAsked(w, id);
    TwoSteps(w, EvaluateElsewhere(e, true), EvaluateCall(id, true));
    AskedTwiceGrantsTwice(w.guardian, e, w.now);
    WouldAllow(w.guardian, e, w.now);
    WouldAllow(Guardian.Evaluate(w.guardian, e, w.now, true).value.0, e, w.now);
  }

  lemma GuardianIsOk(w: World)
    requires Inv(w)
    ensures Guardian.Inv(w.guardian, w.now)
  {
  }

  lemma OwnRequestMayBeAsked(w: World, id: nat)
    requires Inv(w) && id in w.open && w.open[id].phase == Checking
    ensures w.open[id].call.requestHash.Sha256? && MayAsk(w, EvaluationOf(id, w.open[id]))
  {
    assert TransactionOk(w, id, w.open[id]);
  }

  /** An approved call whose decision is still alive, waiting with nothing open on it. */
  predicate Resumable(w: World, id: nat, tool: ToolRow) {
    && id in w.calls && w.calls[id].status == WaitingApproval && id !in w.open
    && KnownTool(w, tool) && tool.versionId == w.calls[id].toolVersionId
    && var found := ApprovedDecision(w, id);
       found.Some? && w.now < w.guardian.decisions[found.value].expiresAt
  }

  function ApprovedDecision(w: World, id: nat): (r: Option<nat>)
    requires id in w.calls
    ensures r.Some? ==> r.value < |w.guardian.decisions|
  {
    Guardian.LatestApproved(w.guardian.decisions, w.guardian.approvals, w.calls[id].tenantId, id,
                            w.calls[id].requestHash)
  }

  function ResumeThen(w: World, id: nat, tool: ToolRow, reply: Reply, lose: bool): seq<Op>
    requires id in w.calls
  {
    [BeginResume(w.calls[id].tenantId, id, tool, w.calls[id].correlationId), AuthorizeCall(id, true), ConsumeToken(id),
     if lose then InvokeThenLose(id, reply) else Invoke(id, reply)]
  }

  lemma AuthorizeHolds(w: World, id: nat, tool: ToolRow)
    requires Resumable(w, id, tool)
    ensures var tx := Transaction(true, tool, w.calls[id], Resuming);
      var w1 := w.(open := w.open[id := tx]);
      var grant := Guardian.Issue(w.guardian, ApprovedDecision(w, id).value, w.now).1.grant.value;
      var held := tx.(call := tx.call.(decisionId := Some(ApprovedDecision(w, id).value)),
                      phase := Holding(grant.token));
      DoAuthorize(w1, id, true) ==
        w1.(guardian := Guardian.Issue(w.guardian, ApprovedDecision(w, id).value, w.now).0, open := w1.open[id := held])
  {
  }

  lemma FreshTokenIsConsumed(g: Guardian.State, d: nat, now: int)
    requires d < |g.decisions|
    ensures var (g', response) := Guardian.Issue(g, d, now);
      var grant := response.grant.value;
      var r := Guardian.Consume(g', grant.token, g.decisions[d].callId, g.decisions[d].requestHash, now);
      r.Ok? && r.value.1 == grant.authorizationId
      && r.value.0.decisions == g.decisions && r.value.0.approvals == g.approvals
  {
  }

  /** The first three steps of a resume that nothing disturbs: the call is ready and its rows are as before. */
  lemma ResumeReadies(w: World, id: nat, tool: ToolRow)
    requires Resumable(w, id, tool)
    ensures var w' := Step(Step(Step(w, BeginResume(w.calls[id].tenantId, id, tool, w.calls[id].correlationId)),
                               AuthorizeCall(id, true)), ConsumeToken(id));
      && ReadyToCall(w', id)
      && w'.open[id].tool == tool
      && w'.calls == w.calls
      && w'.log == w.log
      && w'.now == w.now
      && w'.names == w.names
      && w'.open.Keys == w.open.Keys + {id}
      && w'.guardian.decisions == w.guardian.decisions && w'.guardian.approvals == w.guardian.approvals
  {
    hide Guardian.LatestApproved, Guardian.Issue, Guardian.AuthorizeApproved, Guardian.Consume, DoAuthorize;
    var d := ApprovedDecision(w, id).value;
    var w1 := w.(open := w.open[id := Transaction(true, tool, w.calls[id], Resuming)]);
    assert Step(w, BeginResume(w.calls[id].tenantId, id, tool, w.calls[id].correlationId)) == w1;
    AuthorizeHolds(w, id, tool);
    FreshTokenIsConsumed(w.guardian, d, w.now);
    IssueKeepsRest(w.guardian, d, w.now);
  }

  lemma IssueKeepsRest(g: Guardian.State, d: nat, now: int)
    requires d < |g.decisions|
    ensures var g' := Guardian.Issue(g, d, now).0; g'.decisions == g.decisions && g'.approvals == g.approvals
  {
  }

  /**
   Approved work is never stuck: until its decision expires, an uninterrupted resume invokes the tool.
   A lost transaction leaves the call just as resumable, which is how a second invocation happens.
   */
  lemma ApprovedResumeInvokes(w: World, id: nat, tool: ToolRow, reply: Reply, lose: bool)
    requires Resumable(w, id, tool)
    ensures var w' := Run(w, ResumeThen(w, id, tool, reply, lose));
      && |w'.log| == |w.log| + 1 && w'.log[..|w.log|] == w.log
      && w'.log[|w.log|].callId == id && w'.log[|w.log|].committed == !lose
      && (lose ==> Resumable(w', id, tool))
  {
    hide Run, Step;
    assert id in w.calls;
    hide Resumable;
    var ops := ResumeThen(w, id, tool, reply, lose);
    FourSteps(w, ops[0], ops[1], ops[2], ops[3]);
    ResumeReadies(w, id, tool);
    InvokeEnds(w, Step(Step(Step(w, ops[0]), ops[1]), ops[2]), id, tool, reply, lose);
  }

  lemma InvokeEnds(w: World, w': World, id: nat, tool: ToolRow, reply: Reply, lose: bool)
    requires Resumable(w, id, tool) && ReadyToCall(w', id)
    requires w'.calls == w.calls && w'.log == w.log && w'.now == w.now && w'.names == w.names
    requires w'.open.Keys == w.open.Keys + {id}
    requires w'.guardian.decisions == w.guardian.decisions && w'.guardian.approvals == w.guardian.approvals
    ensures var w'' := Step(w', if lose then InvokeThenLose(id, reply) else Invoke(id, reply));
      && |w''.log| == |w.log| + 1 && w''.log[..|w.log|] == w.log
      && w''.log[|w.log|].callId == id && w''.log[|w.log|].committed == !lose
      && (lose ==> Resumable(w'', id, tool))
  {
    hide Guardian.LatestApproved, CallOutcome, ResultOf;
  }

  /** Without the commit, one approval lets the same call reach its tool again. */
  lemma LostTransactionRepeats(w: World, id: nat, tool: ToolRow, reply: Reply)
    requires Resumable(w, id, tool)
    ensures exists ops: seq<Op> ::
      var w' := Run(w, ops);
      && |w'.log| == |w.log| + 2
      && w'.log[|w.log|].callId == w'.log[|w.log| + 1].callId == id
      && !w'.log[|w.log|].committed && w'.log[|w.log| + 1].committed
  {
    ApprovedResumeInvokes(w, id, tool, reply, true);
    var lost := ResumeThen(w, id, tool, reply, true);
    var w1 := Run(w, lost);
    ApprovedResumeInvokes(w1, id, tool, reply, false);
    var again := ResumeThen(w1, id, tool, reply, false);
    RunAppend(w, lost, again);
    var w2 := Run(w, lost + again);
    assert w2.log[..|w1.log|] == w1.log;
    assert w2.log[|w.log|] == w1.log[|w.log|];
  }
}
