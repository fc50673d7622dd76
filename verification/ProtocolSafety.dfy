/** What every step of the broker and Guardian protocol keeps, and what follows for whole runs. */
module ProtocolSafety {
  import opened Contracts
  import Guardian
  import Policy
  import opened Protocol

  // ---------------------------------------------------------------- invariant

  /** The row says what the hashed document says. */
  predicate CallOk(c: Call) {
    && c.requestHash.Sha256?
    && var d := c.requestHash.document;
       && c.tenantId == d.scope.tenantId
       && c.toolVersionId == d.toolVersionId
       && c.arguments == d.arguments
       && c.idempotencyKey == d.idempotencyKey
  }

  /** Authorization `a` was consumed for exactly this call and this hash. */
  predicate AuthorizedFor(g: Guardian.State, a: nat, id: nat, hash: RequestHash) {
    && a < |g.authorizations|
    && g.authorizations[a].status == Guardian.Consumed
    && g.authorizations[a].callId == id
    && g.authorizations[a].requestHash == hash
  }

  predicate Named(w: World, c: Call, tool: ToolRow) {
    && c.requestHash.Sha256?
    && c.toolVersionId == tool.versionId
    && KnownTool(w, tool)
    && c.requestHash.document.originalName == tool.originalName
  }

  /** What the broker asked Guardian about this call: its own document and hash. */
  predicate AskedFor(w: World, id: nat, c: Call) {
    && c.requestHash.Sha256?
    && id in w.asked
    && w.asked[id].request == CanonicalRequest(id, c.requestHash.document, c.requestHash)
  }

  ghost predicate Unspent(w: World, a: nat) {
    forall k :: 0 <= k < |w.log| ==> w.log[k].call.authorizationId != Some(a)
  }

  ghost predicate TransactionOk(w: World, id: nat, tx: Transaction) {
    && id < w.nextCall
    && CallOk(tx.call) && Named(w, tx.call, tx.tool)
    && (tx.resume <==> id in w.calls)
    && (tx.resume ==> w.calls[id].status == WaitingApproval && w.calls[id].requestHash == tx.call.requestHash)
    && id !in w.results
    && (tx.resume || Protected(tx.tool) ==> AskedFor(w, id, tx.call))
    && (!tx.resume && Protected(tx.tool) ==> w.asked[id].policy == SnapshotOf(tx.tool))
    && (tx.phase == Checking || tx.phase.Decided? ==> !tx.resume && Protected(tx.tool))
    && (tx.phase == Cleared ==> !tx.resume && !Protected(tx.tool))
    && (tx.phase == Resuming ==> tx.resume)
    && (tx.phase.Holding? || tx.phase.Authorized? ==> tx.resume || Protected(tx.tool))
    && (match tx.phase
        case Authorized(a) =>
          tx.call.authorizationId == Some(a) && AuthorizedFor(w.guardian, a, id, tx.call.requestHash) && Unspent(w, a)
        case _ => tx.call.authorizationId == None)
    && (forall k :: 0 <= k < |w.log| && w.log[k].callId == id ==> !w.log[k].committed)
  }

  ghost predicate CommittedOk(w: World, id: nat, c: Call) {
    && id < w.nextCall
    && CallOk(c)
    && c.toolVersionId in w.names && c.requestHash.document.originalName == w.names[c.toolVersionId]
    && c.status != Validated
    && (c.status == WaitingApproval <==> id !in w.results)
    && (c.status == WaitingApproval ==> c.authorizationId == None && AskedFor(w, id, c))
    && (id in w.results ==> w.results[id].status == c.status)
  }

  predicate InvocationOk(w: World, inv: Invocation) {
    && inv.callId < w.nextCall
    && CallOk(inv.call) && Named(w, inv.call, inv.tool)
    && inv.toolName == inv.call.requestHash.document.originalName
    && inv.arguments == inv.call.requestHash.document.arguments
    && (match inv.call.authorizationId
        case None => !inv.resumed && !Protected(inv.tool)
        case Some(a) =>
          && AuthorizedFor(w.guardian, a, inv.callId, inv.call.requestHash)
          && AskedFor(w, inv.callId, inv.call)
          && (!inv.resumed ==> w.asked[inv.callId].policy == SnapshotOf(inv.tool)))
    && (inv.committed ==>
          && inv.callId in w.calls && inv.callId in w.results
          && w.calls[inv.callId].requestHash == inv.call.requestHash)
    && inv.sends <= 1 + inv.tool.maxRetries
    && (inv.tool.sideEffects ==> inv.sends <= 1)
  }

  ghost predicate OpenOk(w: World) {
    forall id: nat :: id in w.open ==> TransactionOk(w, id, w.open[id])
  }

  ghost predicate RowsOk(w: World) {
    && (forall id: nat :: id in w.calls ==> CommittedOk(w, id, w.calls[id]))
    && (forall id: nat :: id in w.results ==> id in w.calls)
  }

  ghost predicate LogOk(w: World) {
    forall k :: 0 <= k < |w.log| ==> InvocationOk(w, w.log[k])
  }

  ghost predicate LogDistinct(w: World) {
    && (forall i, j :: 0 <= i < j < |w.log| && w.log[i].call.authorizationId.Some? ==>
          w.log[i].call.authorizationId != w.log[j].call.authorizationId)
    && (forall i, j :: 0 <= i < j < |w.log| && w.log[i].callId == w.log[j].callId ==> !w.log[i].committed)
  }

  /** The idempotency key a call id holds: its committed row's, or its uncommitted one's. */
  function HeldKey(w: World, id: nat): Option<IdempotencyKey> {
    if id in w.calls then KeyOf(w.calls[id])
    else if id in w.open then KeyOf(w.open[id].call)
    else None
  }

  /** One of the two calls began while the other, of the same key, was still open. */
  predicate Rivals(w: World, i: nat, j: nat) {
    (i, j) in w.rivals || (j, i) in w.rivals
  }

  ghost predicate HoldersOk(w: World) {
    forall i: nat, j: nat :: i != j && HeldKey(w, i).Some? && HeldKey(w, i) == HeldKey(w, j) ==> Rivals(w, i, j)
  }

  ghost predicate LogKeysOk(w: World) {
    forall i, j :: 0 <= i < j < |w.log| && w.log[i].committed && SharedKey(w.log[i].call, w.log[j].call) ==>
      Rivals(w, w.log[i].callId, w.log[j].callId)
  }

  predicate SharedKey(c: Call, d: Call) {
    KeyOf(c).Some? && KeyOf(c) == KeyOf(d)
  }

  // Every evaluated request carries the hash of its own document.
  predicate DecisionsHashed(g: Guardian.State) {
    forall i :: 0 <= i < |g.decisions| ==>
      g.decisions[i].evaluation.request.requestHash == Sha256(g.decisions[i].evaluation.request.document)
  }

  /** Guardian is only ever asked about calls already issued. */
  predicate DecisionAsked(w: World, e: Evaluation) {
    e.request.callId < w.nextCall
  }

  ghost predicate AskedOk(w: World) {
    && (forall id: nat :: id in w.asked ==> id < w.nextCall)
    && (forall i :: 0 <= i < |w.guardian.decisions| ==> DecisionAsked(w, w.guardian.decisions[i].evaluation))
  }

  ghost predicate Inv(w: World) {
    && Guardian.Inv(w.guardian, w.now)
    && DecisionsHashed(w.guardian)
    && AskedOk(w)
    && OpenOk(w)
    && RowsOk(w)
    && LogOk(w)
    && LogDistinct(w)
    && HoldersOk(w)
    && LogKeysOk(w)
  }

  // ------------------------------------------------------------------- frames

  /** Rows and transactions other than `id`'s are as they were. */
  ghost predicate OnlyChanges(w: World, w': World, id: nat) {
    && w'.now == w.now && w'.guardian == w.guardian && w'.names == w.names && w'.nextCall >= w.nextCall
    && (forall i: nat :: i in w.asked ==> i in w'.asked && w'.asked[i] == w.asked[i])
    && (forall i: nat :: i != id ==> (i in w'.calls <==> i in w.calls) && (i in w.calls ==> w'.calls[i] == w.calls[i]))
    && (forall i: nat :: i != id ==>
          (i in w'.results <==> i in w.results) && (i in w.results ==> w'.results[i] == w.results[i]))
    && (forall i: nat :: i != id && i in w'.open ==> i in w.open && w'.open[i] == w.open[i])
  }

  lemma OpenFrame(w: World, w': World, id: nat)
    requires OpenOk(w) && OnlyChanges(w, w', id)
    requires w'.log == w.log
    requires id in w'.open ==> TransactionOk(w', id, w'.open[id])
    ensures OpenOk(w')
  {
    forall i: nat | i in w'.open ensures TransactionOk(w', i, w'.open[i]) {
      if i != id { assert TransactionOk(w, i, w.open[i]); }
    }
  }

  lemma RowsFrame(w: World, w': World, id: nat)
    requires RowsOk(w) && OnlyChanges(w, w', id)
    requires id in w'.calls ==> CommittedOk(w', id, w'.calls[id])
    requires id in w'.results ==> id in w'.calls
    ensures RowsOk(w')
  {
    forall i: nat | i in w'.calls ensures CommittedOk(w', i, w'.calls[i]) {
      if i != id { assert CommittedOk(w, i, w.calls[i]); }
    }
  }

  lemma LogFrame(w: World, w': World, id: nat)
    requires LogOk(w) && OnlyChanges(w, w', id)
    requires w'.log == w.log
    requires forall k :: 0 <= k < |w.log| && w.log[k].callId == id ==> !w.log[k].committed
    ensures LogOk(w')
  {
    forall k | 0 <= k < |w.log| ensures InvocationOk(w', w'.log[k]) {
      assert InvocationOk(w, w.log[k]);
    }
  }

  lemma KeysFrame(w: World, w': World)
    requires HoldersOk(w) && LogKeysOk(w)
    requires w'.log == w.log && w.rivals <= w'.rivals
    requires forall i: nat :: HeldKey(w', i).Some? ==> HeldKey(w', i) == HeldKey(w, i)
    ensures HoldersOk(w') && LogKeysOk(w')
  {
    forall i: nat, j: nat | i != j && HeldKey(w', i).Some? && HeldKey(w', i) == HeldKey(w', j)
      ensures Rivals(w', i, j)
    {
      assert HeldKey(w, i) == HeldKey(w, j);
    }
  }

  lemma NeverCommitted(w: World, id: nat)
    requires LogOk(w) && id !in w.results
    ensures forall k :: 0 <= k < |w.log| && w.log[k].callId == id ==> !w.log[k].committed
  {
    forall k | 0 <= k < |w.log| && w.log[k].callId == id ensures !w.log[k].committed {
      assert InvocationOk(w, w.log[k]);
    }
  }

  lemma GuardianFrame(w: World, g: Guardian.State)
    requires OpenOk(w) && RowsOk(w) && LogOk(w) && Guardian.Extends(w.guardian, g)
    ensures OpenOk(w.(guardian := g)) && RowsOk(w.(guardian := g)) && LogOk(w.(guardian := g))
  {
    var w' := w.(guardian := g);
    forall i: nat | i in w'.open ensures TransactionOk(w', i, w'.open[i]) {
      assert TransactionOk(w, i, w.open[i]);
    }
    forall i: nat | i in w'.calls ensures CommittedOk(w', i, w'.calls[i]) {
      assert CommittedOk(w, i, w.calls[i]);
    }
    forall k | 0 <= k < |w.log| ensures InvocationOk(w', w'.log[k]) {
      assert InvocationOk(w, w.log[k]);
    }
  }

  // --------------------------------------------------- moves that keep it

  /** Guardian moved on; no consumption is undone. */
  lemma GuardianMoves(w: World, g: Guardian.State)
    requires Inv(w) && Guardian.Inv(g, w.now) && Guardian.Extends(w.guardian, g)
    requires DecisionsHashed(g) && AskedOk(w.(guardian := g))
    ensures Inv(w.(guardian := g))
  {
    GuardianFrame(w, g);
    KeysFrame(w, w.(guardian := g));
  }

  /** The row `call` may be committed for the open transaction `id`. */
  ghost predicate Committable(w: World, id: nat, call: Call) {
    && id in w.open
    && call == w.open[id].call.(status := call.status, decisionId := call.decisionId)
    && call.status != Validated
    && (call.status == WaitingApproval ==> call.authorizationId == None && AskedFor(w, id, call))
  }

  lemma CommittedRow(w: World, id: nat, call: Call, result: ToolResult)
    requires OpenOk(w) && Committable(w, id, call) && result.status == call.status
    ensures CommittedOk(Commit(w, id, call, result), id, call)
    ensures forall k :: 0 <= k < |w.log| && w.log[k].callId == id ==> !w.log[k].committed
  {
    assert TransactionOk(w, id, w.open[id]);
  }

  lemma CommitKeepsInv(w: World, id: nat, call: Call, result: ToolResult)
    requires Inv(w) && Committable(w, id, call) && result.status == call.status
    ensures Inv(Commit(w, id, call, result))
  {
    hide TransactionOk, CommittedOk, InvocationOk, OpenOk, RowsOk, LogOk, HoldersOk, LogKeysOk, Guardian.Inv,
         DecisionsHashed;
    var w' := Commit(w, id, call, result);
    CommittedRow(w, id, call, result);
    OpenFrame(w, w', id);
    RowsFrame(w, w', id);
    LogFrame(w, w', id);
    CommitKeepsHeldKeys(w, id, call, result);
    KeysFrame(w, w');
  }

  lemma CommitKeepsHeldKeys(w: World, id: nat, call: Call, result: ToolResult)
    requires Committable(w, id, call) && OpenOk(w) && RowsOk(w)
    ensures forall i: nat :: HeldKey(Commit(w, id, call, result), i) == HeldKey(w, i)
  {
    hide Guardian.Inv;
    assert TransactionOk(w, id, w.open[id]);
    hide TransactionOk, OpenOk;
    assert KeyOf(call) == KeyOf(w.open[id].call);
    if w.open[id].resume {
      assert CommittedOk(w, id, w.calls[id]);
      assert KeyOf(w.calls[id]) == KeyOf(call);
    }
  }

  /** Only the open transactions differ, and each is well formed and of a call already open. */
  lemma OpenOnlyKeepsInv(w: World, w': World)
    requires Inv(w) && w' == w.(open := w'.open) && OpenOk(w')
    requires forall i: nat :: i in w'.open && i !in w.calls ==>
        i in w.open && KeyOf(w'.open[i].call) == KeyOf(w.open[i].call)
    ensures Inv(w')
  {
    hide HoldersOk, LogKeysOk, Guardian.Inv, DecisionsHashed, TransactionOk;
    forall i: nat | i in w'.calls ensures CommittedOk(w', i, w'.calls[i]) {
      assert CommittedOk(w, i, w.calls[i]);
    }
    forall k | 0 <= k < |w.log| ensures InvocationOk(w', w'.log[k]) {
      assert InvocationOk(w, w.log[k]);
    }
    KeysFrame(w, w');
  }

  lemma CloseKeepsInv(w: World, id: nat)
    requires Inv(w)
    ensures Inv(Close(w, id))
  {
    hide LogDistinct, HoldersOk, LogKeysOk, Guardian.Inv, DecisionsHashed, RowsOk, LogOk;
    var w' := Close(w, id);
    forall i: nat | i in w'.open ensures TransactionOk(w', i, w'.open[i]) {
      assert TransactionOk(w, i, w.open[i]);
    }
    OpenOnlyKeepsInv(w, w');
  }

  /** An open transaction moves to another phase of the same call. */
  lemma PhaseKeepsInv(w: World, id: nat, tx: Transaction)
    requires Inv(w) && id in w.open
    requires KeyOf(tx.call) == KeyOf(w.open[id].call)
    requires TransactionOk(w, id, tx)
    ensures Inv(w.(open := w.open[id := tx]))
  {
    hide LogDistinct, HoldersOk, LogKeysOk, Guardian.Inv, DecisionsHashed, RowsOk, LogOk;
    var w' := w.(open := w.open[id := tx]);
    OpenUpdate(w, id, tx);
    OpenOnlyKeepsInv(w, w');
  }

  lemma OpenUpdate(w: World, id: nat, tx: Transaction)
    requires OpenOk(w) && TransactionOk(w, id, tx)
    ensures OpenOk(w.(open := w.open[id := tx]))
  {
    var w' := w.(open := w.open[id := tx]);
    forall i: nat | i in w'.open ensures TransactionOk(w', i, w'.open[i]) {
      assert i == id || TransactionOk(w, i, w.open[i]);
    }
  }

  lemma BeginExecuteKeepsInv(w: World, request: Submit, tool: ToolRow)
    requires Inv(w)
    ensures Inv(DoBeginExecute(w, request, tool))
  {
    hide HoldersOk, LogKeysOk, Guardian.Inv, DecisionsHashed, FindCall, InvocationOk, CommittedOk, InFlight,
         TransactionOk,
         ValidateAccess, OpenOk, RowsOk, LogOk;
    var w' := DoBeginExecute(w, request, tool);
    if w' == w { return; }
    var id := w.nextCall;
    FreshId(w);
    NeverCommitted(w, id);
    BegunIsOk(w, request, tool);
    OpenFrame(w, w', id);
    RowsFrame(w, w', id);
    LogFrame(w, w', id);
    BeginExecuteHolders(w, request, tool);
    BeginExecuteAsks(w, request, tool);
  }

  lemma BegunIsOk(w: World, request: Submit, tool: ToolRow)
    requires w.nextCall !in w.calls && w.nextCall !in w.results
    requires forall k :: 0 <= k < |w.log| && w.log[k].callId == w.nextCall ==> !w.log[k].committed
    ensures var w' := DoBeginExecute(w, request, tool);
      w' != w ==> w.nextCall in w'.open && TransactionOk(w', w.nextCall, w'.open[w.nextCall])
  {
    hide ValidateAccess, FindCall, InFlight;
  }

  lemma BeginExecuteAsks(w: World, request: Submit, tool: ToolRow)
    requires AskedOk(w)
    ensures AskedOk(DoBeginExecute(w, request, tool))
  {
    var w' := DoBeginExecute(w, request, tool);
    forall i | 0 <= i < |w'.guardian.decisions| ensures DecisionAsked(w', w'.guardian.decisions[i].evaluation) {
      assert DecisionAsked(w, w.guardian.decisions[i].evaluation);
    }
  }

  lemma FreshId(w: World)
    requires OpenOk(w) && RowsOk(w)
    ensures w.nextCall !in w.open && w.nextCall !in w.calls && w.nextCall !in w.results
  {
  }

  lemma NoCommittedHolder(w: World, call: Call)
    requires RowsOk(w)
    requires KeyOf(call).Some? ==> FindCall(w.calls, KeyOf(call).value, 0, w.nextCall).None?
    ensures forall i: nat :: i in w.calls && KeyOf(call).Some? ==> KeyOf(w.calls[i]) != KeyOf(call)
  {
    forall i: nat | i in w.calls && KeyOf(call).Some? ensures KeyOf(w.calls[i]) != KeyOf(call) {
      assert CommittedOk(w, i, w.calls[i]);
    }
  }

  lemma AddHolder(w: World, w': World, id: nat)
    requires HoldersOk(w) && LogKeysOk(w)
    requires w'.log == w.log && w.rivals <= w'.rivals
    requires forall i: nat :: i != id ==> HeldKey(w', i) == HeldKey(w, i)
    requires forall i: nat :: i != id && HeldKey(w, i).Some? && HeldKey(w, i) == HeldKey(w', id) ==> Rivals(w', i, id)
    ensures HoldersOk(w') && LogKeysOk(w')
  {
    forall i: nat, j: nat | i != j && HeldKey(w', i).Some? && HeldKey(w', i) == HeldKey(w', j)
      ensures Rivals(w', i, j)
    {
      if i != id && j != id {
        assert HeldKey(w, i) == HeldKey(w, j);
      }
    }
  }

  lemma BeginExecuteHolders(w: World, request: Submit, tool: ToolRow)
    requires Inv(w)
    ensures HoldersOk(DoBeginExecute(w, request, tool)) && LogKeysOk(DoBeginExecute(w, request, tool))
  {
    hide ValidateAccess, FindCall, TransactionOk, CommittedOk, LogDistinct, LogOk, Guardian.Inv, DecisionsHashed,
         AskedOk;
    var w' := DoBeginExecute(w, request, tool);
    if w' == w { return; }
    FreshId(w);
    var id := w.nextCall;
    var call := NewCall(request, tool);
    NoCommittedHolder(w, call);
    assert HeldKey(w', id) == KeyOf(call);
    forall i: nat | i != id && HeldKey(w, i).Some? && HeldKey(w, i) == KeyOf(call)
      ensures Rivals(w', i, id)
    {
      assert i in InFlight(w, call);
      assert (i, id) in w'.rivals;
    }
    AddHolder(w, w', id);
  }

  lemma BeginResumeKeepsInv(w: World, tenantId: nat, id: nat, tool: ToolRow, correlationId: nat)
    requires Inv(w)
    ensures Inv(DoBeginResume(w, tenantId, id, tool, correlationId))
  {
    hide HoldersOk, LogKeysOk, Guardian.Inv, DecisionsHashed;
    var w' := DoBeginResume(w, tenantId, id, tool, correlationId);
    if w' == w { return; }
    assert CommittedOk(w, id, w.calls[id]);
    NeverCommitted(w, id);
    OpenUpdate(w, id, w'.open[id]);
    OpenOnlyKeepsInv(w, w');
  }

  // ------------------------------------------------------- Guardian's answers

  /** An evaluation adds at most one decision, about exactly what was asked. */
  lemma EvaluateDecides(g: Guardian.State, e: Evaluation, now: int, signing: bool)
    ensures var r := Guardian.Evaluate(g, e, now, signing);
      r.Ok? ==>
        var ds := r.value.0.decisions;
        || ds == g.decisions
        || (|ds| == |g.decisions| + 1 && ds[..|g.decisions|] == g.decisions && ds[|g.decisions|].evaluation == e)
  {
  }

  /** Guardian evaluates a request it may be asked, the broker's or a redelivered one. */
  lemma AskingKeepsInv(w: World, e: Evaluation, signing: bool)
    requires Inv(w) && MayAsk(w, e)
    ensures var r := Guardian.Evaluate(w.guardian, e, w.now, signing); r.Ok? ==> Inv(w.(guardian := r.value.0))
  {
    hide OpenOk, RowsOk, LogOk, LogDistinct, HoldersOk, LogKeysOk, Guardian.Inv, Guardian.Extends, Guardian.Evaluate;
    Guardian.EvaluateKeepsInv(w.guardian, e, w.now, signing);
    EvaluateDecides(w.guardian, e, w.now, signing);
    var r := Guardian.Evaluate(w.guardian, e, w.now, signing);
    if r.Ok? {
      var ds, ds' := w.guardian.decisions, r.value.0.decisions;
      forall i | 0 <= i < |ds'|
        ensures DecisionAsked(w, ds'[i].evaluation)
        ensures ds'[i].evaluation.request.requestHash == Sha256(ds'[i].evaluation.request.document)
      {
        assert i == |ds| || ds'[i] == ds[i];
      }
      GuardianMoves(w, r.value.0);
    }
  }

  /** A fresh consumption was nobody's before, so no invocation in the log owns it. */
  lemma ConsumedIsUnspent(w: World, token: Guardian.Token, id: nat, hash: RequestHash)
    requires LogOk(w)
    ensures var r := Guardian.Consume(w.guardian, token, id, hash, w.now);
      r.Ok? ==> Unspent(w, r.value.1) && AuthorizedFor(r.value.0, r.value.1, id, hash)
  {
    forall k | 0 <= k < |w.log| && w.log[k].call.authorizationId.Some?
      ensures w.guardian.authorizations[w.log[k].call.authorizationId.value].status == Guardian.Consumed
    {
      assert InvocationOk(w, w.log[k]);
    }
  }

  lemma UnavailableKeepsInv(w: World, id: nat)
    requires Inv(w)
    ensures Inv(DoUnavailable(w, id))
  {
    if id in w.open && (w.open[id].phase == Checking || w.open[id].phase.Decided?) {
      assert TransactionOk(w, id, w.open[id]);
      CommitKeepsInv(w, id, w.open[id].call.(status := Blocked), ToolResult(Blocked, None));
    }
  }

  lemma GrantKeepsInv(w: World, id: nat, response: Guardian.Response)
    requires Inv(w) && id in w.open && (w.open[id].phase.Decided? || w.open[id].phase == Resuming)
    ensures Inv(OnGrant(w, id, response))
  {
    var tx := w.open[id];
    assert TransactionOk(w, id, tx);
    if response.grant.None? { CloseKeepsInv(w, id); }
    else {
      var call := tx.call.(decisionId := Some(response.decisionId));
      PhaseKeepsInv(w, id, tx.(call := call, phase := Holding(response.grant.value.token)));
    }
  }

  lemma DecisionKeepsInv(w: World, id: nat, response: Guardian.Response)
    requires Inv(w) && id in w.open && w.open[id].phase.Decided?
    ensures Inv(OnDecision(w, id, response))
  {
    var tx := w.open[id];
    assert TransactionOk(w, id, tx);
    var call := tx.call.(decisionId := Some(response.decisionId));
    if response.outcome == Policy.Allow { GrantKeepsInv(w, id, response); }
    else {
      var status := if response.outcome == Policy.Block then Blocked else WaitingApproval;
      CommitKeepsInv(w, id, call.(status := status), ToolResult(status, None));
    }
  }

  lemma EvaluateKeepsInv(w: World, id: nat, signing: bool)
    requires Inv(w)
    ensures Inv(DoEvaluate(w, id, signing))
  {
    hide RowsOk, LogOk, LogDistinct, HoldersOk, LogKeysOk, Guardian.Inv, Guardian.Evaluate;
    if id !in w.open || w.open[id].phase != Checking { return; }
    assert TransactionOk(w, id, w.open[id]);
    var e := EvaluationOf(id, w.open[id]);
    var r := Guardian.Evaluate(w.guardian, e, w.now, signing);
    AskingKeepsInv(w, e, signing);
    if r.Ok? {
      var w' := w.(guardian := r.value.0);
      assert TransactionOk(w', id, w'.open[id]);
      PhaseKeepsInv(w', id, w.open[id].(phase := Decided(r.value.1)));
    }
  }

  lemma HearKeepsInv(w: World, id: nat)
    requires Inv(w)
    ensures Inv(DoHear(w, id))
  {
    hide Inv, OnDecision;
    if id in w.open && w.open[id].phase.Decided? { DecisionKeepsInv(w, id, w.open[id].phase.response); }
  }

  lemma EvaluateElsewhereKeepsInv(w: World, e: Evaluation, signing: bool)
    requires Inv(w)
    ensures Inv(DoEvaluateElsewhere(w, e, signing))
  {
    hide Inv, Guardian.Evaluate, MayAsk;
    if MayAsk(w, e) { AskingKeepsInv(w, e, signing); }
  }

  lemma AuthorizeElsewhereKeepsInv(w: World, tenantId: nat, callId: nat, hash: RequestHash, signing: bool)
    requires Inv(w)
    ensures Inv(DoAuthorizeElsewhere(w, tenantId, callId, hash, signing))
  {
    hide OpenOk, RowsOk, LogOk, LogDistinct, HoldersOk, LogKeysOk, Guardian.Inv, Guardian.Extends;
    Guardian.AuthorizeApprovedKeepsInv(w.guardian, tenantId, callId, hash, w.now, signing);
    var r := Guardian.AuthorizeApproved(w.guardian, tenantId, callId, hash, w.now, signing);
    if r.Ok? { GuardianMoves(w, r.value.0); }
  }

  lemma AuthorizeKeepsInv(w: World, id: nat, signing: bool)
    requires Inv(w)
    ensures Inv(DoAuthorize(w, id, signing))
  {
    hide OpenOk, RowsOk, LogOk, LogDistinct, HoldersOk, LogKeysOk, Guardian.Inv, Guardian.Extends;
    if id !in w.open || w.open[id].phase != Resuming { return; }
    var call := w.open[id].call;
    var r := Guardian.AuthorizeApproved(w.guardian, call.tenantId, id, call.requestHash, w.now, signing);
    if r.Err? {
      CloseKeepsInv(w, id);
    } else {
      Guardian.AuthorizeApprovedKeepsInv(w.guardian, call.tenantId, id, call.requestHash, w.now, signing);
      GuardianMoves(w, r.value.0);
      GrantKeepsInv(w.(guardian := r.value.0), id, r.value.1);
    }
  }

  lemma SpentOk(w: World, id: nat, a: nat)
    requires id in w.open && w.open[id].phase.Holding? && TransactionOk(w, id, w.open[id])
    requires Unspent(w, a) && AuthorizedFor(w.guardian, a, id, w.open[id].call.requestHash)
    ensures TransactionOk(w, id, Spent(w.open[id], a))
    ensures KeyOf(Spent(w.open[id], a).call) == KeyOf(w.open[id].call)
  {
  }

  lemma ConsumeKeepsInv(w: World, id: nat)
    requires Inv(w)
    ensures Inv(DoConsume(w, id))
  {
    hide RowsOk, LogOk, LogDistinct, HoldersOk, LogKeysOk, Guardian.Inv, Guardian.Extends;
    if id !in w.open || !w.open[id].phase.Holding? { return; }
    var tx := w.open[id];
    var r := Guardian.Consume(w.guardian, tx.phase.token, id, tx.call.requestHash, w.now);
    if r.Err? {
      CloseKeepsInv(w, id);
    } else {
      Guardian.ConsumeKeepsInv(w.guardian, tx.phase.token, id, tx.call.requestHash, w.now);
      ConsumedIsUnspent(w, tx.phase.token, id, tx.call.requestHash);
      var w' := w.(guardian := r.value.0);
      GuardianMoves(w, r.value.0);
      SpentOk(w', id, r.value.1);
      PhaseKeepsInv(w', id, Spent(tx, r.value.1));
    }
  }

  lemma ConsumeElsewhereKeepsInv(w: World, token: Guardian.Token, callId: nat, hash: RequestHash)
    requires Inv(w)
    ensures Inv(DoConsumeElsewhere(w, token, callId, hash))
  {
    hide OpenOk, RowsOk, LogOk, LogDistinct, HoldersOk, LogKeysOk, Guardian.Inv, Guardian.Extends;
    Guardian.ConsumeKeepsInv(w.guardian, token, callId, hash, w.now);
    var r := Guardian.Consume(w.guardian, token, callId, hash, w.now);
    if r.Ok? { GuardianMoves(w, r.value.0); }
  }

  lemma ActKeepsInv(w: World, tenantId: nat, decisionId: nat, action: Guardian.ApprovalAction)
    requires Inv(w)
    ensures Inv(DoAct(w, tenantId, decisionId, action))
  {
    hide OpenOk, RowsOk, LogOk, LogDistinct, HoldersOk, LogKeysOk, Guardian.Inv, Guardian.Extends;
    Guardian.ActKeepsInv(w.guardian, tenantId, decisionId, action, w.now);
    var r := Guardian.ActOnApproval(w.guardian, tenantId, decisionId, action, w.now);
    if r.Ok? { GuardianMoves(w, r.value); }
  }

  // ------------------------------------------------------------ the invocation

  lemma SendsBounded(tool: ToolRow, reply: Reply)
    ensures CallOutcome(tool, reply).sends <= 1 + tool.maxRetries
    ensures tool.sideEffects ==> CallOutcome(tool, reply).sends <= 1
  {
  }

  lemma SameHashSameKey(c: Call, d: Call)
    requires CallOk(c) && CallOk(d) && c.requestHash == d.requestHash
    ensures KeyOf(c) == KeyOf(d)
  {
  }

  lemma CommittedHoldsKey(w: World, k: nat)
    requires LogOk(w) && RowsOk(w) && k < |w.log| && w.log[k].committed
    ensures HeldKey(w, w.log[k].callId) == KeyOf(w.log[k].call)
  {
    var inv := w.log[k];
    assert InvocationOk(w, inv);
    assert CommittedOk(w, inv.callId, w.calls[inv.callId]);
    SameHashSameKey(inv.call, w.calls[inv.callId]);
  }

  lemma OpenHoldsKey(w: World, id: nat)
    requires RowsOk(w) && id in w.open && TransactionOk(w, id, w.open[id])
    ensures HeldKey(w, id) == KeyOf(w.open[id].call)
  {
    if w.open[id].resume {
      assert CommittedOk(w, id, w.calls[id]);
      SameHashSameKey(w.open[id].call, w.calls[id]);
    }
  }

  /** A committed invocation of another call under the key of the open call `id` was a rival's. */
  lemma SharedWithOpen(w: World, id: nat, k: nat)
    requires LogOk(w) && RowsOk(w) && HoldersOk(w) && id in w.open && TransactionOk(w, id, w.open[id])
    requires k < |w.log| && w.log[k].committed && SharedKey(w.log[k].call, w.open[id].call)
    ensures Rivals(w, w.log[k].callId, id)
  {
    hide LogOk, RowsOk, KeyOf;
    CommittedHoldsKey(w, k);
    OpenHoldsKey(w, id);
    assert w.log[k].callId != id;
  }

  /** The log gains one invocation of the open call `id`. */
  lemma AppendInvocation(w: World, id: nat, reply: Reply, committed: bool)
    requires Inv(w) && ReadyToCall(w, id)
    ensures var w' := w.(log := w.log + [InvocationOf(w, id, reply, committed)]);
      LogDistinct(w') && LogKeysOk(w')
  {
    hide Guardian.Inv, DecisionsHashed, KeyOf, CallOutcome, LogOk, RowsOk, HoldersOk;
    assert TransactionOk(w, id, w.open[id]);
    var w' := w.(log := w.log + [InvocationOf(w, id, reply, committed)]);
    forall i, j | 0 <= i < j < |w'.log| && w'.log[i].committed && SharedKey(w'.log[i].call, w'.log[j].call)
      ensures Rivals(w', w'.log[i].callId, w'.log[j].callId)
    {
      if j == |w.log| { SharedWithOpen(w, id, i); }
    }
  }

  lemma LoggedOpen(w: World, inv: Invocation)
    requires OpenOk(w) && LogOk(w) && InvocationOk(w, inv) && inv.callId !in w.open
    requires LogDistinct(w.(log := w.log + [inv]))
    ensures OpenOk(w.(log := w.log + [inv]))
  {
    hide KeyOf, LogOk;
    var w' := w.(log := w.log + [inv]);
    forall i: nat | i in w'.open ensures TransactionOk(w', i, w'.open[i]) {
      assert TransactionOk(w, i, w.open[i]);
    }
  }

  lemma LoggedRows(w: World, inv: Invocation)
    requires RowsOk(w) && LogOk(w) && InvocationOk(w, inv)
    ensures RowsOk(w.(log := w.log + [inv])) && LogOk(w.(log := w.log + [inv]))
  {
    hide KeyOf, CallOk;
    var w' := w.(log := w.log + [inv]);
    forall i: nat | i in w'.calls ensures CommittedOk(w', i, w'.calls[i]) {
      assert CommittedOk(w, i, w.calls[i]);
    }
    forall k | 0 <= k < |w'.log| ensures InvocationOk(w', w'.log[k]) {
      assert k == |w.log| || InvocationOk(w, w.log[k]);
    }
  }

  /** A finished invocation joins the log once its transaction is closed. */
  lemma LogGrows(w: World, inv: Invocation)
    requires Inv(w) && InvocationOk(w, inv) && inv.callId !in w.open
    requires var w' := w.(log := w.log + [inv]); LogDistinct(w') && LogKeysOk(w')
    ensures Inv(w.(log := w.log + [inv]))
  {
    hide LogDistinct, LogKeysOk, OpenOk, RowsOk, LogOk, Guardian.Inv, DecisionsHashed, KeyOf, InvocationOk;
    var w' := w.(log := w.log + [inv]);
    LoggedOpen(w, inv);
    LoggedRows(w, inv);
    forall i: nat ensures HeldKey(w', i) == HeldKey(w, i) {}
    assert HoldersOk(w');
  }

  lemma InvocationIsOk(w: World, w': World, id: nat, reply: Reply, committed: bool)
    requires Inv(w) && ReadyToCall(w, id)
    requires w'.nextCall == w.nextCall && w'.names == w.names && w'.guardian == w.guardian && w'.asked == w.asked
    requires committed ==> id in w'.calls && id in w'.results && w'.calls[id].requestHash == w.open[id].call.requestHash
    ensures InvocationOk(w', InvocationOf(w, id, reply, committed))
  {
    assert TransactionOk(w, id, w.open[id]);
    SendsBounded(w.open[id].tool, reply);
  }

  lemma InvokeKeepsInv(w: World, id: nat, reply: Reply)
    requires Inv(w)
    ensures Inv(DoInvoke(w, id, reply))
  {
    if !ReadyToCall(w, id) { return; }
    var tx := w.open[id];
    var result := ResultOf(tx.tool, reply);
    var closed := Commit(w, id, tx.call.(status := result.status), result);
    CommitKeepsInv(w, id, tx.call.(status := result.status), result);
    AppendInvocation(w, id, reply, true);
    InvocationIsOk(w, closed, id, reply, true);
    LogGrows(closed, InvocationOf(w, id, reply, true));
  }

  lemma InvokeThenLoseKeepsInv(w: World, id: nat, reply: Reply)
    requires Inv(w)
    ensures Inv(DoInvokeThenLose(w, id, reply))
  {
    if !ReadyToCall(w, id) { return; }
    CloseKeepsInv(w, id);
    AppendInvocation(w, id, reply, false);
    InvocationIsOk(w, Close(w, id), id, reply, false);
    LogGrows(Close(w, id), InvocationOf(w, id, reply, false));
  }

  lemma TickKeepsInv(w: World, microseconds: nat)
    requires Inv(w)
    ensures Inv(w.(now := w.now + microseconds))
  {
    var w' := w.(now := w.now + microseconds);
    Guardian.TickKeepsInv(w.guardian, w.now, w'.now);
    forall i: nat | i in w'.open ensures TransactionOk(w', i, w'.open[i]) {
      assert TransactionOk(w, i, w.open[i]);
    }
    forall i: nat | i in w'.calls ensures CommittedOk(w', i, w'.calls[i]) {
      assert CommittedOk(w, i, w.calls[i]);
    }
    forall k | 0 <= k < |w.log| ensures InvocationOk(w', w'.log[k]) {
      assert InvocationOk(w, w.log[k]);
    }
    KeysFrame(w, w');
  }

  lemma StepKeepsInv(w: World, op: Op)
    requires Inv(w)
    ensures Inv(Step(w, op))
  {
    hide Inv, DoBeginExecute, DoEvaluate, DoHear, DoUnavailable, DoBeginResume, DoAuthorize, DoConsume, DoInvoke,
         DoInvokeThenLose, DoAct, DoEvaluateElsewhere, DoAuthorizeElsewhere, DoConsumeElsewhere, Close;
    match op {
      case Tick(microseconds) => TickKeepsInv(w, microseconds);
      case BeginExecute(request, tool) => BeginExecuteKeepsInv(w, request, tool);
      case EvaluateCall(id, signing) => EvaluateKeepsInv(w, id, signing);
      case HearDecision(id) => HearKeepsInv(w, id);
      case GuardianUnavailable(id) => UnavailableKeepsInv(w, id);
      case BeginResume(tenantId, id, tool, correlationId) => BeginResumeKeepsInv(w, tenantId, id, tool, correlationId);
      case AuthorizeCall(id, signing) => AuthorizeKeepsInv(w, id, signing);
      case ConsumeToken(id) => ConsumeKeepsInv(w, id);
      case Invoke(id, reply) => InvokeKeepsInv(w, id, reply);
      case InvokeThenLose(id, reply) => InvokeThenLoseKeepsInv(w, id, reply);
      case Abort(id) => CloseKeepsInv(w, id);
      case ActOnApproval(tenantId, decisionId, action) => ActKeepsInv(w, tenantId, decisionId, action);
      case EvaluateElsewhere(e, signing) => EvaluateElsewhereKeepsInv(w, e, signing);
      case AuthorizeElsewhere(tenantId, callId, hash, signing) =>
        AuthorizeElsewhereKeepsInv(w, tenantId, callId, hash, signing);
      case ConsumeElsewhere(token, callId, hash) => ConsumeElsewhereKeepsInv(w, token, callId, hash);
    }
  }

  lemma {:induction false} RunKeepsInv(w: World, ops: seq<Op>)
    requires Inv(w)
    ensures Inv(Run(w, ops))
    decreases |ops|
  {
    hide Inv, Step;
    if ops != [] {
      StepKeepsInv(w, ops[0]);
      RunKeepsInv(Step(w, ops[0]), ops[1..]);
    }
  }

  // ------------------------------------------------------------ whole runs

  /** Where an authorized invocation's right to run comes from. */
  ghost predicate Traced(w: World, inv: Invocation, a: nat) {
    && a < |w.guardian.authorizations|
    && var row := w.guardian.authorizations[a];
       && row.status == Guardian.Consumed
       && row.callId == inv.callId && row.requestHash == inv.call.requestHash
       && row.decisionId < |w.guardian.decisions|
       && var d := w.guardian.decisions[row.decisionId];
          && d.callId == inv.callId && d.requestHash == inv.call.requestHash
          && AskedFor(w, inv.callId, inv.call) && d.evaluation.request == w.asked[inv.callId].request
          && Policy.Satisfies(inv.call.requestHash.document, d.evaluation.policy)
          && (if Policy.NeedsApproval(d.evaluation.policy) then ApprovedByApprover(w.guardian, row.decisionId)
              else d.evaluation.policy.riskClass == Read ==> d.evaluation.policy.approvalMode == Never)
  }

  /** Someone who holds the approver role, acting for the decision's tenant, approved it before it expired. */
  predicate ApprovedByApprover(g: Guardian.State, decisionId: nat)
    requires decisionId < |g.decisions|
  {
    && decisionId in g.approvals
    && var approval, d := g.approvals[decisionId], g.decisions[decisionId];
       && approval.status == Guardian.Approved && approval.tenantId == d.tenantId
       && approval.resolution.Some?
       && approval.resolution.value.tenantId == d.tenantId
       && approval.resolution.value.action.approve
       && Guardian.APPROVER_ROLE in approval.resolution.value.action.actorRoles
       && approval.resolution.value.at < d.expiresAt
  }

  lemma StartIsOk(now: int, names: map<nat, string>)
    ensures Inv(Start(now, names))
  {
  }

  lemma InvocationIsTraced(w: World, k: nat)
    requires Inv(w) && k < |w.log| && (Protected(w.log[k].tool) || w.log[k].resumed)
    ensures w.log[k].call.authorizationId.Some? && Traced(w, w.log[k], w.log[k].call.authorizationId.value)
  {
    hide OpenOk, RowsOk, LogDistinct, HoldersOk, LogKeysOk, Policy.Evaluate, Policy.Satisfies;
    var inv := w.log[k];
    assert InvocationOk(w, inv);
    var a := inv.call.authorizationId.value;
    assert Guardian.AuthorizationOk(w.guardian, a, w.now);
    var d := w.guardian.authorizations[a].decisionId;
    assert Guardian.DecisionOk(w.guardian.decisions[d], w.now);
    assert DecisionAsked(w, w.guardian.decisions[d].evaluation);
    Policy.EvaluateMeans(w.guardian.decisions[d].evaluation);
  }

  /** Every protected invocation owns its own consumed, traced authorization and sends what was hashed. */
  lemma ProtectedInvocationsAreAuthorized(now: int, names: map<nat, string>, ops: seq<Op>)
    ensures var w := Run(Start(now, names), ops);
      && (forall k :: 0 <= k < |w.log| && (Protected(w.log[k].tool) || w.log[k].resumed) ==>
            w.log[k].call.authorizationId.Some? && Traced(w, w.log[k], w.log[k].call.authorizationId.value))
      && (forall i, j :: 0 <= i < j < |w.log| && w.log[i].call.authorizationId.Some? ==>
            w.log[i].call.authorizationId != w.log[j].call.authorizationId)
      && (forall k :: 0 <= k < |w.log| ==>
            && w.log[k].call.requestHash.Sha256?
            && w.log[k].arguments == w.log[k].call.requestHash.document.arguments
            && w.log[k].toolName == w.log[k].call.requestHash.document.originalName)
  {
    hide Run, Traced, TransactionOk, CommittedOk, Guardian.Inv;
    StartIsOk(now, names);
    RunKeepsInv(Start(now, names), ops);
    var w := Run(Start(now, names), ops);
    forall k | 0 <= k < |w.log| && (Protected(w.log[k].tool) || w.log[k].resumed)
      ensures w.log[k].call.authorizationId.Some? && Traced(w, w.log[k], w.log[k].call.authorizationId.value)
    {
      InvocationIsTraced(w, k);
    }
    forall k | 0 <= k < |w.log| ensures CallOk(w.log[k].call) {
      assert InvocationOk(w, w.log[k]);
    }
  }

  /**
   An invocation that another of the same call follows never committed; one that another of the same
   idempotency key follows never committed either, unless one of these two very calls began while the other
   was open. A tool with side effects is sent at most once per invocation.
   */
  lemma RepeatsFollowLostTransactions(now: int, names: map<nat, string>, ops: seq<Op>)
    ensures var w := Run(Start(now, names), ops);
      && (forall i, j :: 0 <= i < j < |w.log| && w.log[i].callId == w.log[j].callId ==> !w.log[i].committed)
      && (forall i, j :: 0 <= i < j < |w.log| && SharedKey(w.log[i].call, w.log[j].call) ==>
            !w.log[i].committed || Rivals(w, w.log[i].callId, w.log[j].callId))
      && (forall k :: 0 <= k < |w.log| && w.log[k].tool.sideEffects ==> w.log[k].sends <= 1)
  {
    RunKeepsInv(Start(now, names), ops);
    var w := Run(Start(now, names), ops);
    forall k | 0 <= k < |w.log| && w.log[k].tool.sideEffects ensures w.log[k].sends <= 1 {
      assert InvocationOk(w, w.log[k]);
    }
  }

  /** Every consumption comes less than 15 minutes and 120 seconds after its decision. */
  lemma ConsumptionIsFresh(now: int, names: map<nat, string>, ops: seq<Op>, a: nat)
    requires var g := Run(Start(now, names), ops).guardian;
      a < |g.authorizations| && g.authorizations[a].status == Guardian.Consumed
    ensures var g := Run(Start(now, names), ops).guardian;
      var row := g.authorizations[a];
      && row.decisionId < |g.decisions| && row.consumedAt.Some?
      && g.decisions[row.decisionId].createdAt <= row.issuedAt <= row.consumedAt.value
      && row.consumedAt.value < g.decisions[row.decisionId].createdAt + 15 * MINUTE + 120 * SECOND
  {
    RunKeepsInv(Start(now, names), ops);
    var w := Run(Start(now, names), ops);
    assert Guardian.AuthorizationOk(w.guardian, a, w.now);
    assert Guardian.DecisionOk(w.guardian.decisions[w.guardian.authorizations[a].decisionId], w.now);
  }

  // ---------------------------------------------------------- stored results

  lemma {:induction false} ResultsAreFinal(w: World, ops: seq<Op>, id: nat)
    requires Inv(w) && id in w.results
    ensures var w' := Run(w, ops); id in w'.results && w'.results[id] == w.results[id]
    ensures var w' := Run(w, ops); id in w'.calls && w'.calls[id] == w.calls[id]
    decreases |ops|
  {
    if ops != [] {
      StepKeepsInv(w, ops[0]);
      FinalIsNotOpen(w, id);
      StepKeepsRow(w, ops[0], id);
      ResultsAreFinal(Step(w, ops[0]), ops[1..], id);
    }
  }

  ghost predicate KeepsRow(w: World, w': World, id: nat) {
    && (id in w.calls ==> id in w'.calls && w'.calls[id] == w.calls[id])
    && (id in w.results ==> id in w'.results && w'.results[id] == w.results[id])
  }

  lemma HearKeepsRow(w: World, of: nat, id: nat)
    requires id !in w.open
    ensures KeepsRow(w, DoHear(w, of), id)
  {
    if of in w.open && w.open[of].phase.Decided? {
      assert KeepsRow(w, OnDecision(w, of, w.open[of].phase.response), id);
    }
  }

  lemma AuthorizeKeepsRow(w: World, of: nat, signing: bool, id: nat)
    ensures KeepsRow(w, DoAuthorize(w, of, signing), id)
  {
    if of in w.open && w.open[of].phase == Resuming {
      var call := w.open[of].call;
      var r := Guardian.AuthorizeApproved(w.guardian, call.tenantId, of, call.requestHash, w.now, signing);
      if r.Ok? {
        assert KeepsRow(w, OnGrant(w.(guardian := r.value.0), of, r.value.1), id);
      }
    }
  }

  /** A step of Guardian, of the clock, or at the start of a transaction writes no row. */
  lemma OtherStepKeepsRow(w: World, op: Op, id: nat)
    requires !op.HearDecision? && !op.GuardianUnavailable? && !op.Invoke? && !op.AuthorizeCall?
    ensures KeepsRow(w, Step(w, op), id)
  {
    hide Guardian.Evaluate, Guardian.AuthorizeApproved, Guardian.Consume, Guardian.ActOnApproval, OnSubmit, MayAsk,
         InvocationOf,
         InFlight;
  }

  /** Only an open transaction can write its own row. */
  lemma StepKeepsRow(w: World, op: Op, id: nat)
    requires id !in w.open
    ensures KeepsRow(w, Step(w, op), id)
  {
    hide DoAuthorize, DoHear, ResultOf, InvocationOf;
    match op {
      case HearDecision(of) => HearKeepsRow(w, of, id);
      case AuthorizeCall(of, signing) => AuthorizeKeepsRow(w, of, signing, id);
      case GuardianUnavailable(of) => assert KeepsRow(w, DoUnavailable(w, of), id);
      case Invoke(of, reply) => assert KeepsRow(w, DoInvoke(w, of, reply), id);
      case _ => OtherStepKeepsRow(w, op, id);
    }
  }

  lemma FinalIsNotOpen(w: World, id: nat)
    requires OpenOk(w) && id in w.results
    ensures id !in w.open
  {
  }

  /** No other committed row carries the key of call `id`. */
  predicate SoleRow(w: World, id: nat)
    requires id in w.calls
  {
    forall j :: j in w.calls && KeyOf(w.calls[j]) == KeyOf(w.calls[id]) ==> j == id
  }

  /**
   Once a call holding an idempotency key has its result, no later submit of that key touches anything. If
   access is granted and no other committed row carries the key, the answer is that stored result for the same
   request and a conflict for any other; and only a rival's row can carry the key too.
   */
  lemma LaterSubmitsReplay(w: World, ops: seq<Op>, id: nat, request: Submit, tool: ToolRow)
    requires Inv(w) && id in w.results && KeyOf(w.calls[id]).Some?
    requires KeyOf(NewCall(request, tool)) == KeyOf(w.calls[id])
    ensures var w' := Run(w, ops);
      && DoBeginExecute(w', request, tool) == w'
      && id in w'.calls
      && (forall j :: j in w'.calls && j != id && KeyOf(w'.calls[j]) == KeyOf(w.calls[id]) ==> Rivals(w', id, j))
      && (ValidateAccess(request, tool) == None && SoleRow(w', id) ==>
            OnSubmit(w', request, tool) ==
              if w.calls[id].requestHash == NewCall(request, tool).requestHash
              then Replayed(id, w.results[id])
              else Conflict)
  {
    hide Run, KeyOf, HoldersOk, LogKeysOk, LogDistinct, LogOk, AskedOk, Guardian.Inv, CommittedOk, TransactionOk,
         ValidateAccess;
    ResultsAreFinal(w, ops, id);
    RunKeepsInv(w, ops);
    var w' := Run(w, ops);
    KeyedRowIsFound(w', id);
    FinalIsNotOpen(w', id);
    OnlyRivalsShareKeys(w', id);
  }

  lemma OnlyRivalsShareKeys(w: World, id: nat)
    requires HoldersOk(w) && id in w.calls && KeyOf(w.calls[id]).Some?
    ensures forall j :: j in w.calls && j != id && KeyOf(w.calls[j]) == KeyOf(w.calls[id]) ==> Rivals(w, id, j)
  {
    forall j | j in w.calls && j != id && KeyOf(w.calls[j]) == KeyOf(w.calls[id]) ensures Rivals(w, id, j) {
      assert HeldKey(w, j) == HeldKey(w, id);
    }
  }

  lemma KeyedRowIsFound(w: World, id: nat)
    requires RowsOk(w) && id in w.calls && KeyOf(w.calls[id]).Some?
    ensures FindCall(w.calls, KeyOf(w.calls[id]).value, 0, w.nextCall).Some?
  {
    assert CommittedOk(w, id, w.calls[id]);
  }

  /** A retried resume job finds a call that has its result closed for good: it never reaches the tool again. */
  lemma RetriedResumesAreRefused(w: World, ops: seq<Op>, id: nat, tenantId: nat, tool: ToolRow, correlationId: nat)
    requires Inv(w) && id in w.results
    ensures DoBeginResume(Run(w, ops), tenantId, id, tool, correlationId) == Run(w, ops)
  {
    ResultsAreFinal(w, ops, id);
    RunKeepsInv(w, ops);
    assert CommittedOk(Run(w, ops), id, Run(w, ops).calls[id]);
  }

  /**
   A request the broker admits is never blocked by Guardian for its role, purpose, consent, agent or key:
   the decision depends on the tool's risk class and approval mode alone, and a READ tool under the
   POLICY mode is the one kind of tool that no admitted request can ever use.
   */
  lemma AdmittedRequestsAreDecidedByRisk(id: nat, request: Submit, tool: ToolRow)
    requires ValidateAccess(request, tool).None? && request.scope.tenantId != 0
    ensures var document := DocumentOf(request, tool);
      var r := Policy.Evaluate(Evaluation(CanonicalRequest(id, document, Sha256(document)), SnapshotOf(tool)));
      && (r.outcome == Policy.Escalate <==> tool.approvalMode == Always || tool.riskClass == Privileged)
      && (r.outcome == Policy.Block <==> tool.riskClass == Read && tool.approvalMode == ByPolicy)
      && r.outcome != Policy.Verify
  {
  }
}
