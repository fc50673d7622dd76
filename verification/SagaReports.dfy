/** Which execution a settlement report names: exactly when it is the reporting flow's own. */
module SagaReports {
  import opened Contracts
  import Money
  import Bank
  import BankSafety
  import opened Saga
  import opened SagaSafety
  import opened Sums

  // ---------------------------------------------------------------- invariant

  /** A debit event stands for this execution, under the execution's own id. */
  predicate DebitSeen(events: seq<Event>, executions: seq<Bank.Execution>, e: Bank.Execution) {
    exists k :: 0 <= k < |events| && DebitOf(events[k], executions, e)
  }

  predicate DebitOf(event: Event, executions: seq<Bank.Execution>, e: Bank.Execution) {
    event.BankDebited? && event.executionId == e.executionId && event.row < |executions| && executions[event.row] == e
  }

  predicate EventPaired(w: World, k: nat)
    requires k < |w.events|
  {
    var executions := w.bank.state.executions;
    match w.events[k]
    case LedgerSucceeded(_) => true
    case BankDebited(x, row) => row < |executions| && executions[row].executionId == x
    case Reported(_, e) => DebitSeen(w.events[..k], executions, e)
  }

  predicate ExecutionSeen(w: World, e: Bank.Execution) {
    e.action == SagaAction(w) ==> DebitSeen(w.events, w.bank.state.executions, e)
  }

  ghost predicate Paired(w: World) {
    && (forall i :: 0 <= i < |w.bank.state.executions| ==> ExecutionSeen(w, w.bank.state.executions[i]))
    && (forall k :: 0 <= k < |w.events| ==> EventPaired(w, k))
  }

  /** The step is not another user's execution of the saga's own transfer. */
  predicate LeavesAlone(w: World, op: Op) {
    op.BankDoes? && op.op.DoExecute? ==> op.op.hash != SagaAction(w)
  }

  // -------------------------------------------------------------------- steps

  lemma SeenStays(events: seq<Event>, events': seq<Event>, executions: seq<Bank.Execution>,
                  executions': seq<Bank.Execution>, e: Bank.Execution)
    requires DebitSeen(events, executions, e) && events <= events' && executions <= executions'
    ensures DebitSeen(events', executions', e)
  {
    var k :| 0 <= k < |events| && DebitOf(events[k], executions, e);
    assert DebitOf(events'[k], executions', e);
  }

  /** At most one event and one execution are new, and the new ones are in order. */
  lemma PairedGrows(w: World, w': World)
    requires Paired(w) && w'.tenantId == w.tenantId && w'.userId == w.userId
    requires w.events <= w'.events && |w'.events| <= |w.events| + 1
    requires w.bank.state.executions <= w'.bank.state.executions
    requires |w'.bank.state.executions| <= |w.bank.state.executions| + 1
    requires |w'.events| > |w.events| ==> EventPaired(w', |w.events|)
    requires |w'.bank.state.executions| > |w.bank.state.executions| ==>
      ExecutionSeen(w', w'.bank.state.executions[|w.bank.state.executions|])
    ensures Paired(w')
  {
    hide DebitSeen;
    var rows, rows' := w.bank.state.executions, w'.bank.state.executions;
    forall i | 0 <= i < |rows'| ensures ExecutionSeen(w', rows'[i]) {
      if i < |rows| {
        assert ExecutionSeen(w, rows[i]);
        if rows[i].action == SagaAction(w) { SeenStays(w.events, w'.events, rows, rows', rows[i]); }
      }
    }
    forall k | 0 <= k < |w'.events| ensures EventPaired(w', k) {
      if k < |w.events| {
        assert EventPaired(w, k);
        assert w'.events[..k] == w.events[..k];
        if w.events[k].Reported? { SeenStays(w.events[..k], w'.events[..k], rows, rows', w.events[k].execution); }
      }
    }
  }

  /** What any bank request does to the executions. */
  lemma ExecutionsGrow(c: Bank.Clocked, op: Bank.Op)
    ensures var s, s' := c.state, Bank.Step(c, op).state;
      || s'.executions == s.executions
      || (&& op.DoExecute? && |s'.executions| == |s.executions| + 1 && s.executions <= s'.executions
          && s'.executions[|s.executions|].action == op.hash
          && s'.executions[|s.executions|].executionId == op.executionId)
  {
  }

  lemma BankExecutesPairs(w: World, callId: nat, executionId: string, p: Preparation, reference: nat)
    requires Paired(w)
    ensures Paired(BankExecutes(w, callId, executionId, p, reference).0)
  {
    hide Bank.Step, Paired, EventPaired, ExecutionSeen;
    var op := ExecuteOp(w, callId, executionId, p, reference);
    ExecutionsGrow(w.bank, op);
    var w' := BankExecutes(w, callId, executionId, p, reference).0;
    StepOfRequest(w.bank, op);
    var n := |w.bank.state.executions|;
    if |w'.bank.state.executions| > n { NewDebit(w, w'); }
    PairedGrows(w, w');
  }

  lemma StepOfRequest(c: Bank.Clocked, op: Bank.Op)
    requires !op.SetBeneficiary? && !op.Tick?
    ensures var r := Bank.Request(c.state, op, c.now);
      Bank.Step(c, op) == if r.Ok? then c.(state := r.value.0) else c
  {
  }

  lemma NewDebit(w: World, w': World)
    requires var n := |w.bank.state.executions|;
      && |w'.bank.state.executions| == n + 1
      && w'.events == w.events + [BankDebited(w'.bank.state.executions[n].executionId, n)]
    ensures EventPaired(w', |w.events|) && ExecutionSeen(w', w'.bank.state.executions[|w.bank.state.executions|])
  {
    var n := |w.bank.state.executions|;
    assert DebitOf(w'.events[|w.events|], w'.bank.state.executions, w'.bank.state.executions[n]);
  }

  /** Nothing that pairing looks at changed. */
  lemma PairedSame(w: World, w': World)
    requires Paired(w) && w'.tenantId == w.tenantId && w'.userId == w.userId
    requires w'.events == w.events && w'.bank.state.executions == w.bank.state.executions
    ensures Paired(w')
  {
    hide Paired, EventPaired, ExecutionSeen;
    PairedGrows(w, w');
  }

  lemma LedgerPairs(w: World, executionId: string, answer: Reply<string>, heard: bool)
    requires Paired(w)
    ensures Paired(LedgerAnswers(w, executionId, answer, heard).0)
  {
    hide Paired, ExecutionSeen;
    PairedGrows(w, LedgerAnswers(w, executionId, answer, heard).0);
  }

  lemma PreparesPairs(w: World, callId: nat)
    requires Paired(w)
    ensures Paired(BankPrepares(w, callId).0)
  {
    hide Paired, EventPaired, ExecutionSeen, Bank.PrepareTransfer;
    ExecutionsGrow(w.bank, PrepareOp(w, callId));
    PairedSame(w, BankPrepares(w, callId).0);
  }

  lemma ResumePairs(w: World, process: nat, answer: Reply<string>, reference: nat, heard: bool)
    requires Paired(w) && process in w.processes && w.processes[process].record.pending.Some?
    ensures Paired(DoResumePending(w, process, answer, reference, heard))
  {
    hide Paired, BankExecutes, BankPrepares, LedgerAnswers;
    var id := w.processes[process].record.pending.value.callId;
    UnparkPairs(w, id, answer, reference, heard);
    PairedSame(w, With(w, process, Process(Raised, w.processes[process].record)));
    if id in w.parked && !answer.Blocked? {
      match w.parked[id] {
        case ParkedPrepare => WithPairs(BankPrepares(Unpark(w, id), id).0, process,
                                        DoResumePending(w, process, answer, reference, heard));
        case ParkedLedger(x) => WithPairs(LedgerAnswers(Unpark(w, id), x, answer, heard).0, process,
                                          DoResumePending(w, process, answer, reference, heard));
        case ParkedBank(x, p) =>
          WithPairs(BankExecutes(Unpark(w, id), id, x, p, reference).0, process,
                    DoResumePending(w, process, answer, reference, heard));
      }
    }
  }

  lemma WithPairs(w: World, process: nat, w': World)
    requires Paired(w) && process in w'.processes && w' == With(w, process, w'.processes[process])
    ensures Paired(w')
  {
    PairedSame(w, w');
  }

  lemma UnparkPairs(w: World, id: nat, answer: Reply<string>, reference: nat, heard: bool)
    requires Paired(w)
    ensures Paired(BankPrepares(Unpark(w, id), id).0)
    ensures forall x :: Paired(LedgerAnswers(Unpark(w, id), x, answer, heard).0)
    ensures forall x, p :: Paired(BankExecutes(Unpark(w, id), id, x, p, reference).0)
  {
    hide BankPrepares, LedgerAnswers, BankExecutes;
    PairedSame(w, Unpark(w, id));
    hide Paired;
    PreparesPairs(Unpark(w, id), id);
    forall x ensures Paired(LedgerAnswers(Unpark(w, id), x, answer, heard).0) {
      LedgerPairs(Unpark(w, id), x, answer, heard);
    }
    forall x, p ensures Paired(BankExecutes(Unpark(w, id), id, x, p, reference).0) {
      BankExecutesPairs(Unpark(w, id), id, x, p, reference);
    }
  }

  lemma CallBankPairs(w: World, executionId: string, p: Preparation, delivery: Delivery)
    requires Paired(w)
    ensures Paired(CallBankPrepare(w, delivery).0) && Paired(CallBankExecute(w, executionId, p, delivery).0)
  {
    hide BankPrepares, BankExecutes;
    var issued := Fresh(w);
    PairedSame(w, issued);
    PairedSame(w, Fresh(w).(parked := w.parked[w.nextCall := ParkedPrepare]));
    PairedSame(w, Fresh(w).(parked := w.parked[w.nextCall := ParkedBank(executionId, p)]));
    hide Paired;
    PreparesPairs(issued, w.nextCall);
    if delivery.Delivers? { BankExecutesPairs(issued, w.nextCall, executionId, p, delivery.reference); }
  }

  lemma SettlePairs(w: World, process: nat, accepted: bool, opening: map<string, Bank.Account>)
    requires Paired(w) && Inv(w, opening) && At(w, process, AtSettle) && w.processes[process].record.bankExecution.Some?
    ensures Paired(DoSettle(w, process, accepted))
  {
    hide BankSafety.Inv, KeysUnique, DebitSeen;
    var w' := DoSettle(w, process, accepted);
    assert ProcessOk(w, w.processes[process]);
    var e := w.processes[process].record.bankExecution.value;
    var i :| 0 <= i < |w.bank.state.executions| && w.bank.state.executions[i] == e;
    assert ExecutionSeen(w, w.bank.state.executions[i]);
    assert w'.events[..|w.events|] == w.events;
    hide Paired;
    PairedGrows(w, w');
  }

  lemma BankDoesPairs(w: World, op: Bank.Op)
    requires Paired(w) && LeavesAlone(w, BankDoes(op))
    ensures Paired(Step(w, BankDoes(op)))
  {
    hide Paired, EventPaired, Bank.Step, DebitSeen, Money.Amount;
    ExecutionsGrow(w.bank, op);
    PairedGrows(w, Step(w, BankDoes(op)));
  }

  lemma StepPairs(w: World, op: Op, opening: map<string, Bank.Account>)
    requires Paired(w) && Inv(w, opening) && LeavesAlone(w, op)
    ensures Paired(Step(w, op))
  {
    hide Inv, Paired, DoResumePending, LedgerAnswers, BankPrepares, BankExecutes, CallBankPrepare, CallBankExecute,
         DoSettle;
    match op {
      case PrepareBank(p, delivery) =>
        CallBankPairs(w, "", Preparation(0, SagaAction(w)), delivery);
        if At(w, p, AtBankPrepare) { WithPairs(CallBankPrepare(w, delivery).0, p, Step(w, op)); }
      case ExecuteLedger(p, answer, heard) =>
        if At(w, p, AtLedgerExecute) {
          LedgerPairs(w, w.processes[p].record.executionId, answer, heard);
          WithPairs(LedgerAnswers(w, w.processes[p].record.executionId, answer, heard).0, p, Step(w, op));
        }
      case ExecuteBank(p, delivery) =>
        if At(w, p, AtBankExecute) && w.processes[p].record.bankPreparation.Some? {
          var r := w.processes[p].record;
          CallBankPairs(w, r.executionId, r.bankPreparation.value, delivery);
          WithPairs(CallBankExecute(w, r.executionId, r.bankPreparation.value, delivery).0, p, Step(w, op));
        }
      case ResumePending(p, answer, reference, heard) =>
        if At(w, p, AtResume) && w.processes[p].record.pending.Some? { ResumePairs(w, p, answer, reference, heard); }
      case Settle(p, accepted) =>
        if At(w, p, AtSettle) && w.processes[p].record.bankExecution.Some? { SettlePairs(w, p, accepted, opening); }
      case WorkerResumes(id, answer, reference) => UnparkPairs(w, id, answer, reference, false);
      case BankDoes(bankOp) => BankDoesPairs(w, bankOp);
      case _ => PairedSame(w, Step(w, op));
    }
  }

  lemma {:induction false} RunPairs(w: World, ops: seq<Op>, opening: map<string, Bank.Account>)
    requires Paired(w) && Inv(w, opening) && forall op :: op in ops ==> LeavesAlone(w, op)
    ensures Paired(Run(w, ops)) && Inv(Run(w, ops), opening)
    decreases |ops|
  {
    hide Inv, Paired, Step;
    if ops != [] {
      StepPairs(w, ops[0], opening);
      StepKeepsInv(w, ops[0], opening);
      SameTenant(w, ops[0]);
      assert forall op :: op in ops[1..] ==> op in ops && LeavesAlone(w, op);
      RunPairs(Step(w, ops[0]), ops[1..], opening);
    }
  }

  lemma SameTenant(w: World, op: Op)
    ensures Step(w, op).tenantId == w.tenantId && Step(w, op).userId == w.userId
  {
    hide Bank.Request, Bank.Step;
  }

  // ---------------------------------------------------------------- theorems

  /**
   As long as nobody else executes the saga's own transfer, a settlement report names its own flow's execution
   exactly when that flow's execution is the one that debited the account before.
   */
  lemma ReportNamesItsFlowExactlyIfItDebited(
    tenantId: nat, userId: nat, opening: map<string, Bank.Account>, beneficiaries: map<string, Bank.Beneficiary>,
    now: int, ops: seq<Op>, k: nat)
    requires BankSafety.Opening(opening)
    requires var w := Saga.Opened(tenantId, userId, opening, beneficiaries, now);
      && (forall op :: op in ops ==> LeavesAlone(w, op))
      && k < |Run(w, ops).events| && Run(w, ops).events[k].Reported?
    ensures var events := Run(Saga.Opened(tenantId, userId, opening, beneficiaries, now), ops).events;
      var x := events[k].executionId;
      events[k].execution.executionId == x <==>
          exists j :: 0 <= j < k && events[j].BankDebited? && events[j].executionId == x
  {
    var first := Saga.Opened(tenantId, userId, opening, beneficiaries, now);
    OpenedOk(tenantId, userId, opening, beneficiaries, now);
    RunPairs(first, ops, opening);
    ReportPairing(Run(first, ops), k, opening);
  }

  lemma ReportPairing(w: World, k: nat, opening: map<string, Bank.Account>)
    requires Paired(w) && Inv(w, opening) && k < |w.events| && w.events[k].Reported?
    ensures var x := w.events[k].executionId;
      w.events[k].execution.executionId == x <==>
          exists j :: 0 <= j < k && w.events[j].BankDebited? && w.events[j].executionId == x
  {
    hide BankOk, AnswersOk, CallsOk, ProcessesOk;
    var x, e := w.events[k].executionId, w.events[k].execution;
    assert EventOk(w, k) && EventPaired(w, k);
    var i :| 0 <= i < k && DebitOf(w.events[..k][i], w.bank.state.executions, e);
    assert w.events[i].BankDebited? && w.events[i].executionId == e.executionId;
    if j :| 0 <= j < k && w.events[j].BankDebited? && w.events[j].executionId == x {
      assert EventOk(w, j) && EventPaired(w, j);
      KnownIsOne(w, w.bank.state.executions[w.events[j].row], e, opening);
    }
  }

  /**
   A flow whose bank execution comes after another flow's debit reports the other's execution: the bank answers
   with the row of the prepared action, whatever execution id it is asked for.
   */
  lemma LaterFlowReportsEarlierExecution(
    w: World, process: nat, e: Bank.Execution, reference: nat, accepted: bool, opening: map<string, Bank.Account>)
    requires Inv(w, opening) && At(w, process, AtBankExecute) && ExecutionKnown(w, e)
    requires var y := w.processes[process].record.executionId;
      forall f :: f in w.bank.state.executions && f.tenantId == w.tenantId ==> f.executionId != y
    ensures var y := w.processes[process].record.executionId;
      var w' := Run(w, [ExecuteBank(process, Delivers(reference, true)), Settle(process, accepted)]);
      w'.events == w.events + [Reported(y, e)] && e.executionId != y
  {
    hide BankOk, AnswersOk, CallsOk, EventsOk, Bank.ExecuteTransfer, BankExecutes, Run;
    assert ProcessOk(w, w.processes[process]);
    var r := w.processes[process].record;
    var p := r.bankPreparation.value;
    BankReplaysAction(w, e, p, r.executionId, reference, opening);
    AnswerIsReplayed(w, e, p, r.executionId, reference);
    var execute, settle := ExecuteBank(process, Delivers(reference, true)), Settle(process, accepted);
    TwoSteps(w, execute, settle);
    var (after, reply) := BankExecutes(Fresh(w), w.nextCall, r.executionId, p, reference);
    assert Step(w, execute) == With(after, process, OnBankResult(r, Succeeded(e)));
    SettleReports(With(after, process, OnBankResult(r, Succeeded(e))), process, accepted);
  }

  lemma SettleReports(w: World, process: nat, accepted: bool)
    requires At(w, process, AtSettle) && w.processes[process].record.bankExecution.Some?
    ensures var r := w.processes[process].record;
      Step(w, Settle(process, accepted)).events == w.events + [Reported(r.executionId, r.bankExecution.value)]
  {
  }

  lemma AnswerIsReplayed(w: World, e: Bank.Execution, p: Preparation, executionId: string, reference: nat)
    requires Bank.ExecuteTransfer(w.bank.state, ScopeOf(w, w.nextCall), p.actionId, p.hash, executionId, reference,
                                  w.bank.now)
      == Ok((w.bank.state, Bank.ExecutionReply(e)))
    ensures var (w', reply) := BankExecutes(Fresh(w), w.nextCall, executionId, p, reference);
      reply == Succeeded(e) && w'.events == w.events
  {
    hide Bank.ExecuteTransfer;
  }

  lemma BankReplaysAction(
    w: World, e: Bank.Execution, p: Preparation, executionId: string, reference: nat,
    opening: map<string, Bank.Account>)
    requires Inv(w, opening) && ExecutionKnown(w, e) && PreparationOk(w, p)
    requires forall f :: f in w.bank.state.executions && f.tenantId == w.tenantId ==> f.executionId != executionId
    ensures var s := w.bank.state;
      && Bank.ExecuteTransfer(s, ScopeOf(w, w.nextCall), p.actionId, p.hash, executionId, reference, w.bank.now)
           == Ok((s, Bank.ExecutionReply(e)))
      && e.executionId != executionId
  {
    hide AnswersOk, CallsOk, ProcessesOk, EventsOk, BankSafety.LedgerOk, BankSafety.LimitsOk, BankSafety.BalancesOk,
         Money.Amount;
    var s := w.bank.state;
    var i :| 0 <= i < |s.executions| && s.executions[i] == e;
    assert BankSafety.ExecutionOk(s, s.executions[i]);
    assert SameKey(s.prepared[e.actionId], s.prepared[p.actionId]);
    assert SameKey(s.prepared[p.actionId], s.prepared[e.actionId]);
    assert e.actionId == p.actionId;
    assert Bank.ExecutionByAction(w.tenantId, p.actionId)(e);
    var k := Bank.First(s.executions, Bank.ExecutionByAction(w.tenantId, p.actionId)).value;
    assert BankSafety.ExecutionOk(s, s.executions[k]);
    assert s.executions[k].actionId == s.executions[i].actionId;
    assert k == i;
  }

  // ----------------------------------------------------------- a run that does it

  const HUNDREDTHS: nat := 12_500_000

  /** The operator's account can pay the transfer, and its beneficiary may receive it. */
  predicate Funded(accounts: map<string, Bank.Account>, beneficiaries: map<string, Bank.Beneficiary>, tenantId: nat,
                   userId: nat) {
    && SOURCE in accounts && BENEFICIARY in beneficiaries
    && var account, beneficiary := accounts[SOURCE], beneficiaries[BENEFICIARY];
       && account.tenantId == tenantId && account.userId == userId && account.active
       && account.perTransferLimit >= HUNDREDTHS && account.dailyLimit >= HUNDREDTHS && account.available >= HUNDREDTHS
       && beneficiary.tenantId == tenantId && beneficiary.verified && beneficiary.active
  }

  lemma PreparesFirst(accounts: map<string, Bank.Account>, beneficiaries: map<string, Bank.Beneficiary>, w: World)
    requires Funded(accounts, beneficiaries, w.tenantId, w.userId)
    requires w.bank.state == Bank.Opened(accounts, beneficiaries)
    ensures var row := Bank.Prepared(SagaAction(w), Bank.Ready, w.bank.now + Bank.PREPARATION_LIFETIME);
      Bank.Request(w.bank.state, PrepareOp(w, w.nextCall), w.bank.now) ==
        Ok((w.bank.state.(prepared := [row]), Bank.PreparedReply(0, row)))
  {
    TransferAmount(w);
    var row := Bank.Prepared(SagaAction(w), Bank.Ready, w.bank.now + Bank.PREPARATION_LIFETIME);
    assert Money.Amount(AMOUNT) == Some(HUNDREDTHS);
    assert [] + [row] == [row];
  }

  /** The first execution settles the one preparation. */
  lemma ExecutesFirst(w: World, executionId: string, reference: nat, callId: nat)
    requires var s := w.bank.state;
      && Funded(s.accounts, s.beneficiaries, w.tenantId, w.userId) && s.executions == []
      && |s.prepared| == 1 && s.prepared[0].action == SagaAction(w) && Bank.Live(s.prepared[0], w.bank.now)
    ensures var s := w.bank.state;
      var scope := ScopeOf(w, callId);
      Bank.ExecuteTransfer(s, scope, 0, SagaAction(w), executionId, reference, w.bank.now) ==
        Ok(Bank.Settle(s, scope, 0, executionId, reference))
  {
    hide Money.Amount;
    TransferAmount(w);
    var s := w.bank.state;
    OnlyPending(s, w.tenantId, w.bank.now);
    assert Bank.InScope(s, ScopeOf(w, callId), SOURCE) && Bank.Payable(s, ScopeOf(w, callId), BENEFICIARY);
    assert Bank.HasCapacity(s, SOURCE, HUNDREDTHS, w.bank.now, Some(0));
  }

  lemma OnlyPending(s: Bank.State, tenantId: nat, now: int)
    requires |s.prepared| == 1
    ensures Bank.PendingTotal(s, tenantId, SOURCE, now, Some(0)) == 0
  {
    var weight := Bank.Pending(tenantId, SOURCE, now);
    assert s.prepared == [] + [s.prepared[0]];
    SumAppend([], s.prepared[0], weight);
    assert Sum([], weight) == 0;
  }

  lemma PreparesAgain(w: World)
    requires var s := w.bank.state; |s.prepared| == 1 && s.prepared[0].action == SagaAction(w)
    ensures Bank.Request(w.bank.state, PrepareOp(w, w.nextCall), w.bank.now) ==
      Ok((w.bank.state, Bank.PreparedReply(0, w.bank.state.prepared[0])))
  {
    TransferAmount(w);
    assert Money.Amount(AMOUNT) == Some(HUNDREDTHS);
    assert Bank.PreparedByKey(w.tenantId, PREPARE_KEY)(w.bank.state.prepared[0]);
  }

  lemma ExecuteBankMoves(w: World, process: nat, reference: nat)
    requires At(w, process, AtBankExecute)
    requires w.processes[process].record.bankPreparation == Some(Preparation(0, SagaAction(w)))
    requires |w.bank.state.prepared| == 1 && SOURCE in w.bank.state.accounts
    requires w.bank.state.prepared[0].action == SagaAction(w)
    requires var x := w.processes[process].record.executionId;
      Bank.ExecuteTransfer(w.bank.state, ScopeOf(w, w.nextCall), 0, SagaAction(w), x, reference, w.bank.now)
        == Ok(Bank.Settle(w.bank.state, ScopeOf(w, w.nextCall), 0, x, reference))
    ensures var w' := Step(w, ExecuteBank(process, Delivers(reference, true)));
      var x := w.processes[process].record.executionId;
      && w'.bank.state == Bank.Settle(w.bank.state, ScopeOf(w, w.nextCall), 0, x, reference).0
      && w'.tenantId == w.tenantId && w'.userId == w.userId
      && forall p :: p != process ==> (p in w'.processes <==> p in w.processes)
  {
    hide Bank.ExecuteTransfer, Money.Amount, SagaAction;
  }

  /** Both flows stand at this point, each under its own execution id, both with the one preparation if any. */
  predicate BothAt(w: World, point: Point, x: string, y: string) {
    && At(w, 1, point) && At(w, 2, point)
    && w.processes[1].record.executionId == x && w.processes[2].record.executionId == y
    && (point in {AtLedgerPrepare, AtLedgerExecute, AtBankExecute} ==>
          forall p :: p in {1, 2} ==> w.processes[p].record.bankPreparation == Some(Preparation(0, SagaAction(w))))
  }

  /** The bank holds the one preparation, still live, and no execution. */
  predicate JustPrepared(w: World, accounts: map<string, Bank.Account>, beneficiaries: map<string, Bank.Beneficiary>) {
    var s := w.bank.state;
    && s.accounts == accounts && s.beneficiaries == beneficiaries && s.executions == []
    && |s.prepared| == 1 && s.prepared[0].action == SagaAction(w) && Bank.Live(s.prepared[0], w.bank.now)
  }

  /** A heard bank preparation: the process goes on with what the bank answered. */
  lemma PrepareBankMoves(w: World, process: nat, id: nat, row: Bank.Prepared, s: Bank.State)
    requires At(w, process, AtBankPrepare)
    requires Bank.Request(w.bank.state, PrepareOp(w, w.nextCall), w.bank.now) == Ok((s, Bank.PreparedReply(id, row)))
    ensures var w' := Step(w, PrepareBank(process, Delivers(0, true)));
      && w'.processes ==
           w.processes[process := OnBankPrepare(w.processes[process].record, Succeeded(Preparation(id, row.action)))]
      && w'.bank == w.bank.(state := s) && w'.tenantId == w.tenantId && w'.userId == w.userId
  {
    hide Bank.Request, Bank.Step;
    StepOfRequest(w.bank, PrepareOp(w, w.nextCall));
  }

  /** Two flows begin, and both their preparations reach the bank. */
  lemma BothPrepare(w: World, x: string, y: string)
    requires w.processes == map[] && Funded(w.bank.state.accounts, w.bank.state.beneficiaries, w.tenantId, w.userId)
    requires w.bank.state == Bank.Opened(w.bank.state.accounts, w.bank.state.beneficiaries)
    ensures var w' := Run(w, [Start(1, x), Start(2, y), PrepareBank(1, Delivers(0, true)),
                              PrepareBank(2, Delivers(0, true))]);
      && BothAt(w', AtLedgerPrepare, x, y) && JustPrepared(w', w.bank.state.accounts, w.bank.state.beneficiaries)
      && w'.tenantId == w.tenantId && w'.userId == w.userId
  {
    hide Run, Bank.Request, Money.Amount, Bank.Step;
    var first, second := PrepareBank(1, Delivers(0, true)), PrepareBank(2, Delivers(0, true));
    FourSteps(w, Start(1, x), Start(2, y), first, second);
    var w2 := Step(Step(w, Start(1, x)), Start(2, y));
    var row := Bank.Prepared(SagaAction(w), Bank.Ready, w.bank.now + Bank.PREPARATION_LIFETIME);
    PreparesFirst(w.bank.state.accounts, w.bank.state.beneficiaries, w2);
    PrepareBankMoves(w2, 1, 0, row, w.bank.state.(prepared := [row]));
    var w3 := Step(w2, first);
    PreparesAgain(w3);
    PrepareBankMoves(w3, 2, 0, row, w3.bank.state);
  }

  /** The ledger answers both flows; the bank does not move. */
  lemma BothLedger(w: World, x: string, y: string)
    requires BothAt(w, AtLedgerPrepare, x, y)
    ensures var w' := Run(w, [PrepareLedger(1, Succeeded("")), PrepareLedger(2, Succeeded("")),
                              ExecuteLedger(1, Succeeded(""), true), ExecuteLedger(2, Succeeded(""), true)]);
      BothAt(w', AtBankExecute, x, y) && w'.bank == w.bank && w'.tenantId == w.tenantId && w'.userId == w.userId
  {
    hide Run, Money.Amount;
    FourSteps(w, PrepareLedger(1, Succeeded("")), PrepareLedger(2, Succeeded("")),
              ExecuteLedger(1, Succeeded(""), true), ExecuteLedger(2, Succeeded(""), true));
  }

  /** The first execution to arrive debits under its own id; the other flow still waits to send its own. */
  lemma FirstDebits(w: World, x: string, y: string, reference: nat)
    requires BothAt(w, AtBankExecute, x, y) && JustPrepared(w, w.bank.state.accounts, w.bank.state.beneficiaries)
    requires Funded(w.bank.state.accounts, w.bank.state.beneficiaries, w.tenantId, w.userId)
    ensures var w' := Step(w, ExecuteBank(1, Delivers(reference, true)));
      && At(w', 2, AtBankExecute)
      && w'.processes[2] == w.processes[2]
      && w'.tenantId == w.tenantId
      && w'.userId == w.userId
      && |w'.bank.state.executions| == 1 && w'.bank.state.executions[0].executionId == x
      && w'.bank.state.executions[0].action == SagaAction(w)
  {
    hide Bank.ExecuteTransfer, Money.Amount;
    ExecutesFirst(w, x, reference, w.nextCall);
    ExecuteBankMoves(w, 1, reference);
    OthersStay(w, 1, reference);
  }

  lemma OthersStay(w: World, process: nat, reference: nat)
    requires At(w, process, AtBankExecute)
    ensures var w' := Step(w, ExecuteBank(process, Delivers(reference, true)));
      forall p :: p != process && p in w.processes ==> p in w'.processes && w'.processes[p] == w.processes[p]
  {
    hide Bank.Request, Bank.Step;
  }

  /** Two flows side by side: at every call, both have asked before either goes on. */
  function SideBySide(x: string, y: string, first: nat, second: nat): seq<Op> {
    [Start(1, x), Start(2, y), PrepareBank(1, Delivers(0, true)), PrepareBank(2, Delivers(0, true))]
      + ([PrepareLedger(1, Succeeded("")), PrepareLedger(2, Succeeded("")),
          ExecuteLedger(1, Succeeded(""), true), ExecuteLedger(2, Succeeded(""), true)]
         + ([ExecuteBank(1, Delivers(first, true))] + [ExecuteBank(2, Delivers(second, true)), Settle(2, true)]))
  }

  /** It happens in every funded bank: the second report pairs its own id with the first flow's execution. */
  lemma MispairedReportExists(
    tenantId: nat, userId: nat, opening: map<string, Bank.Account>, beneficiaries: map<string, Bank.Beneficiary>,
    now: int, x: string, y: string, first: nat, second: nat)
    requires BankSafety.Opening(opening) && Funded(opening, beneficiaries, tenantId, userId) && x != y
    ensures var w := Saga.Opened(tenantId, userId, opening, beneficiaries, now);
      var events := Run(w, SideBySide(x, y, first, second)).events;
      && events != [] && events[|events| - 1].Reported?
      && events[|events| - 1].executionId == y && events[|events| - 1].execution.executionId == x
  {
    hide Run, Step, Bank.ExecuteTransfer, Bank.Request, Money.Amount, Inv;
    var w := Saga.Opened(tenantId, userId, opening, beneficiaries, now);
    var prepare := [Start(1, x), Start(2, y), PrepareBank(1, Delivers(0, true)), PrepareBank(2, Delivers(0, true))];
    var ledger := [PrepareLedger(1, Succeeded("")), PrepareLedger(2, Succeeded("")),
                   ExecuteLedger(1, Succeeded(""), true), ExecuteLedger(2, Succeeded(""), true)];
    var debit := [ExecuteBank(1, Delivers(first, true))];
    var report := [ExecuteBank(2, Delivers(second, true)), Settle(2, true)];
    RunAppend(w, prepare, ledger + (debit + report));
    BothPrepare(w, x, y);
    var w1 := Run(w, prepare);
    RunAppend(w1, ledger, debit + report);
    BothLedger(w1, x, y);
    var w2 := Run(w1, ledger);
    RunAppend(w2, debit, report);
    LastStep(w2, debit[0]);
    FirstDebits(w2, x, y, first);
    var w3 := Run(w2, debit);
    OpenedOk(tenantId, userId, opening, beneficiaries, now);
    RunKeepsInv(w, prepare, opening);
    RunKeepsInv(w1, ledger, opening);
    RunKeepsInv(w2, debit, opening);
    LaterFlowReportsEarlierExecution(w3, 2, w3.bank.state.executions[0], second, true, opening);
  }

  lemma LastStep(w: World, op: Op)
    ensures Run(w, [op]) == Step(w, op)
  {
    hide Step;
    assert [op][1..] == [] && Run(Step(w, op), []) == Step(w, op);
  }
}
