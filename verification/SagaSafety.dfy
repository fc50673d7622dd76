/** Ledger before bank, and at most one debit, over all runs of the disbursement saga. */
module SagaSafety {
  import opened Contracts
  import Money
  import Bank
  import BankSafety
  import opened Saga

  // -------------------------------------------------------------- the bank

  /** Prepared actions are never rewritten and executions never erased. */
  ghost predicate BankExtends(s: Bank.State, s': Bank.State) {
    && |s.prepared| <= |s'.prepared|
    && (forall i: nat :: i < |s.prepared| ==> s'.prepared[i].action == s.prepared[i].action)
    && s.executions <= s'.executions
  }

  predicate SameKey(p: Bank.Prepared, q: Bank.Prepared) {
    p.action.tenantId == q.action.tenantId && p.action.key == q.action.key
  }

  /** A tenant's preparation key names one prepared action. */
  ghost predicate KeysUnique(s: Bank.State) {
    forall i, j :: 0 <= i < j < |s.prepared| ==> !SameKey(s.prepared[i], s.prepared[j])
  }

  ghost predicate BankMoves(s: Bank.State, s': Bank.State) {
    BankExtends(s, s') && (KeysUnique(s) ==> KeysUnique(s'))
  }

  lemma SameActionsMove(s: Bank.State, s': Bank.State)
    requires |s.prepared| == |s'.prepared| && s.executions <= s'.executions
    requires forall i: nat :: i < |s.prepared| ==> s'.prepared[i].action == s.prepared[i].action
    ensures BankMoves(s, s')
  {
    if KeysUnique(s) {
      forall i, j | 0 <= i < j < |s'.prepared| ensures !SameKey(s'.prepared[i], s'.prepared[j]) {
        assert !SameKey(s.prepared[i], s.prepared[j]);
      }
    }
  }

  lemma PrepareMoves(
    s: Bank.State, scope: Bank.RuntimeScope, source: string, beneficiary: string, value: Money.Decimal,
    currency: string, rail: string, key: string, now: int)
    ensures var r := Bank.PrepareTransfer(s, scope, source, beneficiary, value, currency, rail, key, now);
      r.Ok? ==> BankMoves(s, r.value.0)
  {
    var r := Bank.PrepareTransfer(s, scope, source, beneficiary, value, currency, rail, key, now);
    if r.Ok? {
      var s' := r.value.0;
      forall i: nat | i < |s.prepared| && |s'.prepared| > |s.prepared|
        ensures !SameKey(s.prepared[i], s'.prepared[|s.prepared|])
      {
        assert s.prepared[i] in s.prepared && !Bank.PreparedByKey(scope.tenantId, key)(s.prepared[i]);
      }
    }
  }

  lemma BankStepMoves(c: Bank.Clocked, op: Bank.Op)
    ensures BankMoves(c.state, Bank.Step(c, op).state)
  {
    var s, s' := c.state, Bank.Step(c, op).state;
    match op {
      case DoPrepare(scope, source, beneficiary, value, currency, rail, key) =>
        PrepareMoves(s, scope, source, beneficiary, value, currency, rail, key, c.now);
      case _ => SameActionsMove(s, s');
    }
  }

  // ------------------------------------------------------------- invariant

  function SagaAction(w: World): Bank.TransferHash {
    var amount := Money.Amount(AMOUNT);
    Bank.TransferHash(w.tenantId, w.userId, SOURCE, BENEFICIARY, if amount.Some? then amount.value else 0,
                      "INR", "DEMO_BANK_RAIL", PURPOSE, PREPARE_KEY)
  }

  /** The preparation is a row of the bank, and the row is the saga's transfer. */
  predicate PreparationOk(w: World, p: Preparation) {
    && p.hash == SagaAction(w)
    && p.actionId < |w.bank.state.prepared| && w.bank.state.prepared[p.actionId].action == p.hash
  }

  predicate ExecutionKnown(w: World, e: Bank.Execution) {
    e in w.bank.state.executions && e.action == SagaAction(w)
  }

  predicate Ledgered(events: seq<Event>, executionId: string) {
    LedgerSucceeded(executionId) in events
  }

  predicate PreparedRecord(w: World, r: Record) {
    r.bankPreparation.Some? && PreparationOk(w, r.bankPreparation.value)
  }

  /** A waiting call is the one this record's flow issued. */
  predicate PendingOk(w: World, r: Record) {
    r.pending.Some? ==>
      && PreparedRecord(w, r)
      && var id := r.pending.value.callId;
         && id < w.nextCall
         && (r.pending.value.kind == LedgerCall && id in w.parked ==> w.parked[id] == ParkedLedger(r.executionId))
         && (r.pending.value.kind == BankCall ==> Ledgered(w.events, r.executionId))
         && (r.pending.value.kind == BankCall && id in w.parked ==>
               w.parked[id] == ParkedBank(r.executionId, r.bankPreparation.value))
  }

  predicate ProcessOk(w: World, p: Process) {
    && PendingOk(w, p.record)
    && (p.point == AtBankPrepare ==> p.record.pending.None?)
    && (p.point in {AtLedgerPrepare, AtLedgerExecute, AtBankExecute, AtSettle} ==> PreparedRecord(w, p.record))
    && (p.point in {AtBankExecute, AtSettle} ==> Ledgered(w.events, p.record.executionId))
    && (p.point == AtSettle ==> p.record.bankExecution.Some? && ExecutionKnown(w, p.record.bankExecution.value))
  }

  predicate ParkedOk(w: World, id: nat, call: Parked) {
    && id < w.nextCall
    && (call.ParkedBank? ==> Ledgered(w.events, call.executionId) && PreparationOk(w, call.preparation))
  }

  /** A debit or a report is preceded by its ledger execution, and names a row of the saga's transfer. */
  predicate EventOk(w: World, k: nat)
    requires k < |w.events|
  {
    match w.events[k]
    case LedgerSucceeded(_) => true
    case BankDebited(x, row) =>
      && Ledgered(w.events[..k], x)
      && row < |w.bank.state.executions| && w.bank.state.executions[row].action == SagaAction(w)
    case Reported(x, e) => Ledgered(w.events[..k], x) && ExecutionKnown(w, e)
  }

  ghost predicate AnswersOk(w: World) {
    && (forall p :: p in w.prepares ==> PreparationOk(w, p))
    && (forall e :: e in w.executes ==> ExecutionKnown(w, e))
  }

  ghost predicate CallsOk(w: World) {
    forall id :: id in w.parked ==> ParkedOk(w, id, w.parked[id])
  }

  ghost predicate ProcessesOk(w: World) {
    && (forall p :: p in w.processes ==> ProcessOk(w, w.processes[p]))
    && (w.checkpoint.Some? ==> PendingOk(w, w.checkpoint.value))
  }

  ghost predicate EventsOk(w: World) {
    && (forall k :: 0 <= k < |w.events| ==> EventOk(w, k))
    && (forall i, j :: 0 <= i < j < |w.events| && w.events[i].BankDebited? && w.events[j].BankDebited? ==>
          w.events[i].row != w.events[j].row)
  }

  ghost predicate BankOk(w: World, opening: map<string, Bank.Account>) {
    BankSafety.Inv(w.bank.state, w.bank.now, opening) && KeysUnique(w.bank.state)
  }

  ghost predicate Inv(w: World, opening: map<string, Bank.Account>) {
    BankOk(w, opening) && AnswersOk(w) && CallsOk(w) && ProcessesOk(w) && EventsOk(w)
  }

  // -------------------------------------------------------------- frames

  /** What any step may do besides writing one process: grow the bank and the event log, use up call ids. */
  ghost predicate Grows(w: World, w': World) {
    && w'.tenantId == w.tenantId && w'.userId == w.userId
    && BankExtends(w.bank.state, w'.bank.state)
    && w.nextCall <= w'.nextCall && w.events <= w'.events
    && (forall id :: id in w'.parked && id < w.nextCall ==> id in w.parked && w'.parked[id] == w.parked[id])
  }

  lemma GrowsKeeps(w: World, w': World)
    requires Grows(w, w')
    ensures forall p :: PreparationOk(w, p) ==> PreparationOk(w', p)
    ensures forall e :: ExecutionKnown(w, e) ==> ExecutionKnown(w', e)
    ensures forall r :: PendingOk(w, r) ==> PendingOk(w', r)
    ensures forall p :: ProcessOk(w, p) ==> ProcessOk(w', p)
  {
  }

  lemma EventsFrame(w: World, w': World)
    requires EventsOk(w) && Grows(w, w') && w'.events == w.events
    ensures EventsOk(w')
  {
    forall k | 0 <= k < |w'.events| ensures EventOk(w', k) {
      assert EventOk(w, k);
    }
  }

  lemma ProcessesFrame(w: World, w': World)
    requires ProcessesOk(w) && Grows(w, w') && w'.checkpoint == w.checkpoint
    requires forall p :: p in w'.processes ==>
        (p in w.processes && w'.processes[p] == w.processes[p]) || ProcessOk(w', w'.processes[p])
    ensures ProcessesOk(w')
  {
    GrowsKeeps(w, w');
    forall p | p in w'.processes ensures ProcessOk(w', w'.processes[p]) {
      if p in w.processes && w'.processes[p] == w.processes[p] { assert ProcessOk(w, w.processes[p]); }
    }
  }

  lemma CallsFrame(w: World, w': World)
    requires CallsOk(w) && Grows(w, w')
    requires forall id :: id in w'.parked && id >= w.nextCall ==> ParkedOk(w', id, w'.parked[id])
    ensures CallsOk(w')
  {
    GrowsKeeps(w, w');
    forall id | id in w'.parked ensures ParkedOk(w', id, w'.parked[id]) {
      if id < w.nextCall { assert ParkedOk(w, id, w.parked[id]); }
    }
  }

  /** A process takes its next state; nothing else moves. */
  lemma WithKeepsInv(w: World, process: nat, p: Process, opening: map<string, Bank.Account>)
    requires Inv(w, opening) && ProcessOk(w, p)
    ensures Inv(With(w, process, p), opening)
  {
    var w' := With(w, process, p);
    GrowsKeeps(w, w');
    ProcessesFrame(w, w');
    EventsFrame(w, w');
  }

  // ------------------------------------------------------- calls to the bank

  /** What an accepted preparation answers: the row of this key, which names this very action. */
  lemma PrepareAnswers(w: World, callId: nat)
    ensures var r := Bank.Request(w.bank.state, PrepareOp(w, callId), w.bank.now);
      r.Ok? && r.value.1.PreparedReply? ==>
        PreparationOk(w.(bank := Bank.Step(w.bank, PrepareOp(w, callId))),
                      Preparation(r.value.1.actionId, r.value.1.prepared.action))
  {
  }

  lemma BankPreparesOk(w: World, callId: nat, opening: map<string, Bank.Account>)
    requires Inv(w, opening)
    ensures var (w', reply) := BankPrepares(w, callId);
      Inv(w', opening) && Grows(w, w') && w'.processes == w.processes
      && (reply.Succeeded? ==> PreparationOk(w', reply.projection)) && !reply.Blocked?
  {
    hide BankSafety.Inv, KeysUnique, Bank.PrepareTransfer, Bank.First;
    var (w', reply) := BankPrepares(w, callId);
    if reply.Succeeded? {
      BankSafety.StepKeepsInv(w.bank, PrepareOp(w, callId), opening);
      BankStepMoves(w.bank, PrepareOp(w, callId));
      PrepareAnswers(w, callId);
      BankQuiet(w, w', opening);
    }
  }

  /** The bank moved and answered; no event was logged. */
  lemma BankQuiet(w: World, w': World, opening: map<string, Bank.Account>)
    requires Inv(w, opening) && BankOk(w', opening)
    requires BankExtends(w.bank.state, w'.bank.state)
    requires w' == w.(bank := w'.bank, prepares := w'.prepares, executes := w'.executes)
    requires forall p :: p in w'.prepares ==> p in w.prepares || PreparationOk(w', p)
    requires forall e :: e in w'.executes ==> e in w.executes || ExecutionKnown(w', e)
    ensures Inv(w', opening)
  {
    GrowsKeeps(w, w');
    ProcessesFrame(w, w');
    CallsFrame(w, w');
    EventsFrame(w, w');
  }

  /** What an accepted execution did: replayed a row, or appended exactly one for this action. */
  lemma ExecuteAppends(
    s: Bank.State, scope: Bank.RuntimeScope, actionId: nat, hash: Bank.TransferHash, executionId: string,
    reference: nat, now: int)
    ensures var r := Bank.ExecuteTransfer(s, scope, actionId, hash, executionId, reference, now);
      r.Ok? ==>
        && r.value.1.ExecutionReply? && r.value.1.execution.action == hash
        && r.value.1.execution in r.value.0.executions
        && (r.value.0.executions == s.executions || r.value.0.executions == s.executions + [r.value.1.execution])
  {
  }

  /** The bank executed for the saga; the debit event is not logged yet. */
  function Unlogged(w: World, callId: nat, executionId: string, p: Preparation, reference: nat): World {
    BankExecutes(w, callId, executionId, p, reference).0.(events := w.events)
  }

  lemma UnloggedKeepsInv(
    w: World, callId: nat, executionId: string, p: Preparation, reference: nat, opening: map<string, Bank.Account>)
    requires Inv(w, opening) && PreparationOk(w, p)
    ensures var (w', reply) := BankExecutes(w, callId, executionId, p, reference);
      Inv(Unlogged(w, callId, executionId, p, reference), opening) && Grows(w,
          Unlogged(w, callId, executionId, p, reference))
      && (reply.Succeeded? ==> ExecutionKnown(w', reply.projection)) && !reply.Blocked?
  {
    hide BankSafety.Inv, KeysUnique, Bank.ExecuteTransfer, Bank.First;
    var op := ExecuteOp(w, callId, executionId, p, reference);
    BankSafety.StepKeepsInv(w.bank, op, opening);
    BankStepMoves(w.bank, op);
    ExecuteAppends(w.bank.state, op.scope, p.actionId, p.hash, executionId, reference, w.bank.now);
    BankQuiet(w, Unlogged(w, callId, executionId, p, reference), opening);
  }

  lemma BankExecutesOk(
    w: World, callId: nat, executionId: string, p: Preparation, reference: nat, opening: map<string, Bank.Account>)
    requires Inv(w, opening) && PreparationOk(w, p) && Ledgered(w.events, executionId)
    ensures var (w', reply) := BankExecutes(w, callId, executionId, p, reference);
      Inv(w', opening) && Grows(w, w') && w'.processes == w.processes && w'.parked == w.parked
      && (reply.Succeeded? ==> ExecutionKnown(w', reply.projection)) && !reply.Blocked?
  {
    hide BankSafety.Inv, KeysUnique, Bank.ExecuteTransfer, Bank.First;
    var (w', reply) := BankExecutes(w, callId, executionId, p, reference);
    var op := ExecuteOp(w, callId, executionId, p, reference);
    UnloggedKeepsInv(w, callId, executionId, p, reference, opening);
    ExecuteAppends(w.bank.state, op.scope, p.actionId, p.hash, executionId, reference, w.bank.now);
    if w'.events != w.events {
      EarlierRows(w);
      DebitKeepsInv(Unlogged(w, callId, executionId, p, reference), executionId, |w.bank.state.executions|, opening);
    }
  }

  lemma EarlierRows(w: World)
    requires EventsOk(w)
    ensures forall k :: 0 <= k < |w.events| && w.events[k].BankDebited? ==> w.events[k].row < |w.bank.state.executions|
  {
    forall k | 0 <= k < |w.events| && w.events[k].BankDebited? ensures w.events[k].row < |w.bank.state.executions| {
      assert EventOk(w, k);
    }
  }

  lemma DebitKeepsInv(w: World, executionId: string, row: nat, opening: map<string, Bank.Account>)
    requires Inv(w, opening) && Ledgered(w.events, executionId)
    requires row < |w.bank.state.executions| && w.bank.state.executions[row].action == SagaAction(w)
    requires forall k :: 0 <= k < |w.events| && w.events[k].BankDebited? ==> w.events[k].row < row
    ensures Inv(w.(events := w.events + [BankDebited(executionId, row)]), opening)
  {
    hide BankSafety.Inv, KeysUnique, AnswersOk, CallsOk, ProcessesOk;
    LogKeepsInv(w, BankDebited(executionId, row), opening);
  }

  /** An event is appended whose own condition holds. */
  lemma LogKeepsInv(w: World, event: Event, opening: map<string, Bank.Account>)
    requires Inv(w, opening)
    requires EventOk(w.(events := w.events + [event]), |w.events|)
    requires event.BankDebited? ==> forall k :: 0 <= k < |w.events| && w.events[k].BankDebited? ==>
        w.events[k].row != event.row
    ensures Inv(w.(events := w.events + [event]), opening)
  {
    hide BankSafety.Inv, KeysUnique;
    var w' := w.(events := w.events + [event]);
    GrowsKeeps(w, w');
    ProcessesFrame(w, w');
    CallsFrame(w, w');
    forall k | 0 <= k < |w'.events| ensures EventOk(w', k) {
      assert w'.events[..k] == if k < |w.events| then w.events[..k] else w.events;
      if k < |w.events| { assert EventOk(w, k); }
    }
  }

  // ----------------------------------------------------------------- steps

  lemma FreshKeepsInv(w: World, parked: map<nat, Parked>, opening: map<string, Bank.Account>)
    requires Inv(w, opening)
    requires forall id :: id in parked ==>
      if id == w.nextCall then ParkedOk(Fresh(w), id, parked[id]) else id in w.parked && parked[id] == w.parked[id]
    ensures Inv(Fresh(w).(parked := parked), opening) && Grows(w, Fresh(w).(parked := parked))
  {
    var w' := Fresh(w).(parked := parked);
    CallsBelow(w);
    GrowsKeeps(w, w');
    ProcessesFrame(w, w');
    CallsFrame(w, w');
    EventsFrame(w, w');
  }

  lemma CallsBelow(w: World)
    requires CallsOk(w)
    ensures forall id :: id in w.parked ==> id < w.nextCall
  {
    forall id | id in w.parked ensures id < w.nextCall {
      assert ParkedOk(w, id, w.parked[id]);
    }
  }

  lemma UnparkKeepsInv(w: World, id: nat, opening: map<string, Bank.Account>)
    requires Inv(w, opening)
    ensures Inv(Unpark(w, id), opening) && Grows(w, Unpark(w, id))
  {
    var w' := Unpark(w, id);
    CallsBelow(w);
    GrowsKeeps(w, w');
    ProcessesFrame(w, w');
    CallsFrame(w, w');
    EventsFrame(w, w');
  }

  /** What a saga ledger call may come back with. */
  predicate LedgerReplyOk(w: World, executionId: string, reply: Reply<string>) {
    match reply
    case Failed => true
    case Blocked(id) => id < w.nextCall && (id in w.parked ==> w.parked[id] == ParkedLedger(executionId))
    case Succeeded(_) => Ledgered(w.events, executionId)
  }

  lemma LedgerAnswersOk(w: World, executionId: string, answer: Reply<string>, heard: bool, opening: map<string,
                        Bank.Account>)
    requires Inv(w, opening)
    ensures var (w', reply) := LedgerAnswers(w, executionId, answer, heard);
      Inv(w', opening) && Grows(w, w') && w'.processes == w.processes
      && LedgerReplyOk(w', executionId, reply)
  {
    hide BankSafety.Inv, KeysUnique;
    match answer {
      case Failed =>
      case Blocked(_) => FreshKeepsInv(w, w.parked[w.nextCall := ParkedLedger(executionId)], opening);
      case Succeeded(_) => LogKeepsInv(w, LedgerSucceeded(executionId), opening);
    }
  }

  lemma CallBankPrepareOk(w: World, delivery: Delivery, opening: map<string, Bank.Account>)
    requires Inv(w, opening)
    ensures var (w', reply) := CallBankPrepare(w, delivery);
      Inv(w', opening) && Grows(w, w') && w'.processes == w.processes
      && (reply.Succeeded? ==> PreparationOk(w', reply.projection))
  {
    hide BankSafety.Inv, KeysUnique, BankPrepares, BankOk, EventsOk, ProcessesOk;
    match delivery {
      case PolicyBlocks =>
        CallsBelow(w);
        FreshKeepsInv(w, w.parked, opening);
      case Parks => FreshKeepsInv(w, w.parked[w.nextCall := ParkedPrepare], opening);
      case Delivers(_, _) =>
        FreshKeepsInv(w, w.parked, opening);
        BankPreparesOk(Fresh(w), w.nextCall, opening);
      case _ =>
    }
  }

  lemma PrepareBankKeepsInv(w: World, process: nat, delivery: Delivery, opening: map<string, Bank.Account>)
    requires Inv(w, opening)
    ensures Inv(Step(w, PrepareBank(process, delivery)), opening)
  {
    hide BankOk, EventsOk, AnswersOk, CallsOk, CallBankPrepare;
    if At(w, process, AtBankPrepare) {
      assert ProcessOk(w, w.processes[process]);
      var (w', reply) := CallBankPrepare(w, delivery);
      CallBankPrepareOk(w, delivery, opening);
      GrowsKeeps(w, w');
      WithKeepsInv(w', process, OnBankPrepare(w.processes[process].record, reply), opening);
    }
  }

  /** What a saga bank call may come back with. */
  predicate BankReplyOk(w: World, r: Record, reply: Reply<Bank.Execution>) {
    match reply
    case Failed => true
    case Blocked(id) =>
      && id < w.nextCall
      && (id in w.parked ==>
            r.bankPreparation.Some? && w.parked[id] == ParkedBank(r.executionId, r.bankPreparation.value))
    case Succeeded(e) => ExecutionKnown(w, e)
  }

  lemma OnBankResultOk(w: World, r: Record, reply: Reply<Bank.Execution>)
    requires PreparedRecord(w, r) && Ledgered(w.events, r.executionId) && BankReplyOk(w, r, reply) && PendingOk(w, r)
    ensures ProcessOk(w, OnBankResult(r, reply))
    ensures ProcessOk(w, OnBankResume(r, reply))
  {
  }

  lemma OnLedgerResultOk(w: World, r: Record, reply: Reply<string>)
    requires PreparedRecord(w, r) && PendingOk(w, r) && LedgerReplyOk(w, r.executionId, reply)
    ensures ProcessOk(w, OnLedgerResult(r, reply))
    ensures ProcessOk(w, OnLedgerResume(r, reply))
  {
  }

  lemma CallBankExecuteOk(w: World, r: Record, delivery: Delivery, opening: map<string, Bank.Account>)
    requires Inv(w, opening) && PreparedRecord(w, r) && Ledgered(w.events, r.executionId)
    ensures var (w', reply) := CallBankExecute(w, r.executionId, r.bankPreparation.value, delivery);
      Inv(w', opening) && Grows(w, w') && w'.processes == w.processes && BankReplyOk(w', r, reply)
  {
    hide BankSafety.Inv, KeysUnique, BankExecutes, BankOk, EventsOk, ProcessesOk;
    var p := r.bankPreparation.value;
    match delivery {
      case PolicyBlocks =>
        CallsBelow(w);
        FreshKeepsInv(w, w.parked, opening);
      case Parks => FreshKeepsInv(w, w.parked[w.nextCall := ParkedBank(r.executionId, p)], opening);
      case Delivers(reference, _) =>
        FreshKeepsInv(w, w.parked, opening);
        GrowsKeeps(w, Fresh(w));
        BankExecutesOk(Fresh(w), w.nextCall, r.executionId, p, reference, opening);
      case _ =>
    }
  }

  lemma ExecuteBankKeepsInv(w: World, process: nat, delivery: Delivery, opening: map<string, Bank.Account>)
    requires Inv(w, opening)
    ensures Inv(Step(w, ExecuteBank(process, delivery)), opening)
  {
    hide BankOk, EventsOk, AnswersOk, CallsOk, CallBankExecute;
    if At(w, process, AtBankExecute) && w.processes[process].record.bankPreparation.Some? {
      assert ProcessOk(w, w.processes[process]);
      var r := w.processes[process].record;
      var (w', reply) := CallBankExecute(w, r.executionId, r.bankPreparation.value, delivery);
      CallBankExecuteOk(w, r, delivery, opening);
      GrowsKeeps(w, w');
      OnBankResultOk(w', r, reply);
      WithKeepsInv(w', process, OnBankResult(r, reply), opening);
    }
  }

  lemma ExecuteLedgerKeepsInv(w: World, process: nat, answer: Reply<string>, heard: bool, opening: map<string,
                              Bank.Account>)
    requires Inv(w, opening)
    ensures Inv(Step(w, ExecuteLedger(process, answer, heard)), opening)
  {
    hide BankSafety.Inv, KeysUnique, BankOk, EventsOk, CallsOk, AnswersOk, LedgerAnswers;
    if At(w, process, AtLedgerExecute) {
      assert ProcessOk(w, w.processes[process]);
      var r := w.processes[process].record;
      var (w', reply) := LedgerAnswers(w, r.executionId, answer, heard);
      LedgerAnswersOk(w, r.executionId, answer, heard, opening);
      GrowsKeeps(w, w');
      OnLedgerResultOk(w', r, reply);
      WithKeepsInv(w', process, OnLedgerResult(r, reply), opening);
    }
  }

  lemma ResumeLedgerKeepsInv(
    w: World, process: nat, answer: Reply<string>, heard: bool, opening: map<string, Bank.Account>)
    requires Inv(w, opening) && At(w, process, AtResume) && w.processes[process].record.pending.Some?
    requires !answer.Blocked?
    requires var id := w.processes[process].record.pending.value.callId; id in w.parked && w.parked[id].ParkedLedger?
    ensures Inv(DoResumePending(w, process, answer, 0, heard), opening)
  {
    hide BankSafety.Inv, KeysUnique, BankOk, EventsOk, CallsOk, AnswersOk, LedgerAnswers;
    assert ProcessOk(w, w.processes[process]);
    var r := w.processes[process].record;
    var id := r.pending.value.callId;
    UnparkKeepsInv(w, id, opening);
    var (w', reply) := LedgerAnswers(Unpark(w, id), r.executionId, answer, heard);
    LedgerAnswersOk(Unpark(w, id), r.executionId, answer, heard, opening);
    assert Grows(w, w');
    GrowsKeeps(w, w');
    OnLedgerResultOk(w', r, reply);
    WithKeepsInv(w', process, OnLedgerResume(r, reply), opening);
  }

  lemma ResumeBankKeepsInv(
    w: World, process: nat, answer: Reply<string>, reference: nat, heard: bool, opening: map<string, Bank.Account>)
    requires Inv(w, opening) && At(w, process, AtResume) && w.processes[process].record.pending.Some?
    requires !answer.Blocked?
    requires var id := w.processes[process].record.pending.value.callId; id in w.parked && w.parked[id].ParkedBank?
    ensures Inv(DoResumePending(w, process, answer, reference, heard), opening)
  {
    hide BankSafety.Inv, KeysUnique, BankOk, EventsOk, CallsOk, AnswersOk, BankExecutes;
    assert ProcessOk(w, w.processes[process]);
    var r := w.processes[process].record;
    var id := r.pending.value.callId;
    var p := r.bankPreparation.value;
    UnparkKeepsInv(w, id, opening);
    GrowsKeeps(w, Unpark(w, id));
    var (w', reply) := BankExecutes(Unpark(w, id), id, r.executionId, p, reference);
    BankExecutesOk(Unpark(w, id), id, r.executionId, p, reference, opening);
    assert Grows(w, w');
    GrowsKeeps(w, w');
    OnBankResultOk(w', r, Heard(reply, heard));
    WithKeepsInv(w', process, OnBankResume(r, Heard(reply, heard)), opening);
  }

  lemma ResumePendingKeepsInv(
    w: World, process: nat, answer: Reply<string>, reference: nat, heard: bool, opening: map<string, Bank.Account>)
    requires Inv(w, opening) && At(w, process, AtResume) && w.processes[process].record.pending.Some?
    ensures Inv(DoResumePending(w, process, answer, reference, heard), opening)
  {
    hide BankSafety.Inv, KeysUnique, BankExecutes, BankPrepares;
    assert ProcessOk(w, w.processes[process]);
    var r := w.processes[process].record;
    var id := r.pending.value.callId;
    if id !in w.parked || answer.Blocked? {
      WithKeepsInv(w, process, Process(Raised, r), opening);
    } else {
      match w.parked[id] {
        case ParkedPrepare =>
          UnparkKeepsInv(w, id, opening);
          BankPreparesOk(Unpark(w, id), id, opening);
          GrowsKeeps(w, BankPrepares(Unpark(w, id), id).0);
          WithKeepsInv(BankPrepares(Unpark(w, id), id).0, process, Process(Raised, r), opening);
        case ParkedLedger(_) => ResumeLedgerKeepsInv(w, process, answer, heard, opening);
        case ParkedBank(_, _) => ResumeBankKeepsInv(w, process, answer, reference, heard, opening);
      }
    }
  }

  lemma WorkerResumesKeepsInv(w: World, id: nat, answer: Reply<string>, reference: nat, opening: map<string,
                              Bank.Account>)
    requires Inv(w, opening)
    ensures Inv(DoWorkerResumes(w, id, answer, reference), opening)
  {
    hide BankSafety.Inv, KeysUnique, BankExecutes, BankPrepares;
    if id in w.parked && !answer.Blocked? {
      assert ParkedOk(w, id, w.parked[id]);
      UnparkKeepsInv(w, id, opening);
      GrowsKeeps(w, Unpark(w, id));
      match w.parked[id] {
        case ParkedPrepare => BankPreparesOk(Unpark(w, id), id, opening);
        case ParkedLedger(executionId) => LedgerAnswersOk(Unpark(w, id), executionId, answer, false, opening);
        case ParkedBank(executionId, p) => BankExecutesOk(Unpark(w, id), id, executionId, p, reference, opening);
      }
    }
  }

  lemma SettleKeepsInv(w: World, process: nat, accepted: bool, opening: map<string, Bank.Account>)
    requires Inv(w, opening)
    ensures Inv(Step(w, Settle(process, accepted)), opening)
  {
    hide BankSafety.Inv, KeysUnique;
    if At(w, process, AtSettle) && w.processes[process].record.bankExecution.Some? {
      assert ProcessOk(w, w.processes[process]);
      var r := w.processes[process].record;
      var event := Reported(r.executionId, r.bankExecution.value);
      var w' := w.(events := w.events + [event]);
      assert w'.events[..|w.events|] == w.events;
      LogKeepsInv(w, event, opening);
      GrowsKeeps(w, w');
      WithKeepsInv(w', process, OnSettle(r, accepted), opening);
    }
  }

  lemma BankDoesKeepsInv(w: World, op: Bank.Op, opening: map<string, Bank.Account>)
    requires Inv(w, opening)
    ensures Inv(Step(w, BankDoes(op)), opening)
  {
    hide BankSafety.Inv, KeysUnique, Bank.Step;
    BankSafety.StepKeepsInv(w.bank, op, opening);
    BankStepMoves(w.bank, op);
    BankQuiet(w, Step(w, BankDoes(op)), opening);
  }

  lemma CheckpointKeepsInv(w: World, w': World, opening: map<string, Bank.Account>)
    requires Inv(w, opening)
    requires w' == w.(processes := w'.processes, checkpoint := w'.checkpoint)
    requires forall p :: p in w'.processes ==> p in w.processes && w'.processes[p] == w.processes[p]
    requires w'.checkpoint.Some? ==> PendingOk(w, w'.checkpoint.value)
    ensures Inv(w', opening)
  {
    hide BankSafety.Inv, KeysUnique;
    GrowsKeeps(w, w');
    forall p | p in w'.processes ensures ProcessOk(w', w'.processes[p]) {
      assert ProcessOk(w, w.processes[p]);
    }
    CallsFrame(w, w');
    EventsFrame(w, w');
  }

  /** Steps a process takes by itself, and a hearing of the ledger's preparation. */
  lemma LocalStepKeepsInv(w: World, op: Op, opening: map<string, Bank.Account>)
    requires Inv(w, opening)
    requires op.Start? || op.Resume? || op.PrepareLedger? || op.StillBlocked? || op.Save? || op.Crash?
    ensures Inv(Step(w, op), opening)
  {
    hide BankOk, AnswersOk, CallsOk, EventsOk, PreparedRecord;
    match op {
      case Start(p, executionId) => if p !in w.processes { WithKeepsInv(w, p, Begin(executionId), opening); }
      case Resume(p) =>
        if p !in w.processes && w.checkpoint.Some? { WithKeepsInv(w, p, Load(w.checkpoint.value), opening); }
      case PrepareLedger(p, answer) =>
        if At(w, p, AtLedgerPrepare) {
          assert ProcessOk(w, w.processes[p]);
          LedgerPrepareOk(w, w.processes[p], answer);
          WithKeepsInv(w, p, OnLedgerPrepare(w.processes[p].record, answer), opening);
        }
      case StillBlocked(p) =>
        if At(w, p, AtResume) && w.processes[p].record.pending.Some? {
          assert ProcessOk(w, w.processes[p]);
          WithKeepsInv(w, p, Process(Finished, w.processes[p].record), opening);
        }
      case Save(p) =>
        if At(w, p, Finished) {
          assert ProcessOk(w, w.processes[p]);
          CheckpointKeepsInv(w, Step(w, op), opening);
        }
      case Crash(p) => CheckpointKeepsInv(w, Step(w, op), opening);
    }
  }

  lemma LedgerPrepareOk(w: World, p: Process, answer: Reply<string>)
    requires ProcessOk(w, p) && p.point == AtLedgerPrepare
    ensures ProcessOk(w, OnLedgerPrepare(p.record, answer))
  {
  }

  lemma StepKeepsInv(w: World, op: Op, opening: map<string, Bank.Account>)
    requires Inv(w, opening)
    ensures Inv(Step(w, op), opening)
  {
    hide Inv, DoResumePending, DoWorkerResumes, DoSettle, DoExecuteBank, DoExecuteLedger, CallBankPrepare;
    match op {
      case PrepareBank(p, delivery) => PrepareBankKeepsInv(w, p, delivery, opening);
      case ExecuteLedger(p, answer, heard) => ExecuteLedgerKeepsInv(w, p, answer, heard, opening);
      case ExecuteBank(p, delivery) => ExecuteBankKeepsInv(w, p, delivery, opening);
      case ResumePending(p, answer, reference, heard) =>
        if At(w, p, AtResume) && w.processes[p].record.pending.Some? {
          ResumePendingKeepsInv(w, p, answer, reference, heard, opening);
        }
      case Settle(p, accepted) => SettleKeepsInv(w, p, accepted, opening);
      case WorkerResumes(id, answer, reference) => WorkerResumesKeepsInv(w, id, answer, reference, opening);
      case BankDoes(bankOp) => BankDoesKeepsInv(w, bankOp, opening);
      case _ => LocalStepKeepsInv(w, op, opening);
    }
  }

  lemma {:induction false} RunKeepsInv(w: World, ops: seq<Op>, opening: map<string, Bank.Account>)
    requires Inv(w, opening)
    ensures Inv(Run(w, ops), opening)
    decreases |ops|
  {
    if ops != [] {
      StepKeepsInv(w, ops[0], opening);
      RunKeepsInv(Step(w, ops[0]), ops[1..], opening);
    }
  }

  // --------------------------------------------------------------- theorems

  lemma OpenedOk(
    tenantId: nat, userId: nat, opening: map<string, Bank.Account>, beneficiaries: map<string, Bank.Beneficiary>,
    now: int)
    requires BankSafety.Opening(opening)
    ensures Inv(Saga.Opened(tenantId, userId, opening, beneficiaries, now), opening)
  {
    BankSafety.OpenedIsOk(opening, beneficiaries, now);
  }

  /**
   No transfer of the saga is executed, or reported to the ledger as settled, before the ledger execution
   of the same flow succeeded; and a report names an execution the bank really holds.
   */
  lemma LedgerComesFirst(
    tenantId: nat, userId: nat, opening: map<string, Bank.Account>, beneficiaries: map<string, Bank.Beneficiary>,
    now: int, ops: seq<Op>, k: nat)
    requires BankSafety.Opening(opening)
    requires var w := Run(Saga.Opened(tenantId, userId, opening, beneficiaries, now), ops);
      k < |w.events| && !w.events[k].LedgerSucceeded?
    ensures var w := Run(Saga.Opened(tenantId, userId, opening, beneficiaries, now), ops);
      && LedgerSucceeded(w.events[k].executionId) in w.events[..k]
      && (w.events[k].Reported? ==> w.events[k].execution in w.bank.state.executions)
  {
    OpenedOk(tenantId, userId, opening, beneficiaries, now);
    RunKeepsInv(Saga.Opened(tenantId, userId, opening, beneficiaries, now), ops, opening);
    assert EventOk(Run(Saga.Opened(tenantId, userId, opening, beneficiaries, now), ops), k);
  }

  /**
   However often `start` and `resume` run, crash, overlap or hear nothing back, and whatever else the bank
   does, the source account is debited for the saga at most once, by its one prepared action.
   */
  lemma DebitedAtMostOnce(
    tenantId: nat, userId: nat, opening: map<string, Bank.Account>, beneficiaries: map<string, Bank.Beneficiary>,
    now: int, ops: seq<Op>)
    requires BankSafety.Opening(opening)
    ensures var w := Run(Saga.Opened(tenantId, userId, opening, beneficiaries, now), ops);
      var executions := w.bank.state.executions;
      && (forall i, j :: 0 <= i < j < |executions| && OfKey(w, executions[i]) ==> !OfKey(w, executions[j]))
      && (forall i, j :: 0 <= i < j < |w.events| && w.events[i].BankDebited? ==> !w.events[j].BankDebited?)
      && (forall k :: 0 <= k < |w.events| && w.events[k].BankDebited? ==>
            w.events[k].row < |executions| && executions[w.events[k].row].action == SagaAction(w))
  {
    OpenedOk(tenantId, userId, opening, beneficiaries, now);
    RunKeepsInv(Saga.Opened(tenantId, userId, opening, beneficiaries, now), ops, opening);
    var w := Run(Saga.Opened(tenantId, userId, opening, beneficiaries, now), ops);
    var executions := w.bank.state.executions;
    forall i, j | 0 <= i < j < |executions| && OfKey(w, executions[i]) ensures !OfKey(w, executions[j]) {
      OneRowPerKey(w, i, j, opening);
    }
    forall k | 0 <= k < |w.events| && w.events[k].BankDebited?
      ensures w.events[k].row < |executions| && executions[w.events[k].row].action == SagaAction(w)
    {
      assert EventOk(w, k);
    }
  }

  predicate OfKey(w: World, e: Bank.Execution) {
    e.action.tenantId == w.tenantId && e.action.key == PREPARE_KEY
  }

  lemma OneRowPerKey(w: World, i: nat, j: nat, opening: map<string, Bank.Account>)
    requires Inv(w, opening) && i < j < |w.bank.state.executions| && OfKey(w, w.bank.state.executions[i])
    ensures !OfKey(w, w.bank.state.executions[j])
  {
    var s := w.bank.state;
    assert BankSafety.ExecutionOk(s, s.executions[i]) && BankSafety.ExecutionOk(s, s.executions[j]);
    var a, b := s.executions[i].actionId, s.executions[j].actionId;
    assert a != b;
    assert !SameKey(s.prepared[if a < b then a else b], s.prepared[if a < b then b else a]);
  }

  /**
   Every settlement the ledger ever hears of is the same bank execution, whichever flow reports it: a later
   flow's execution is answered with the row of the first, under the first flow's execution id.
   */
  lemma ReportsAgree(
    tenantId: nat, userId: nat, opening: map<string, Bank.Account>, beneficiaries: map<string, Bank.Beneficiary>,
    now: int, ops: seq<Op>, i: nat, j: nat)
    requires BankSafety.Opening(opening)
    requires var w := Run(Saga.Opened(tenantId, userId, opening, beneficiaries, now), ops);
      i < |w.events| && j < |w.events| && w.events[i].Reported? && w.events[j].Reported?
    ensures var w := Run(Saga.Opened(tenantId, userId, opening, beneficiaries, now), ops);
      w.events[i].execution == w.events[j].execution
  {
    hide BankOk, AnswersOk, CallsOk, ProcessesOk;
    OpenedOk(tenantId, userId, opening, beneficiaries, now);
    RunKeepsInv(Saga.Opened(tenantId, userId, opening, beneficiaries, now), ops, opening);
    var w := Run(Saga.Opened(tenantId, userId, opening, beneficiaries, now), ops);
    assert EventOk(w, i) && EventOk(w, j);
    KnownIsOne(w, w.events[i].execution, w.events[j].execution, opening);
  }

  lemma KnownIsOne(w: World, e: Bank.Execution, f: Bank.Execution, opening: map<string, Bank.Account>)
    requires Inv(w, opening) && ExecutionKnown(w, e) && ExecutionKnown(w, f)
    ensures e == f
  {
    hide Inv;
    var executions := w.bank.state.executions;
    var k :| 0 <= k < |executions| && executions[k] == e;
    var l :| 0 <= l < |executions| && executions[l] == f;
    assert OfKey(w, e) && OfKey(w, f);
    if k < l { OneRowPerKey(w, k, l, opening); } else if l < k { OneRowPerKey(w, l, k, opening); }
  }

  /** The transfer is of 125000.00. */
  lemma TransferAmount(w: World)
    ensures SagaAction(w) == Bank.TransferHash(
      w.tenantId, w.userId, "acct_demo_operating", "ben_demo_verified", 12_500_000, "INR", "DEMO_BANK_RAIL",
      "synthetic financing disbursement", "e2e-bank-case-demo-001")
  {
  }
}
