/**
 The disbursement coordinator: a saga over the ledger and the bank that stops at a checkpoint whenever
 a call waits for an approval. Any number of coordinator processes may run, crash and overlap.
 */
module Saga {
  import opened Contracts
  import Money
  import Bank

  const SOURCE: string := "acct_demo_operating"
  const BENEFICIARY: string := "ben_demo_verified"
  const AMOUNT: Money.Decimal := Money.Finite(12_500_000, -2)
  const PURPOSE: string := "synthetic financing disbursement"
  const PREPARE_KEY: string := "e2e-bank-case-demo-001"

  /** What a gateway call or resume comes back with; `Failed` is every reply that makes the caller raise. */
  datatype Reply<+T> = Failed | Blocked(callId: nat) | Succeeded(projection: T)

  datatype Preparation = Preparation(actionId: nat, hash: Bank.TransferHash)

  datatype Kind = LedgerCall | BankCall

  datatype Pending = Pending(kind: Kind, callId: nat)

  datatype Stage = Preparing | WaitingLedgerApproval | WaitingBankApproval | Reconciled

  /** The coordinator's state, and what a checkpoint file holds. */
  datatype Record = Record(
    stage: Stage, executionId: string, bankPreparation: Option<Preparation>, ledgerPreparation: Option<string>,
    ledgerExecution: Option<string>, bankExecution: Option<Bank.Execution>, pending: Option<Pending>)

  /** Where a process stands between two remote calls. */
  datatype Point =
    | AtBankPrepare | AtLedgerPrepare | AtLedgerExecute | AtResume | AtBankExecute | AtSettle | Finished | Raised

  datatype Process = Process(point: Point, record: Record)

  // ---------------------------------------------- the coordinator's own moves

  function Begin(executionId: string): Process {
    Process(AtBankPrepare, Record(Preparing, executionId, None, None, None, None, None))
  }

  /** `resume` reads the checkpoint; without a pending call it raises. */
  function Load(record: Record): Process {
    Process(if record.pending.Some? then AtResume else Raised, record)
  }

  function OnBankPrepare(r: Record, reply: Reply<Preparation>): Process {
    match reply
    case Succeeded(bank) => Process(AtLedgerPrepare, r.(bankPreparation := Some(bank)))
    case _ => Process(Raised, r)
  }

  function OnLedgerPrepare(r: Record, reply: Reply<string>): Process {
    match reply
    case Succeeded(ledger) => Process(AtLedgerExecute, r.(ledgerPreparation := Some(ledger)))
    case _ => Process(Raised, r)
  }

  function OnLedgerResult(r: Record, reply: Reply<string>): Process {
    match reply
    case Blocked(id) => Process(Finished, r.(stage := WaitingLedgerApproval, pending := Some(Pending(LedgerCall, id))))
    case Failed => Process(Raised, r)
    case Succeeded(ledger) => Process(AtBankExecute, r.(ledgerExecution := Some(ledger)))
  }

  function OnBankResult(r: Record, reply: Reply<Bank.Execution>): Process {
    match reply
    case Blocked(id) => Process(Finished, r.(stage := WaitingBankApproval, pending := Some(Pending(BankCall, id))))
    case Failed => Process(Raised, r)
    case Succeeded(bank) => Process(AtSettle, r.(bankExecution := Some(bank)))
  }

  function OnLedgerResume(r: Record, reply: Reply<string>): Process {
    match reply
    case Blocked(_) => Process(Finished, r)
    case _ => OnLedgerResult(r.(pending := None), reply)
  }

  function OnBankResume(r: Record, reply: Reply<Bank.Execution>): Process {
    match reply
    case Blocked(_) => Process(Finished, r)
    case _ => OnBankResult(r.(pending := None), reply)
  }

  function OnSettle(r: Record, accepted: bool): Process {
    if accepted then Process(Finished, r.(stage := Reconciled)) else Process(Raised, r)
  }

  // ------------------------------------------------------- gateway and bank

  /** A call the gateway keeps until an approval; anyone may resume it once. */
  datatype Parked =
    | ParkedPrepare
    | ParkedLedger(executionId: string)
    | ParkedBank(executionId: string, preparation: Preparation)

  /** How the gateway treats a bank call. `heard` says whether the reply reached the caller. */
  datatype Delivery = Refused | Parks | PolicyBlocks | Delivers(reference: nat, heard: bool) | Replays(i: nat)

  datatype Event =
    | LedgerSucceeded(executionId: string)
    | BankDebited(executionId: string, row: nat)
    | Reported(executionId: string, execution: Bank.Execution)

  /** `prepares` and `executes` are the bank's answers the gateway has stored. */
  datatype World = World(
    tenantId: nat, userId: nat, bank: Bank.Clocked, nextCall: nat, parked: map<nat, Parked>,
    prepares: seq<Preparation>, executes: seq<Bank.Execution>,
    processes: map<nat, Process>, checkpoint: Option<Record>, events: seq<Event>)

  function ScopeOf(w: World, callId: nat): Bank.RuntimeScope {
    Bank.RuntimeScope(w.tenantId, w.userId, PURPOSE, callId)
  }

  function PrepareOp(w: World, callId: nat): Bank.Op {
    Bank.DoPrepare(ScopeOf(w, callId), SOURCE, BENEFICIARY, AMOUNT, "INR", "DEMO_BANK_RAIL", PREPARE_KEY)
  }

  function ExecuteOp(w: World, callId: nat, executionId: string, p: Preparation, reference: nat): Bank.Op {
    Bank.DoExecute(ScopeOf(w, callId), p.actionId, p.hash, executionId, reference)
  }

  /** The bank runs one preparation for the saga. */
  function BankPrepares(w: World, callId: nat): (World, Reply<Preparation>) {
    var op := PrepareOp(w, callId);
    match Bank.Request(w.bank.state, op, w.bank.now)
    case Ok((_, PreparedReply(id, row))) =>
      (w.(bank := Bank.Step(w.bank, op), prepares := w.prepares + [Preparation(id, row.action)]),
       Succeeded(Preparation(id, row.action)))
    case _ => (w, Failed)
  }

  /** The bank runs one execution for the saga; a new execution row is the debit itself. */
  function BankExecutes(w: World, callId: nat, executionId: string, p: Preparation, reference: nat): (World,
      Reply<Bank.Execution>) {
    var op := ExecuteOp(w, callId, executionId, p, reference);
    match Bank.Request(w.bank.state, op, w.bank.now)
    case Ok((s, ExecutionReply(row))) =>
      var debit := if |s.executions| > |w.bank.state.executions|
                   then [BankDebited(executionId, |w.bank.state.executions|)] else [];
      (w.(bank := Bank.Step(w.bank, op), executes := w.executes + [row], events := w.events + debit), Succeeded(row))
    case _ => (w, Failed)
  }

  function Heard<T>(reply: Reply<T>, heard: bool): Reply<T> {
    if heard then reply else Failed
  }

  function Fresh(w: World): World {
    w.(nextCall := w.nextCall + 1)
  }

  function CallBankPrepare(w: World, delivery: Delivery): (World, Reply<Preparation>) {
    match delivery
    case Refused => (w, Failed)
    case PolicyBlocks => (Fresh(w), Blocked(w.nextCall))
    case Parks => (Fresh(w).(parked := w.parked[w.nextCall := ParkedPrepare]), Blocked(w.nextCall))
    case Delivers(_, heard) =>
      var (w', reply) := BankPrepares(Fresh(w), w.nextCall);
      (w', Heard(reply, heard))
    case Replays(i) => (w, if i < |w.prepares| then Succeeded(w.prepares[i]) else Failed)
  }

  function CallBankExecute(w: World, executionId: string, p: Preparation, delivery: Delivery): (World,
      Reply<Bank.Execution>) {
    match delivery
    case Refused => (w, Failed)
    case PolicyBlocks => (Fresh(w), Blocked(w.nextCall))
    case Parks => (Fresh(w).(parked := w.parked[w.nextCall := ParkedBank(executionId, p)]), Blocked(w.nextCall))
    case Delivers(reference, heard) =>
      var (w', reply) := BankExecutes(Fresh(w), w.nextCall, executionId, p, reference);
      (w', Heard(reply, heard))
    case Replays(i) => (w, if i < |w.executes| then Succeeded(w.executes[i]) else Failed)
  }

  /** The ledger is not modelled: it answers anything, and success is an event whether heard or not. */
  function LedgerAnswers(w: World, executionId: string, answer: Reply<string>, heard: bool): (World, Reply<string>) {
    match answer
    case Failed => (w, Failed)
    case Blocked(_) => (Fresh(w).(parked := w.parked[w.nextCall := ParkedLedger(executionId)]),
                        Heard(Blocked(w.nextCall), heard))
    case Succeeded(_) => (w.(events := w.events + [LedgerSucceeded(executionId)]), Heard(answer, heard))
  }

  // -------------------------------------------------------------------- steps

  datatype Op =
    | Start(process: nat, executionId: string)
    | Resume(process: nat)
    | PrepareBank(process: nat, delivery: Delivery)
    | PrepareLedger(process: nat, answer: Reply<string>)
    | ExecuteLedger(process: nat, answer: Reply<string>, heard: bool)
    | ExecuteBank(process: nat, delivery: Delivery)
    | ResumePending(process: nat, answer: Reply<string>, reference: nat, heard: bool)
    | StillBlocked(process: nat)
    | Settle(process: nat, accepted: bool)
    | Save(process: nat)
    | Crash(process: nat)
    | WorkerResumes(callId: nat, answer: Reply<string>, reference: nat)
    | BankDoes(op: Bank.Op)

  function With(w: World, process: nat, p: Process): World {
    w.(processes := w.processes[process := p])
  }

  predicate At(w: World, process: nat, point: Point) {
    process in w.processes && w.processes[process].point == point
  }

  function DoExecuteLedger(w: World, process: nat, answer: Reply<string>, heard: bool): World
    requires process in w.processes
  {
    var r := w.processes[process].record;
    var (w', reply) := LedgerAnswers(w, r.executionId, answer, heard);
    With(w', process, OnLedgerResult(r, reply))
  }

  function DoExecuteBank(w: World, process: nat, delivery: Delivery): World
    requires process in w.processes && w.processes[process].record.bankPreparation.Some?
  {
    var r := w.processes[process].record;
    var (w', reply) := CallBankExecute(w, r.executionId, r.bankPreparation.value, delivery);
    With(w', process, OnBankResult(r, reply))
  }

  /** Unpark call `id` and let it reach its tool. */
  function Unpark(w: World, id: nat): World {
    w.(parked := w.parked - {id})
  }

  /** Resuming a call nobody parked is refused, and the process that asked raises. */
  function DoResumePending(w: World, process: nat, answer: Reply<string>, reference: nat, heard: bool): World
    requires process in w.processes && w.processes[process].record.pending.Some?
  {
    var r := w.processes[process].record;
    var id := r.pending.value.callId;
    if id !in w.parked || answer.Blocked? then With(w, process, Process(Raised, r))
    else
      match w.parked[id]
      case ParkedPrepare => With(BankPrepares(Unpark(w, id), id).0, process, Process(Raised, r))
      case ParkedLedger(executionId) =>
        var (w', reply) := LedgerAnswers(Unpark(w, id), executionId, answer, heard);
        With(w', process, OnLedgerResume(r, reply))
      case ParkedBank(executionId, p) =>
        var (w', reply) := BankExecutes(Unpark(w, id), id, executionId, p, reference);
        With(w', process, OnBankResume(r, Heard(reply, heard)))
  }

  function DoStillBlocked(w: World, process: nat): World
    requires process in w.processes && w.processes[process].record.pending.Some?
  {
    var r := w.processes[process].record;
    var id := r.pending.value.callId;
    With(w, process, if r.pending.value.kind == LedgerCall then OnLedgerResume(r, Blocked(id)) else OnBankResume(r,
        Blocked(id)))
  }

  function DoSettle(w: World, process: nat, accepted: bool): World
    requires process in w.processes && w.processes[process].record.bankExecution.Some?
  {
    var r := w.processes[process].record;
    With(w.(events := w.events + [Reported(r.executionId, r.bankExecution.value)]), process, OnSettle(r, accepted))
  }

  function DoWorkerResumes(w: World, id: nat, answer: Reply<string>, reference: nat): World {
    if id !in w.parked || answer.Blocked? then w
    else
      match w.parked[id]
      case ParkedPrepare => BankPrepares(Unpark(w, id), id).0
      case ParkedLedger(executionId) => LedgerAnswers(Unpark(w, id), executionId, answer, false).0
      case ParkedBank(executionId, p) => BankExecutes(Unpark(w, id), id, executionId, p, reference).0
  }

  // A step that is not enabled changes nothing.
  function Step(w: World, op: Op): World {
    match op
    case Start(p, executionId) => if p in w.processes then w else With(w, p, Begin(executionId))
    case Resume(p) => if p in w.processes || w.checkpoint.None? then w else With(w, p, Load(w.checkpoint.value))
    case PrepareBank(p, delivery) =>
      if !At(w, p, AtBankPrepare) then w
      else
        var (w', reply) := CallBankPrepare(w, delivery);
        With(w', p, OnBankPrepare(w.processes[p].record, reply))
    case PrepareLedger(p, answer) =>
      if !At(w, p, AtLedgerPrepare) then w else With(w, p, OnLedgerPrepare(w.processes[p].record, answer))
    case ExecuteLedger(p, answer, heard) =>
      if !At(w, p, AtLedgerExecute) then w else DoExecuteLedger(w, p, answer, heard)
    case ExecuteBank(p, delivery) =>
      if !At(w, p, AtBankExecute) || w.processes[p].record.bankPreparation.None? then w else DoExecuteBank(w, p,
          delivery)
    case ResumePending(p, answer, reference, heard) =>
      if !At(w, p, AtResume) || w.processes[p].record.pending.None? then w
      else DoResumePending(w, p, answer, reference, heard)
    case StillBlocked(p) =>
      if !At(w, p, AtResume) || w.processes[p].record.pending.None? then w else DoStillBlocked(w, p)
    case Settle(p, accepted) =>
      if !At(w, p, AtSettle) || w.processes[p].record.bankExecution.None? then w else DoSettle(w, p, accepted)
    case Save(p) =>
      if !At(w, p, Finished) then w
      else w.(checkpoint := Some(w.processes[p].record), processes := w.processes - {p})
    case Crash(p) => w.(processes := w.processes - {p})
    case WorkerResumes(id, answer, reference) => DoWorkerResumes(w, id, answer, reference)
    case BankDoes(bankOp) => w.(bank := Bank.Step(w.bank, bankOp))
  }

  function Run(w: World, ops: seq<Op>): World
    decreases |ops|
  {
    if ops == [] then w else Run(Step(w, ops[0]), ops[1..])
  }

  lemma {:induction false} RunAppend(w: World, first: seq<Op>, second: seq<Op>)
    ensures Run(w, first + second) == Run(Run(w, first), second)
    decreases |first|
  {
    if first == [] {
      assert first + second == second;
    } else {
      assert (first + second)[0] == first[0] && (first + second)[1..] == first[1..] + second;
      RunAppend(Step(w, first[0]), first[1..], second);
    }
  }

  lemma TwoSteps(w: World, a: Op, b: Op)
    ensures Run(w, [a, b]) == Step(Step(w, a), b)
  {
    hide Step;
    assert [a, b][1..] == [b] && [b][1..] == [];
    assert Run(Step(Step(w, a), b), []) == Step(Step(w, a), b);
  }

  lemma FourSteps(w: World, a: Op, b: Op, c: Op, d: Op)
    ensures Run(w, [a, b, c, d]) == Step(Step(Step(Step(w, a), b), c), d)
  {
    hide Run, Step;
    assert [a, b, c, d] == [a, b] + [c, d];
    RunAppend(w, [a, b], [c, d]);
    TwoSteps(w, a, b);
    TwoSteps(Step(Step(w, a), b), c, d);
  }

  lemma SixSteps(w: World, a: Op, b: Op, c: Op, d: Op, e: Op, f: Op)
    ensures Run(w, [a, b, c, d, e, f]) == Step(Step(Step(Step(Step(Step(w, a), b), c), d), e), f)
  {
    hide Run, Step;
    assert [a, b, c, d, e, f] == [a, b] + [c, d, e, f];
    RunAppend(w, [a, b], [c, d, e, f]);
    TwoSteps(w, a, b);
    FourSteps(Step(Step(w, a), b), c, d, e, f);
  }

  function Opened(
    tenantId: nat, userId: nat, accounts: map<string, Bank.Account>, beneficiaries: map<string, Bank.Beneficiary>,
    now: int): World
  {
    World(tenantId, userId, Bank.Clocked(Bank.Opened(accounts, beneficiaries), now), 0, map[], [], [], map[], None, [])
  }
}
