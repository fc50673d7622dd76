/** One coordinator process as the program runs it: from its first call to a checkpoint or an error. */
module SagaCoordinator {
  import opened Contracts
  import Bank
  import opened Saga
  import SagaSafety

  /** The replies one process would get, in the order it would ask. */
  datatype Replies = Replies(
    bankPrepare: Reply<Preparation>, ledgerPrepare: Reply<string>, ledger: Reply<string>,
    bank: Reply<Bank.Execution>, accepted: bool)

  // What is left of a process, as the saga's moves between two calls chain up.

  function FromSettle(p: Process, replies: Replies): Process {
    if p.point == AtSettle then OnSettle(p.record, replies.accepted) else p
  }

  function FromBankExecute(p: Process, replies: Replies): Process {
    if p.point == AtBankExecute then FromSettle(OnBankResult(p.record, replies.bank), replies) else p
  }

  function FromStart(executionId: string, replies: Replies): Process {
    var prepared := OnBankPrepare(Begin(executionId).record, replies.bankPrepare);
    if prepared.point == Raised then prepared
    else
      var entered := OnLedgerPrepare(prepared.record, replies.ledgerPrepare);
      if entered.point == Raised then entered
      else FromBankExecute(OnLedgerResult(entered.record, replies.ledger), replies)
  }

  /** `resumed` answers the pending call, whichever system it was for. */
  function FromResume(record: Record, replies: Replies, resumed: Replies): Process {
    var p := Load(record);
    if p.point == Raised then p
    else if record.pending.value.kind == LedgerCall then FromBankExecute(OnLedgerResume(record, resumed.ledger),
        replies)
    else FromSettle(OnBankResume(record, resumed.bank), replies)
  }

  class Coordinator {
    var state: Record

    constructor (checkpoint: Record)
      ensures state == checkpoint
    {
      state := checkpoint;
    }

    /** The process ended with this state, by an error or at a checkpoint. */
    ghost predicate Ended(raised: bool, specified: Process)
      reads this
    {
      specified == Process(if raised then Raised else Finished, state)
    }

    method Start(executionId: string, replies: Replies) returns (raised: bool)
      modifies this
      ensures Ended(raised, FromStart(executionId, replies))
    {
      state := Record(Preparing, executionId, None, None, None, None, None);
      if !replies.bankPrepare.Succeeded? { return true; }
      state := state.(bankPreparation := Some(replies.bankPrepare.projection));
      if !replies.ledgerPrepare.Succeeded? { return true; }
      state := state.(ledgerPreparation := Some(replies.ledgerPrepare.projection));
      raised := HandleLedgerResult(replies.ledger, replies);
    }

    method HandleLedgerResult(result: Reply<string>, replies: Replies) returns (raised: bool)
      modifies this
      ensures Ended(raised, FromBankExecute(OnLedgerResult(old(state), result), replies))
    {
      match result {
        case Blocked(id) =>
          state := state.(stage := WaitingLedgerApproval, pending := Some(Pending(LedgerCall, id)));
          return false;
        case Failed => return true;
        case Succeeded(projection) => state := state.(ledgerExecution := Some(projection));
      }
      match replies.bank {
        case Blocked(id) =>
          state := state.(stage := WaitingBankApproval, pending := Some(Pending(BankCall, id)));
          return false;
        case Failed => return true;
        case Succeeded(bank) => raised := SettleBank(bank, replies.accepted);
      }
    }

    method Resume(replies: Replies, resumed: Replies) returns (raised: bool)
      modifies this
      ensures Ended(raised, FromResume(old(state), replies, resumed))
    {
      if state.pending.None? { return true; }
      if state.pending.value.kind == LedgerCall {
        if resumed.ledger.Blocked? { return false; }
        state := state.(pending := None);
        raised := HandleLedgerResult(resumed.ledger, replies);
      } else {
        if resumed.bank.Blocked? { return false; }
        state := state.(pending := None);
        if !resumed.bank.Succeeded? { return true; }
        raised := SettleBank(resumed.bank.projection, replies.accepted);
      }
    }

    method SettleBank(bank: Bank.Execution, accepted: bool) returns (raised: bool)
      modifies this
      ensures Ended(raised, OnSettle(old(state).(bankExecution := Some(bank)), accepted))
    {
      state := state.(bankExecution := Some(bank));
      if !accepted { return true; }
      state := state.(stage := Reconciled);
      return false;
    }
  }

  /** A checkpoint is reconciled with both executions, or waits for the approval of exactly one call. */
  predicate CheckpointOk(r: Record) {
    && r.bankPreparation.Some? && r.ledgerPreparation.Some?
    && (match r.stage
        case Preparing => false
        case WaitingLedgerApproval => r.pending.Some? && r.pending.value.kind == LedgerCall && r.ledgerExecution.None?
        case WaitingBankApproval => r.pending.Some? && r.pending.value.kind == BankCall && r.ledgerExecution.Some?
        case Reconciled => r.pending.None? && r.ledgerExecution.Some? && r.bankExecution.Some?)
  }

  /** Every process that ends without an error leaves such a checkpoint, whatever it was told. */
  lemma ProcessesEndAtCheckpoints(executionId: string, record: Record, replies: Replies, resumed: Replies)
    requires CheckpointOk(record)
    ensures var p := FromStart(executionId, replies);
      p.point == Raised || (p.point == Finished && CheckpointOk(p.record))
    ensures var p := FromResume(record, replies, resumed);
      p.point == Raised || (p.point == Finished && CheckpointOk(p.record))
  {
    var prepared := OnBankPrepare(Begin(executionId).record, replies.bankPrepare);
    if prepared.point != Raised {
      var entered := OnLedgerPrepare(prepared.record, replies.ledgerPrepare);
      assert entered.point == Raised || entered.record.ledgerPreparation.Some?;
    }
  }

  /** The answers so far let the process reach the ledger's execution. */
  predicate Prepared(replies: Replies) {
    replies.bankPrepare.Succeeded? && replies.ledgerPrepare.Succeeded?
  }

  /** Which answers lead where: to a checkpoint at the first blocked execution, to RECONCILED, or to an error. */
  lemma StartEndsExactly(executionId: string, replies: Replies)
    ensures var p := FromStart(executionId, replies);
      && (p.point == Finished && p.record.stage == WaitingLedgerApproval <==>
            Prepared(replies) && replies.ledger.Blocked?)
      && (p.point == Finished && p.record.stage == WaitingBankApproval <==>
            Prepared(replies) && replies.ledger.Succeeded? && replies.bank.Blocked?)
      && (p.point == Finished && p.record.stage == Reconciled <==>
            Prepared(replies) && replies.ledger.Succeeded? && replies.bank.Succeeded? && replies.accepted)
      && (p.point == Finished ==>
            && p.record.executionId == executionId
            && p.record.bankPreparation == Some(replies.bankPrepare.projection)
            && p.record.ledgerPreparation == Some(replies.ledgerPrepare.projection)
            && (replies.ledger.Blocked? ==> p.record.pending == Some(Pending(LedgerCall, replies.ledger.callId)))
            && (replies.ledger.Succeeded? ==> p.record.ledgerExecution == Some(replies.ledger.projection))
            && (replies.ledger.Succeeded? && replies.bank.Blocked? ==>
                  p.record.pending == Some(Pending(BankCall, replies.bank.callId)))
            && (p.record.stage == Reconciled ==> p.record.bankExecution == Some(replies.bank.projection)))
  {
  }

  /** A resumed flow goes on where it waited, with what it had; a call still blocked leaves the checkpoint as it is. */
  lemma ResumeEndsExactly(record: Record, replies: Replies, resumed: Replies)
    requires CheckpointOk(record)
    ensures var p := FromResume(record, replies, resumed);
      && (record.stage == Reconciled ==> p.point == Raised)
      && (record.stage == WaitingLedgerApproval ==>
            && (resumed.ledger.Blocked? ==> p == Process(Finished, record))
            && (p.point == Finished && p.record.stage == WaitingBankApproval <==>
                  resumed.ledger.Succeeded? && replies.bank.Blocked?)
            && (p.point == Finished && p.record.stage == Reconciled <==>
                  resumed.ledger.Succeeded? && replies.bank.Succeeded? && replies.accepted))
      && (record.stage == WaitingBankApproval ==>
            && (resumed.bank.Blocked? ==> p == Process(Finished, record))
            && (p.point == Finished && p.record.stage == Reconciled <==>
                  resumed.bank.Succeeded? && replies.accepted))
      && (p.point == Finished ==>
            p.record.executionId == record.executionId && p.record.bankPreparation == record.bankPreparation
            && p.record.ledgerPreparation == record.ledgerPreparation)
  {
  }

  /** What one process saved, the next one resumes from: the same record, if it waits for a call. */
  lemma CheckpointsRoundTrip(w: World, saver: nat, next: nat)
    requires At(w, saver, Finished) && (next !in w.processes || next == saver)
    ensures var r := w.processes[saver].record;
      var w' := Step(Step(w, Save(saver)), Resume(next));
      && saver !in Step(w, Save(saver)).processes && w'.checkpoint == Some(r)
      && next in w'.processes && w'.processes[next].record == r
      && (w'.processes[next].point == AtResume <==> r.pending.Some?)
      && (w'.processes[next].point == Raised <==> r.pending.None?)
  {
  }

  /** A resumed call that is still blocked ends the process with its record as it was. */
  lemma StillBlockedChangesNothing(w: World, process: nat)
    requires At(w, process, AtResume) && w.processes[process].record.pending.Some?
    ensures Step(w, StillBlocked(process)) ==
      w.(processes := w.processes[process := Process(Finished, w.processes[process].record)])
  {
  }

  /** A replayed answer of the gateway is heard like the first. */
  lemma ReplaysAreHeard(w: World, process: nat, i: nat)
    requires At(w, process, AtBankExecute) && w.processes[process].record.bankPreparation.Some? && i < |w.executes|
    ensures var w' := Step(w, ExecuteBank(process, Replays(i)));
      && At(w', process, AtSettle) && w'.bank == w.bank
      && w'.processes[process].record.bankExecution == Some(w.executes[i])
  {
  }

  // ------------------------------------------- the processes of the saga's runs

  /** A process of the saga stands where the coordinator would; an error discards whatever it held. */
  predicate Ends(p: Process, specified: Process) {
    p == specified || (p.point == Raised && specified.point == Raised)
  }

  lemma BankStepMovesProcess(w: World, process: nat, delivery: Delivery)
    requires At(w, process, AtBankExecute) && w.processes[process].record.bankPreparation.Some?
    ensures var r := w.processes[process].record;
      var reply := CallBankExecute(w, r.executionId, r.bankPreparation.value, delivery).1;
      var w' := Step(w, ExecuteBank(process, delivery));
      process in w'.processes && w'.processes[process] == OnBankResult(r, reply)
  {
    hide CallBankExecute;
  }

  /** From a ledger answer on, two steps of the saga are what the coordinator does with the bank's replies. */
  lemma RestFollowsRun(w: World, process: nat, execute: Delivery, accepted: bool) returns (replies: Replies)
    requires process in w.processes && w.processes[process].point !in {AtResume, AtSettle}
    requires w.processes[process].point == AtBankExecute ==> w.processes[process].record.bankPreparation.Some?
    ensures var w' := Step(Step(w, ExecuteBank(process, execute)), Settle(process, accepted));
      process in w'.processes && w'.processes[process] == FromBankExecute(w.processes[process], replies)
    ensures replies.bankPrepare.Failed? && replies.ledgerPrepare.Failed? && replies.ledger.Failed?
  {
    hide CallBankExecute;
    replies := Replies(Failed, Failed, Failed, Failed, accepted);
    if At(w, process, AtBankExecute) {
      var r := w.processes[process].record;
      replies := replies.(bank := CallBankExecute(w, r.executionId, r.bankPreparation.value, execute).1);
      BankStepMovesProcess(w, process, execute);
    }
  }

  function StartSteps(
    process: nat, executionId: string, prepare: Delivery, entered: Reply<string>, answer: Reply<string>, heard: bool,
    execute: Delivery, accepted: bool): seq<Op>
  {
    [Start(process, executionId), PrepareBank(process, prepare), PrepareLedger(process, entered),
     ExecuteLedger(process, answer, heard), ExecuteBank(process, execute), Settle(process, accepted)]
  }

  /** A start process of the saga's runs, left to itself, ends where the coordinator's `start` ends. */
  lemma StartFollowsRun(
    w: World, process: nat, executionId: string, prepare: Delivery, entered: Reply<string>, answer: Reply<string>,
    heard: bool,
    execute: Delivery, accepted: bool) returns (replies: Replies)
    requires process !in w.processes
    ensures var w' := Run(w, StartSteps(process, executionId, prepare, entered, answer, heard, execute, accepted));
      process in w'.processes && w'.processes[process] == FromStart(executionId, replies)
  {
    hide Run, CallBankPrepare, CallBankExecute, LedgerAnswers;
    var ops := StartSteps(process, executionId, prepare, entered, answer, heard, execute, accepted);
    SixSteps(w, ops[0], ops[1], ops[2], ops[3], ops[4], ops[5]);
    var w1 := Step(w, ops[0]);
    var w2 := Step(w1, ops[1]);
    var w3 := Step(w2, ops[2]);
    var w4 := Step(w3, ops[3]);
    replies := RestFollowsRun(w4, process, execute, accepted);
    replies := replies.(bankPrepare := CallBankPrepare(w1, prepare).1, ledgerPrepare := entered,
                        ledger := LedgerAnswers(w3, executionId, answer, heard).1);
  }

  function ResumeSteps(
    process: nat, answer: Reply<string>, reference: nat, heard: bool, execute: Delivery, accepted: bool): seq<Op>
  {
    [Resume(process), ResumePending(process, answer, reference, heard), ExecuteBank(process, execute),
     Settle(process, accepted)]
  }

  /** What the coordinator makes of the resumed call. */
  function OnResumed(r: Record, resumed: Replies): Process
    requires r.pending.Some?
  {
    if r.pending.value.kind == LedgerCall then OnLedgerResume(r, resumed.ledger) else OnBankResume(r, resumed.bank)
  }

  lemma ResumePendingFollows(w: World, process: nat, answer: Reply<string>, reference: nat, heard: bool)
    returns (resumed: Replies)
    requires At(w, process, AtResume) && w.processes[process].record.pending.Some?
    requires SagaSafety.PendingOk(w, w.processes[process].record)
    ensures var r := w.processes[process].record;
      var w' := Step(w, ResumePending(process, answer, reference, heard));
      process in w'.processes && Ends(w'.processes[process], OnResumed(r, resumed))
  {
    hide LedgerAnswers, BankExecutes, BankPrepares, SagaSafety.PreparedRecord;
    var r := w.processes[process].record;
    var id := r.pending.value.callId;
    resumed := Replies(Failed, Failed, Failed, Failed, false);
    if id in w.parked && !answer.Blocked? {
      match w.parked[id] {
        case ParkedPrepare =>
        case ParkedLedger(x) => resumed := resumed.(ledger := LedgerAnswers(Unpark(w, id), x, answer, heard).1);
        case ParkedBank(x, p) =>
          resumed := resumed.(bank := Heard(BankExecutes(Unpark(w, id), id, x, p, reference).1, heard));
      }
    }
  }

  /** And so does a resume process, from any checkpoint a run can leave. */
  lemma ResumeFollowsRun(
    w: World, process: nat, answer: Reply<string>, reference: nat, heard: bool, execute: Delivery, accepted: bool,
    opening: map<string, Bank.Account>) returns (replies: Replies, resumed: Replies)
    requires SagaSafety.Inv(w, opening) && process !in w.processes && w.checkpoint.Some?
    ensures var w' := Run(w, ResumeSteps(process, answer, reference, heard, execute, accepted));
      process in w'.processes && Ends(w'.processes[process], FromResume(w.checkpoint.value, replies, resumed))
  {
    hide Run, SagaSafety.BankOk, SagaSafety.AnswersOk, SagaSafety.CallsOk, SagaSafety.EventsOk, SagaSafety.PendingOk,
         SagaSafety.ProcessOk, CallBankExecute, DoResumePending, DoExecuteBank, DoSettle, OnLedgerResume, OnBankResume;
    var ops := ResumeSteps(process, answer, reference, heard, execute, accepted);
    FourSteps(w, ops[0], ops[1], ops[2], ops[3]);
    var r := w.checkpoint.value;
    assert SagaSafety.PendingOk(w, r);
    var w1 := Step(w, ops[0]);
    var w2 := Step(w1, ops[1]);
    if r.pending.Some? {
      SamePending(w, w1, r);
      resumed := ResumePendingFollows(w1, process, answer, reference, heard);
      ResumedPoint(w, r, resumed);
    } else {
      resumed := Replies(Failed, Failed, Failed, Failed, false);
    }
    replies := ContinueFollowsRun(w2, process, execute, accepted);
  }

  lemma SamePending(w: World, w': World, r: Record)
    requires SagaSafety.PendingOk(w, r) && w' == w.(processes := w'.processes)
    ensures SagaSafety.PendingOk(w', r)
  {
  }

  lemma ResumedPoint(w: World, r: Record, resumed: Replies)
    requires r.pending.Some? && SagaSafety.PendingOk(w, r)
    ensures var p := OnResumed(r, resumed);
      && p.point in {Raised, Finished, AtBankExecute, AtSettle}
      && (p.point == AtBankExecute ==> r.pending.value.kind == LedgerCall && p.record.bankPreparation.Some?)
      && (p.point == AtSettle ==> r.pending.value.kind == BankCall && p.record.bankExecution.Some?)
  {
  }

  /** The last two steps, wherever the process stands. */
  lemma ContinueFollowsRun(w: World, process: nat, execute: Delivery, accepted: bool) returns (replies: Replies)
    requires process in w.processes && w.processes[process].point != AtResume
    requires w.processes[process].point == AtBankExecute ==> w.processes[process].record.bankPreparation.Some?
    requires w.processes[process].point == AtSettle ==> w.processes[process].record.bankExecution.Some?
    ensures var w' := Step(Step(w, ExecuteBank(process, execute)), Settle(process, accepted));
      && process in w'.processes
      && w'.processes[process] == FromSettle(FromBankExecute(w.processes[process], replies), replies)
  {
    hide CallBankExecute;
    if At(w, process, AtSettle) {
      replies := Replies(Failed, Failed, Failed, Failed, accepted);
    } else {
      replies := RestFollowsRun(w, process, execute, accepted);
    }
  }
}
