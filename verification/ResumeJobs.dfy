/**
 Resume jobs: the job queue and the broker together. A handler asks the broker to resume an approved call, and
 what it hears is handed to the agent run. The broker's commit, its answer and the job's end are separate.
 */
module ResumeJobs {
  import opened Contracts
  import Jobs
  import JobsSafety
  import Protocol
  import ProtocolSafety
  import ProtocolLimits

  /** What a handler run has so far: nothing, the tool's result, or a result the agent run has taken. */
  datatype Handler = Asking | Heard | Delivered

  /**
   `calls` is the payload of each resume job and `handlers` the progress of its handler runs. `asking` is the
   handler run on whose behalf a call's open resume was begun; `delivered` the calls whose result an agent run took.
   */
  datatype World = World(
    queue: Jobs.World, broker: Protocol.World, calls: map<nat, nat>, handlers: map<nat, Handler>,
    asking: map<nat, nat>, delivered: set<nat>)

  datatype Op =
    | Tick(microseconds: nat)
    | QueueDoes(op: Jobs.Op)
    | BrokerDoes(brokerOp: Protocol.Op)
    | EnqueueResume(call: nat, availableAt: int)
    | AskResume(run: nat, tool: Protocol.ToolRow, correlationId: nat)
    | AnswerResume(call: nat, reply: Protocol.Reply, heard: bool)
    | Deliver(run: nat)

  /** The run is still going, for a resume job. */
  predicate Handling(w: World, k: nat) {
    Jobs.Ongoing(w.queue, k) && k in w.handlers && w.queue.runs[k].job in w.calls
  }

  function CallOf(w: World, k: nat): nat
    requires Handling(w, k)
  {
    w.calls[w.queue.runs[k].job]
  }

  /**
   What the queue may do by itself. A handler of a resume job succeeds only once an agent run took its result, and may
   fail at any time; other handlers are not looked at. Time passes for queue and broker at once.
   */
  predicate Admitted(w: World, op: Jobs.Op) {
    match op
    case Tick(_) => false
    case Enqueue(jobType, _) => !jobType.McpResume?
    case Finish(k, ok) => ok && k in w.handlers ==> w.handlers[k] == Delivered
    case _ => true
  }

  function DoTick(w: World, microseconds: nat): World {
    w.(queue := Jobs.Step(w.queue, Jobs.Tick(microseconds)),
       broker := Protocol.Step(w.broker, Protocol.Tick(microseconds)))
  }

  function DoQueue(w: World, op: Jobs.Op): World {
    if !Admitted(w, op) then w
    else
      var queue := Jobs.Step(w.queue, op);
      var claimed := |queue.runs| > |w.queue.runs| && queue.runs[|w.queue.runs|].job in w.calls;
      w.(queue := queue, handlers := if claimed then w.handlers[|w.queue.runs| := Asking] else w.handlers)
  }

  function DoEnqueueResume(w: World, call: nat, availableAt: int): World {
    w.(queue := Jobs.Step(w.queue, Jobs.Enqueue(Jobs.McpResume, availableAt)), calls := w.calls[|w.queue.jobs| := call])
  }

  /** The handler's request reaches the broker, which locks the call or refuses. */
  function DoAsk(w: World, k: nat, tool: Protocol.ToolRow, correlationId: nat): World {
    if || !Handling(w, k) || w.handlers[k] != Asking
       || CallOf(w, k) !in w.broker.calls || CallOf(w, k) in w.broker.open
    then w
    else
      var id := CallOf(w, k);
      var broker := Protocol.Step(w.broker, Protocol.BeginResume(w.broker.calls[id].tenantId, id, tool, correlationId));
      w.(broker := broker, asking := if id in broker.open then w.asking[id := k] else w.asking)
  }

  /** The broker calls the tool and commits; the handler that asked hears of it, or does not. */
  function DoAnswer(w: World, id: nat, reply: Protocol.Reply, heard: bool): World {
    var w' := w.(broker := Protocol.Step(w.broker, Protocol.Invoke(id, reply)));
    if || !heard || !Protocol.ReadyToCall(w.broker, id) || id !in w.asking
       || !Handling(w, w.asking[id]) || CallOf(w, w.asking[id]) != id || w.handlers[w.asking[id]] != Asking
    then w'
    else w'.(handlers := w.handlers[w.asking[id] := Heard])
  }

  function DoDeliver(w: World, k: nat): World {
    if !Handling(w, k) || w.handlers[k] != Heard then w
    else w.(delivered := w.delivered + {CallOf(w, k)}, handlers := w.handlers[k := Delivered])
  }

  function Step(w: World, op: Op): World {
    match op
    case Tick(microseconds) => DoTick(w, microseconds)
    case QueueDoes(queueOp) => DoQueue(w, queueOp)
    case BrokerDoes(brokerOp) => if brokerOp.Tick? then w else w.(broker := Protocol.Step(w.broker, brokerOp))
    case EnqueueResume(call, availableAt) => DoEnqueueResume(w, call, availableAt)
    case AskResume(k, tool, correlationId) => DoAsk(w, k, tool, correlationId)
    case AnswerResume(id, reply, heard) => DoAnswer(w, id, reply, heard)
    case Deliver(k) => DoDeliver(w, k)
  }

  function Run(w: World, ops: seq<Op>): World
    decreases |ops|
  {
    if ops == [] then w else Run(Step(w, ops[0]), ops[1..])
  }

  function Start(now: int, names: map<nat, string>): World {
    World(Jobs.Start(now), Protocol.Start(now, names), map[], map[], map[], {})
  }

  // ---------------------------------------------------------------- invariant

  predicate HandlerOk(w: World, k: nat)
    requires k in w.handlers
  {
    && k < |w.queue.runs| && w.queue.runs[k].job in w.calls
    && (w.handlers[k] == Delivered ==> w.calls[w.queue.runs[k].job] in w.delivered)
  }

  predicate JobOk(w: World, j: nat)
    requires j in w.calls
  {
    j < |w.queue.jobs| && (w.queue.jobs[j].state == Jobs.Completed ==> w.calls[j] in w.delivered)
  }

  predicate RunOk(w: World, k: nat)
    requires k < |w.queue.runs|
  {
    w.queue.runs[k].job in w.calls ==> k in w.handlers
  }

  ghost predicate Inv(w: World) {
    && JobsSafety.Inv(w.queue) && ProtocolSafety.Inv(w.broker)
    && (forall k :: k in w.handlers ==> HandlerOk(w, k))
    && (forall j :: j in w.calls ==> JobOk(w, j))
    && (forall k: nat :: k < |w.queue.runs| ==> RunOk(w, k))
  }

  /** Runs keep their job, and a run that ended stays ended. */
  lemma QueueRunsStay(q: Jobs.World, op: Jobs.Op)
    ensures var q' := Jobs.Step(q, op);
      && |q.jobs| <= |q'.jobs| && |q.runs| <= |q'.runs| <= |q.runs| + 1
      && (forall k :: 0 <= k < |q.runs| ==>
            q'.runs[k].job == q.runs[k].job && (q'.runs[k].ending == Jobs.Active ==> q.runs[k].ending == Jobs.Active))
  {
    hide Jobs.Pow2;
  }

  /** A job completes in a step only by a successful handler of it. */
  lemma CompletedBy(q: Jobs.World, op: Jobs.Op, j: nat)
    requires j < |q.jobs| && q.jobs[j].state != Jobs.Completed && Jobs.Step(q, op).jobs[j].state == Jobs.Completed
    ensures op.Finish? && op.ok && Jobs.Ongoing(q, op.run) && q.runs[op.run].job == j
  {
    hide Jobs.Pow2;
  }

  lemma QueueKeepsInv(w: World, op: Jobs.Op)
    requires Inv(w)
    ensures Inv(DoQueue(w, op))
  {
    hide Jobs.Step, JobsSafety.Inv, ProtocolSafety.Inv;
    if Admitted(w, op) {
      var w' := DoQueue(w, op);
      JobsSafety.StepKeepsInv(w.queue, op);
      QueueRunsStay(w.queue, op);
      forall k | k in w'.handlers ensures HandlerOk(w', k) {
        if k in w.handlers { assert HandlerOk(w, k); }
      }
      forall j | j in w'.calls ensures JobOk(w', j) {
        assert JobOk(w, j);
        if w.queue.jobs[j].state != Jobs.Completed && w'.queue.jobs[j].state == Jobs.Completed {
          CompletedBy(w.queue, op, j);
          assert RunOk(w, op.run);
          assert HandlerOk(w, op.run);
        }
      }
      forall k: nat | k < |w'.queue.runs| ensures RunOk(w', k) {
        if k < |w.queue.runs| { assert RunOk(w, k); }
      }
    }
  }

  lemma TickKeepsInv(w: World, microseconds: nat)
    requires Inv(w)
    ensures Inv(DoTick(w, microseconds))
  {
    hide Jobs.Step, Protocol.Step, JobsSafety.Inv, ProtocolSafety.Inv;
    JobsSafety.StepKeepsInv(w.queue, Jobs.Tick(microseconds));
    ProtocolSafety.StepKeepsInv(w.broker, Protocol.Tick(microseconds));
    TickMovesNoJob(w.queue, microseconds);
    var w' := DoTick(w, microseconds);
    forall k | k in w'.handlers ensures HandlerOk(w', k) { assert HandlerOk(w, k); }
    forall j | j in w'.calls ensures JobOk(w', j) { assert JobOk(w, j); }
    forall k: nat | k < |w'.queue.runs| ensures RunOk(w', k) { assert RunOk(w, k); }
  }

  lemma TickMovesNoJob(q: Jobs.World, microseconds: nat)
    ensures var q' := Jobs.Step(q, Jobs.Tick(microseconds)); q'.jobs == q.jobs && q'.runs == q.runs
  {
  }

  lemma EnqueueKeepsInv(w: World, call: nat, availableAt: int)
    requires Inv(w)
    ensures Inv(DoEnqueueResume(w, call, availableAt))
  {
    var w' := DoEnqueueResume(w, call, availableAt);
    JobsSafety.StepKeepsInv(w.queue, Jobs.Enqueue(Jobs.McpResume, availableAt));
    forall k | k in w'.handlers ensures HandlerOk(w', k) {
      assert HandlerOk(w, k) && JobsSafety.RunOk(w.queue, k);
    }
    forall j | j in w'.calls ensures JobOk(w', j) {
      if j in w.calls { assert JobOk(w, j); }
    }
    forall k: nat | k < |w'.queue.runs| ensures RunOk(w', k) {
      assert RunOk(w, k) && JobsSafety.RunOk(w.queue, k);
    }
  }

  /** Only the broker, the asking, the handlers' progress and the deliveries moved, in order. */
  lemma ProgressKeepsInv(w: World, w': World)
    requires Inv(w) && ProtocolSafety.Inv(w'.broker) && w'.queue == w.queue && w'.calls == w.calls
    requires w.delivered <= w'.delivered && w'.handlers.Keys == w.handlers.Keys
    requires forall k :: k in w.handlers && w'.handlers[k] == Delivered ==>
      w.handlers[k] == Delivered || (HandlerOk(w, k) && w.calls[w.queue.runs[k].job] in w'.delivered)
    ensures Inv(w')
  {
    hide JobsSafety.Inv, ProtocolSafety.Inv;
    forall k | k in w'.handlers ensures HandlerOk(w', k) { assert HandlerOk(w, k); }
    forall j | j in w'.calls ensures JobOk(w', j) { assert JobOk(w, j); }
    forall k: nat | k < |w'.queue.runs| ensures RunOk(w', k) { assert RunOk(w, k); }
  }

  lemma StepKeepsInv(w: World, op: Op)
    requires Inv(w)
    ensures Inv(Step(w, op))
  {
    hide JobsSafety.Inv, ProtocolSafety.Inv, Protocol.Step, Jobs.Step;
    match op {
      case Tick(microseconds) => TickKeepsInv(w, microseconds);
      case QueueDoes(queueOp) => QueueKeepsInv(w, queueOp);
      case BrokerDoes(brokerOp) =>
        ProtocolSafety.StepKeepsInv(w.broker, brokerOp);
        ProgressKeepsInv(w, Step(w, op));
      case EnqueueResume(call, availableAt) => EnqueueKeepsInv(w, call, availableAt);
      case AskResume(k, tool, correlationId) =>
        if Handling(w, k) && CallOf(w, k) in w.broker.calls {
          var id := CallOf(w, k);
          ProtocolSafety.StepKeepsInv(
            w.broker, Protocol.BeginResume(w.broker.calls[id].tenantId, id, tool, correlationId));
        }
        ProgressKeepsInv(w, Step(w, op));
      case AnswerResume(id, reply, heard) =>
        ProtocolSafety.StepKeepsInv(w.broker, Protocol.Invoke(id, reply));
        ProgressKeepsInv(w, Step(w, op));
      case Deliver(k) =>
        if Handling(w, k) { assert HandlerOk(w, k); }
        ProgressKeepsInv(w, Step(w, op));
    }
  }

  lemma {:induction false} RunKeepsInv(w: World, ops: seq<Op>)
    requires Inv(w)
    ensures Inv(Run(w, ops))
    decreases |ops|
  {
    hide Inv, Step;
    if ops != [] {
      StepKeepsInv(w, ops[0]);
      RunKeepsInv(Step(w, ops[0]), ops[1..]);
    }
  }

  // ---------------------------------------------------------------- theorems

  /** A resume job is COMPLETED only if an agent run took the result of its call. */
  lemma CompletedMeansDelivered(now: int, names: map<nat, string>, ops: seq<Op>, j: nat)
    requires var w := Run(Start(now, names), ops);
      j in w.calls && j < |w.queue.jobs| && w.queue.jobs[j].state == Jobs.Completed
    ensures var w := Run(Start(now, names), ops); w.calls[j] in w.delivered
  {
    RunKeepsInv(Start(now, names), ops);
    assert JobOk(Run(Start(now, names), ops), j);
  }

  /** A handler that is still going holds the result of call `id`. */
  predicate Holds(w: World, k: nat, id: nat) {
    Handling(w, k) && w.handlers[k] == Heard && CallOf(w, k) == id
  }

  ghost predicate Held(w: World, id: nat) {
    exists k :: Holds(w, k, id)
  }

  /** The call has its result, no agent run has it, and no handler that is still going holds it. */
  ghost predicate Stranded(w: World, id: nat) {
    id in w.broker.results && id !in w.delivered && !Held(w, id)
  }

  lemma QueueHoldsNothingNew(w: World, op: Jobs.Op, k: nat, id: nat)
    requires Inv(w) && Holds(DoQueue(w, op), k, id)
    ensures Holds(w, k, id)
  {
    hide Jobs.Step, ProtocolSafety.Inv;
    QueueRunsStay(w.queue, op);
    if k < |w.queue.runs| { assert JobsSafety.RunOk(w.queue, k); }
  }

  lemma EnqueueHoldsNothingNew(w: World, call: nat, availableAt: int, k: nat, id: nat)
    requires Inv(w) && Holds(DoEnqueueResume(w, call, availableAt), k, id)
    ensures Holds(w, k, id)
  {
    assert HandlerOk(w, k) && JobsSafety.RunOk(w.queue, k);
  }

  lemma AnswerHoldsNothingNew(w: World, of: nat, reply: Protocol.Reply, heard: bool, k: nat, id: nat)
    requires Inv(w) && id in w.broker.results && Holds(DoAnswer(w, of, reply, heard), k, id)
    ensures Holds(w, k, id)
  {
    hide Protocol.Step, JobsSafety.Inv;
    ProtocolSafety.FinalIsNotOpen(w.broker, id);
  }

  lemma OtherHoldsNothingNew(w: World, op: Op, k: nat, id: nat)
    requires op.Tick? || op.BrokerDoes? || op.AskResume? || op.Deliver?
    requires Holds(Step(w, op), k, id)
    ensures Holds(w, k, id)
  {
    hide Protocol.Step;
  }

  lemma ResultIsClosed(w: World, id: nat)
    requires Inv(w) && id in w.broker.results
    ensures id !in w.broker.open
  {
    hide JobsSafety.Inv;
    ProtocolSafety.FinalIsNotOpen(w.broker, id);
  }

  lemma ResultStays(w: World, op: Op, id: nat)
    requires Inv(w) && id in w.broker.results
    ensures id in Step(w, op).broker.results
  {
    hide Inv, Protocol.Step, Jobs.Step;
    ResultIsClosed(w, id);
    match op {
      case Tick(microseconds) => ProtocolSafety.StepKeepsRow(w.broker, Protocol.Tick(microseconds), id);
      case BrokerDoes(brokerOp) => ProtocolSafety.StepKeepsRow(w.broker, brokerOp, id);
      case AskResume(k, tool, correlationId) =>
        if Handling(w, k) && CallOf(w, k) in w.broker.calls {
          var of := CallOf(w, k);
          ProtocolSafety.StepKeepsRow(
            w.broker, Protocol.BeginResume(w.broker.calls[of].tenantId, of, tool, correlationId), id);
        }
      case AnswerResume(of, reply, heard) => ProtocolSafety.StepKeepsRow(w.broker, Protocol.Invoke(of, reply), id);
      case _ =>
    }
  }

  lemma StepStaysStranded(w: World, op: Op, id: nat)
    requires Inv(w) && Stranded(w, id)
    ensures Stranded(Step(w, op), id)
  {
    hide Inv, Protocol.Step, Jobs.Step, DoQueue, DoEnqueueResume, DoAnswer;
    ResultStays(w, op, id);
    var w' := Step(w, op);
    forall k ensures !Holds(w', k, id) {
      if Holds(w', k, id) {
        match op {
          case QueueDoes(queueOp) => QueueHoldsNothingNew(w, queueOp, k, id);
          case EnqueueResume(call, availableAt) => EnqueueHoldsNothingNew(w, call, availableAt, k, id);
          case AnswerResume(of, reply, heard) => AnswerHoldsNothingNew(w, of, reply, heard, k, id);
          case _ => OtherHoldsNothingNew(w, op, k, id);
        }
      }
    }
    DeliveredGrows(w, op, id);
  }

  lemma DeliveredGrows(w: World, op: Op, id: nat)
    ensures id in Step(w, op).delivered && id !in w.delivered ==> op.Deliver? && Holds(w, op.run, id)
  {
    hide Protocol.Step, Jobs.Step;
  }

  lemma {:induction false} RunStaysStranded(w: World, ops: seq<Op>, id: nat)
    requires Inv(w) && Stranded(w, id)
    ensures Inv(Run(w, ops)) && Stranded(Run(w, ops), id)
    decreases |ops|
  {
    hide Inv, Stranded, Step;
    if ops != [] {
      StepKeepsInv(w, ops[0]);
      StepStaysStranded(w, ops[0], id);
      RunStaysStranded(Step(w, ops[0]), ops[1..], id);
    }
  }

  /**
   Once a call has its result, an agent run can still come to take it exactly while a handler that heard it is
   still going. If the broker's answer was lost, or the handler failed after hearing it, no retry ever helps.
   */
  lemma DeliverableExactlyWhileHeld(w: World, id: nat)
    requires Inv(w) && id in w.broker.results && id !in w.delivered
    ensures (exists ops :: id in Run(w, ops).delivered) <==> Held(w, id)
  {
    hide Inv, Run;
    if Held(w, id) {
      var k :| Holds(w, k, id);
      OneStep(w, Deliver(k));
      assert id in Run(w, [Deliver(k)]).delivered;
    } else {
      forall ops ensures id !in Run(w, ops).delivered { RunStaysStranded(w, ops, id); }
    }
  }

  /** A job of a stranded call never completes, whatever follows. */
  lemma StrandedJobsNeverComplete(w: World, ops: seq<Op>, j: nat)
    requires Inv(w) && j in w.calls && Stranded(w, w.calls[j])
    ensures var w' := Run(w, ops);
      j in w'.calls && j < |w'.queue.jobs| && w'.queue.jobs[j].state != Jobs.Completed
  {
    RunStaysStranded(w, ops, w.calls[j]);
    PayloadStays(w, ops, j);
    assert JobOk(Run(w, ops), j);
  }

  lemma {:induction false} PayloadStays(w: World, ops: seq<Op>, j: nat)
    requires Inv(w) && j in w.calls
    ensures j in Run(w, ops).calls && Run(w, ops).calls[j] == w.calls[j]
    decreases |ops|
  {
    if ops != [] {
      OneStepKeepsPayload(w, ops[0], j);
      hide Inv, Step;
      StepKeepsInv(w, ops[0]);
      PayloadStays(Step(w, ops[0]), ops[1..], j);
    }
  }

  lemma OneStepKeepsPayload(w: World, op: Op, j: nat)
    requires Inv(w) && j in w.calls
    ensures j in Step(w, op).calls && Step(w, op).calls[j] == w.calls[j]
  {
    hide JobsSafety.Inv, ProtocolSafety.Inv, Protocol.Step, Jobs.Step;
    assert JobOk(w, j);
  }

  lemma OneStep(w: World, op: Op)
    ensures Run(w, [op]) == Step(w, op)
  {
    hide Step;
    assert [op][1..] == [] && Run(Step(w, op), []) == Step(w, op);
  }

  lemma {:induction false} RunAppend(w: World, first: seq<Op>, second: seq<Op>)
    ensures Run(w, first + second) == Run(Run(w, first), second)
    decreases |first|
  {
    hide Step;
    if first == [] {
      assert first + second == second;
    } else {
      assert (first + second)[0] == first[0] && (first + second)[1..] == first[1..] + second;
      RunAppend(Step(w, first[0]), first[1..], second);
    }
  }

  // ------------------------------------------------------------- a run that strands

  function Wait(w: World, j: nat): nat
    requires j < |w.queue.jobs|
  {
    var wait := w.queue.jobs[j].availableAt - w.queue.now;
    if wait > 0 then wait else 0
  }

  /** The clock moves on to when the job is available, and a worker claims it. */
  function Claiming(w: World, j: nat): seq<Op>
    requires j < |w.queue.jobs|
  {
    [Tick(Wait(w, j)), QueueDoes(Jobs.Claim(j, 0))]
  }

  /** Nothing but the clock, the queue and the handlers moved, and job `j` runs under the newest claim. */
  ghost predicate ClaimedFrom(w: World, w': World, j: nat) {
    var k := |w.queue.runs|;
    && w'.calls == w.calls && w'.delivered == w.delivered && w'.asking == w.asking
    && j < |w.queue.jobs| == |w'.queue.jobs| && |w'.queue.runs| == k + 1
    && w'.broker == w.broker.(now := w.broker.now + Wait(w, j))
    && w'.queue.runs[k].job == j && w'.queue.runs[k].ending == Jobs.Active
    && w'.queue.jobs[j].attempts == w.queue.jobs[j].attempts + 1
    && w'.queue.jobs[j].maxAttempts == w.queue.jobs[j].maxAttempts
    && w'.handlers == w.handlers[k := Asking]
    && forall id :: Held(w', id) ==> Held(w, id)
  }

  lemma ClaimWorks(w: World, j: nat)
    requires Inv(w) && j in w.calls && j < |w.queue.jobs| && w.queue.jobs[j].state == Jobs.Available
    ensures ClaimedFrom(w, Run(w, Claiming(w, j)), j)
  {
    hide ProtocolSafety.Inv, JobsSafety.Inv;
    var ops := Claiming(w, j);
    assert ops == [ops[0]] + [ops[1]];
    RunAppend(w, [ops[0]], [ops[1]]);
    OneStep(w, ops[0]);
    var w1 := Step(w, ops[0]);
    OneStep(w1, ops[1]);
    StepKeepsInv(w, ops[0]);
    var w2 := Step(w1, ops[1]);
    forall id | Held(w2, id) ensures Held(w, id) {
      var k :| Holds(w2, k, id);
      QueueHoldsNothingNew(w1, Jobs.Claim(j, 0), k, id);
      OtherHoldsNothingNew(w, ops[0], k, id);
    }
  }

  /** The handler fails; only its job and its run change. */
  lemma FailWorks(w: World, j: nat, k: nat)
    requires Inv(w) && Jobs.Ongoing(w.queue, k) && w.queue.runs[k].job == j && k in w.handlers
    requires w.handlers[k] == Asking
    ensures var w' := Step(w, QueueDoes(Jobs.Finish(k, false)));
      && w'.broker == w.broker && w'.calls == w.calls && w'.delivered == w.delivered && w'.handlers == w.handlers
      && j < |w.queue.jobs| == |w'.queue.jobs|
      && w'.queue.jobs[j].attempts == w.queue.jobs[j].attempts
      && w'.queue.jobs[j].maxAttempts == w.queue.jobs[j].maxAttempts
      && w'.queue.jobs[j].state ==
           (if w.queue.jobs[j].attempts >= w.queue.jobs[j].maxAttempts then Jobs.Failed else Jobs.Available)
      && forall id :: Held(w', id) ==> Held(w, id)
  {
    hide ProtocolSafety.Inv, JobsSafety.Inv, Jobs.Pow2;
    var w' := Step(w, QueueDoes(Jobs.Finish(k, false)));
    forall id | Held(w', id) ensures Held(w, id) {
      var l :| Holds(w', l, id);
      QueueHoldsNothingNew(w, Jobs.Finish(k, false), l, id);
    }
  }

  /** Refused again and again, the job uses up its attempts. */
  lemma {:induction false} RetriesRunOut(w: World, j: nat) returns (ops: seq<Op>)
    requires Inv(w) && j in w.calls && j < |w.queue.jobs| && w.queue.jobs[j].state in {Jobs.Available, Jobs.Failed}
    ensures var w' := Run(w, ops);
      && j < |w'.queue.jobs| && w'.queue.jobs[j].state == Jobs.Failed
      && w'.broker == w.broker.(now := w'.broker.now) && w'.calls == w.calls && w'.delivered == w.delivered
      && forall id :: Held(w', id) ==> Held(w, id)
    decreases if w.queue.jobs[j].maxAttempts > w.queue.jobs[j].attempts
              then w.queue.jobs[j].maxAttempts - w.queue.jobs[j].attempts else 0
  {
    hide Step, Held, ProtocolSafety.Inv;
    if w.queue.jobs[j].state == Jobs.Failed {
      return [];
    }
    assert JobsSafety.JobOk(w.queue, j);
    hide JobsSafety.Inv;
    ClaimWorks(w, j);
    RunKeepsInv(w, Claiming(w, j));
    var w1 := Run(w, Claiming(w, j));
    var fail := QueueDoes(Jobs.Finish(|w.queue.runs|, false));
    FailWorks(w1, j, |w.queue.runs|);
    StepKeepsInv(w1, fail);
    var w2 := Step(w1, fail);
    OneStep(w1, fail);
    var rest := RetriesRunOut(w2, j);
    RunAppend(w1, [fail], rest);
    RunAppend(w, Claiming(w, j), [fail] + rest);
    return Claiming(w, j) + ([fail] + rest);
  }

  /** The handler's resume reaches the tool and commits, and the handler hears nothing. */
  function Unheard(w: World, k: nat, id: nat, tool: Protocol.ToolRow, reply: Protocol.Reply): seq<Op>
    requires id in w.broker.calls
  {
    [AskResume(k, tool, w.broker.calls[id].correlationId), BrokerDoes(Protocol.AuthorizeCall(id, true))]
      + [BrokerDoes(Protocol.ConsumeToken(id)), AnswerResume(id, reply, false)]
  }

  lemma TwoSteps(w: World, a: Op, b: Op)
    ensures Run(w, [a, b]) == Step(Step(w, a), b)
  {
    hide Step, Run;
    assert [a, b] == [a] + [b];
    RunAppend(w, [a], [b]);
    OneStep(w, a);
    OneStep(Step(w, a), b);
  }

  lemma UnheardCommits(w: World, k: nat, id: nat, tool: Protocol.ToolRow, reply: Protocol.Reply)
    requires Handling(w, k) && w.handlers[k] == Asking && CallOf(w, k) == id
    requires ProtocolLimits.Resumable(w.broker, id, tool)
    ensures var w' := Run(w, Unheard(w, k, id, tool, reply));
      && w'.queue == w.queue && w'.calls == w.calls && w'.delivered == w.delivered && w'.handlers == w.handlers
      && id in w'.broker.results && w'.broker.results[id] == Protocol.ResultOf(tool, reply)
  {
    var ask := AskResume(k, tool, w.broker.calls[id].correlationId);
    var grant := BrokerDoes(Protocol.AuthorizeCall(id, true));
    var spend, answer := BrokerDoes(Protocol.ConsumeToken(id)), AnswerResume(id, reply, false);
    hide ProtocolLimits.Resumable, Protocol.Step, Run;
    assert id in w.broker.calls && id !in w.broker.open by { ResumableIsWaiting(w.broker, id, tool); }
    TwoSteps(w, ask, grant);
    var w2 := Step(Step(w, ask), grant);
    TwoSteps(w2, spend, answer);
    RunAppend(w, [ask, grant], [spend, answer]);
    ProtocolLimits.ResumeReadies(w.broker, id, tool);
    var w3 := Step(w2, spend);
    InvokeStores(w3.broker, id, reply);
  }

  lemma ResumableIsWaiting(b: Protocol.World, id: nat, tool: Protocol.ToolRow)
    requires ProtocolLimits.Resumable(b, id, tool)
    ensures id in b.calls && id !in b.open
  {
  }

  lemma InvokeStores(b: Protocol.World, id: nat, reply: Protocol.Reply)
    requires Protocol.ReadyToCall(b, id)
    ensures var b' := Protocol.Step(b, Protocol.Invoke(id, reply));
      id in b'.results && b'.results[id] == Protocol.ResultOf(b.open[id].tool, reply)
  {
    hide Protocol.CallOutcome;
  }

  /**
   It happens to every approved call whose job is due: its resume commits whatever the tool answered, the answer is
   lost, and after the retries the job is FAILED with the result never taken.
   */
  lemma LostAnswerFailsTheJob(w: World, j: nat, tool: Protocol.ToolRow, reply: Protocol.Reply) returns (ops: seq<Op>)
    requires Inv(w) && j in w.calls && j < |w.queue.jobs| && Jobs.Claimable(w.queue.jobs[j], w.queue.now)
    requires var id := w.calls[j]; ProtocolLimits.Resumable(w.broker, id, tool) && id !in w.delivered && !Held(w, id)
    ensures var w' := Run(w, ops);
      var id := w.calls[j];
      && j < |w'.queue.jobs| && w'.queue.jobs[j].state == Jobs.Failed
      && id in w'.broker.results && w'.broker.results[id] == Protocol.ResultOf(tool, reply) && Stranded(w', id)
  {
    hide Step, Held, JobsSafety.Inv, ProtocolSafety.Inv, ProtocolLimits.Resumable, Protocol.ResultOf;
    var id, k := w.calls[j], |w.queue.runs|;
    ClaimWorks(w, j);
    var w1 := Run(w, Claiming(w, j));
    RunKeepsInv(w, Claiming(w, j));
    ResumableIsWaiting(w1.broker, id, tool);
    var unheard := Unheard(w1, k, id, tool, reply);
    UnheardCommits(w1, k, id, tool, reply);
    var w2 := Run(w1, unheard);
    RunKeepsInv(w1, unheard);
    SameHandlers(w1, w2, id);
    var fail := QueueDoes(Jobs.Finish(k, false));
    FailWorks(w2, j, k);
    StepKeepsInv(w2, fail);
    OneStep(w2, fail);
    var w3 := Step(w2, fail);
    var rest := RetriesRunOut(w3, j);
    RunAppend(w2, [fail], rest);
    RunAppend(w1, unheard, [fail] + rest);
    RunAppend(w, Claiming(w, j), unheard + ([fail] + rest));
    return Claiming(w, j) + (unheard + ([fail] + rest));
  }

  lemma SameHandlers(w: World, w': World, id: nat)
    requires w'.queue == w.queue && w'.calls == w.calls && w'.handlers == w.handlers
    ensures Held(w', id) ==> Held(w, id)
  {
    if Held(w', id) {
      var k :| Holds(w', k, id);
      assert Holds(w, k, id);
    }
  }
}
