/** Attempt bounds, exclusive handling within the lease, and the backoff bound, over whole runs of the queue. */
module JobsSafety {
  import opened Contracts
  import opened Jobs

  /** How many times a job was handed to a handler. */
  function HandOvers(runs: seq<HandlerRun>, j: nat): nat {
    if runs == [] then 0
    else HandOvers(runs[..|runs| - 1], j) + (if runs[|runs| - 1].job == j then 1 else 0)
  }

  // ------------------------------------------------------- attempts and leases

  predicate JobOk(w: World, j: nat)
    requires j < |w.jobs|
  {
    var job := w.jobs[j];
    && job.maxAttempts == MaxAttempts(job.jobType)
    && job.attempts <= job.maxAttempts
    && (job.state == Available ==> job.attempts < job.maxAttempts)
    && (job.state == Running <==> job.leaseOwner.Some?)
    && (job.state == Running <==> job.leaseExpiresAt.Some?)
    && HandOvers(w.runs, j) == job.attempts
  }

  predicate RunOk(w: World, k: nat)
    requires k < |w.runs|
  {
    var r := w.runs[k];
    r.job < |w.jobs| && 1 <= r.attempt <= w.jobs[r.job].attempts && r.claimedAt <= w.now
  }

  predicate SameClaim(a: HandlerRun, b: HandlerRun) {
    a.job == b.job && a.attempt == b.attempt
  }

  ghost predicate Inv(w: World) {
    && (forall j: nat :: j < |w.jobs| ==> JobOk(w, j))
    && (forall k: nat :: k < |w.runs| ==> RunOk(w, k))
    && (forall i, k :: 0 <= i < k < |w.runs| ==> !SameClaim(w.runs[i], w.runs[k]))
  }

  lemma HandOversAppend(runs: seq<HandlerRun>, r: HandlerRun, j: nat)
    ensures HandOvers(runs + [r], j) == HandOvers(runs, j) + (if r.job == j then 1 else 0)
  {
    assert (runs + [r])[..|runs|] == runs;
  }

  lemma {:induction false} HandOversUpdate(runs: seq<HandlerRun>, k: nat, r: HandlerRun, j: nat)
    requires k < |runs| && r.job == runs[k].job
    ensures HandOvers(runs[k := r], j) == HandOvers(runs, j)
  {
    var n := |runs| - 1;
    if k == n {
      assert runs[k := r][..n] == runs[..n];
    } else {
      assert runs[k := r][..n] == runs[..n][k := r];
      HandOversUpdate(runs[..n], k, r, j);
    }
  }

  lemma {:induction false} HandOversNone(runs: seq<HandlerRun>, j: nat)
    requires forall k :: 0 <= k < |runs| ==> runs[k].job != j
    ensures HandOvers(runs, j) == 0
  {
    if runs != [] { HandOversNone(runs[..|runs| - 1], j); }
  }

  lemma ClaimKeepsInv(w: World, j: nat, owner: nat)
    requires Inv(w) && j < |w.jobs| && Claimable(w.jobs[j], w.now)
    ensures Inv(DoClaim(w, j, owner))
  {
    var w' := DoClaim(w, j, owner);
    forall i: nat | i < |w'.jobs| ensures JobOk(w', i) {
      assert JobOk(w, i);
      HandOversAppend(w.runs, w'.runs[|w.runs|], i);
    }
    forall k: nat | k < |w'.runs| ensures RunOk(w', k) {
      if k < |w.runs| { assert RunOk(w, k); }
    }
    forall i, k | 0 <= i < k < |w'.runs| ensures !SameClaim(w'.runs[i], w'.runs[k]) {
      assert RunOk(w, i);
      if k < |w.runs| { assert !SameClaim(w.runs[i], w.runs[k]); }
    }
  }

  /** The job stays, or leaves its lease with its attempts unchanged. */
  predicate Freed(job: Job, job': Job) {
    || job' == job
    || (&& job' == job.(state := job'.state, availableAt := job'.availableAt, leaseOwner := None,
                        leaseExpiresAt := None)
        && job'.state != Running && (job'.state == Available ==> job.attempts < job.maxAttempts))
  }

  /** One run ends and its job may be freed; attempts stay. */
  lemma EndKeepsInv(w: World, w': World, k: nat)
    requires Inv(w) && k < |w.runs| == |w'.runs| && w'.now == w.now
    requires w'.runs == w.runs[k := w.runs[k].(ending := w'.runs[k].ending)]
    requires |w'.jobs| == |w.jobs|
    requires forall j: nat :: j < |w.jobs| ==> Freed(w.jobs[j], w'.jobs[j])
    ensures Inv(w')
  {
    forall j: nat | j < |w'.jobs| ensures JobOk(w', j) {
      assert JobOk(w, j);
      HandOversUpdate(w.runs, k, w'.runs[k], j);
    }
    forall i: nat | i < |w'.runs| ensures RunOk(w', i) { assert RunOk(w, i); }
    forall i, l | 0 <= i < l < |w'.runs| ensures !SameClaim(w'.runs[i], w'.runs[l]) {
      assert !SameClaim(w.runs[i], w.runs[l]);
    }
  }

  lemma EnqueueKeepsInv(w: World, job: Job)
    requires Inv(w) && job == Enqueued(job.jobType, job.availableAt)
    ensures Inv(w.(jobs := w.jobs + [job]))
  {
    var w' := w.(jobs := w.jobs + [job]);
    forall k: nat | k < |w.runs| ensures w.runs[k].job != |w.jobs| && RunOk(w', k) { assert RunOk(w, k); }
    HandOversNone(w.runs, |w.jobs|);
    forall j: nat | j < |w'.jobs| ensures JobOk(w', j) {
      if j < |w.jobs| { assert JobOk(w, j); }
    }
  }

  lemma RecoverKeepsInv(w: World, j: nat)
    requires Inv(w) && j < |w.jobs| && Expired(w.jobs[j], w.now)
    ensures Inv(w.(jobs := w.jobs[j := Recovered(w.jobs[j], w.now)]))
  {
    var w' := w.(jobs := w.jobs[j := Recovered(w.jobs[j], w.now)]);
    forall i: nat | i < |w'.jobs| ensures JobOk(w', i) { assert JobOk(w, i); }
    forall k: nat | k < |w'.runs| ensures RunOk(w', k) { assert RunOk(w, k); }
  }

  lemma StepKeepsInv(w: World, op: Op)
    requires Inv(w)
    ensures Inv(Step(w, op))
  {
    match op {
      case Tick(microseconds) =>
        var w' := Step(w, op);
        forall j: nat | j < |w'.jobs| ensures JobOk(w', j) { assert JobOk(w, j); }
        forall k: nat | k < |w'.runs| ensures RunOk(w', k) { assert RunOk(w, k); }
      case Enqueue(jobType, availableAt) => EnqueueKeepsInv(w, Enqueued(jobType, availableAt));
      case Recover(j) => if j < |w.jobs| && Expired(w.jobs[j], w.now) { RecoverKeepsInv(w, j); }
      case Claim(j, owner) => if j < |w.jobs| && Claimable(w.jobs[j], w.now) { ClaimKeepsInv(w, j, owner); }
      case Finish(k, ok) => if Ongoing(w, k) { EndKeepsInv(w, DoFinish(w, k, ok), k); }
      case Crash(k) => if Ongoing(w, k) { EndKeepsInv(w, Step(w, op), k); }
    }
  }

  lemma {:induction false} RunKeepsInv(w: World, ops: seq<Op>)
    requires Inv(w)
    ensures Inv(Run(w, ops))
    decreases |ops|
  {
    if ops != [] {
      StepKeepsInv(w, ops[0]);
      RunKeepsInv(Step(w, ops[0]), ops[1..]);
    }
  }

  /** Stale workers included: every job is handed over at most its allowed number of times, in its whole life. */
  lemma AttemptsAreBounded(now: int, ops: seq<Op>, j: nat)
    requires j < |Run(Start(now), ops).jobs|
    ensures var w := Run(Start(now), ops);
      var job := w.jobs[j];
      && HandOvers(w.runs, j) == job.attempts <= job.maxAttempts
      && job.maxAttempts == (if job.jobType == MemoryEmbed then 3 else 5)
      && (job.state == Available ==> job.attempts < job.maxAttempts)
      && (job.state == Running <==> job.leaseOwner.Some?)
  {
    RunKeepsInv(Start(now), ops);
    assert JobOk(Run(Start(now), ops), j);
  }

  // -------------------------------------------------------- within the lease

  /** No handler that is still going has outlived its lease. */
  ghost predicate Timely(w: World) {
    forall k: nat :: k < |w.runs| && w.runs[k].ending == Active ==> w.now <= w.runs[k].leaseExpiresAt
  }

  ghost predicate TimelyRun(w: World, ops: seq<Op>)
    decreases |ops|
  {
    Timely(w) && (ops != [] ==> TimelyRun(Step(w, ops[0]), ops[1..]))
  }

  /** A handler that is going holds its job: the job runs under that very claim. */
  predicate Holds(w: World, k: nat)
    requires k < |w.runs|
  {
    var r := w.runs[k];
    r.ending == Active ==>
      r.job < |w.jobs| && w.jobs[r.job].state == Running && w.jobs[r.job].attempts == r.attempt
      && w.jobs[r.job].leaseExpiresAt == Some(r.leaseExpiresAt)
  }

  ghost predicate Exclusive(w: World) {
    forall k: nat :: k < |w.runs| ==> Holds(w, k)
  }

  lemma StepKeepsExclusive(w: World, op: Op)
    requires Inv(w) && Exclusive(w) && Timely(w)
    ensures Exclusive(Step(w, op))
  {
    var w' := Step(w, op);
    forall k: nat | k < |w'.runs| ensures Holds(w', k) {
      if k < |w.runs| {
        assert Holds(w, k) && RunOk(w, k);
        if op.Finish? && Ongoing(w, op.run) && op.run != k {
          assert Holds(w, op.run);
          assert !SameClaim(w.runs[if op.run < k then op.run else k], w.runs[if op.run < k then k else op.run]);
        }
      }
    }
  }

  /** Jobs in an end state stay as they are while no handler outlives its lease. */
  lemma StepKeepsEnded(w: World, op: Op, j: nat)
    requires Inv(w) && Exclusive(w) && Timely(w)
    requires j < |w.jobs| && w.jobs[j].state in {Completed, Failed}
    ensures j < |Step(w, op).jobs| && Step(w, op).jobs[j] == w.jobs[j]
  {
    if op.Finish? && Ongoing(w, op.run) {
      assert Holds(w, op.run);
    }
  }

  lemma {:induction false} TimelyRunKeeps(w: World, ops: seq<Op>)
    requires Inv(w) && Exclusive(w) && TimelyRun(w, ops)
    ensures Inv(Run(w, ops)) && Exclusive(Run(w, ops)) && Timely(Run(w, ops))
    ensures forall j: nat :: j < |w.jobs| && w.jobs[j].state in {Completed, Failed} ==>
      j < |Run(w, ops).jobs| && Run(w, ops).jobs[j] == w.jobs[j]
    decreases |ops|
  {
    if ops != [] {
      StepKeepsInv(w, ops[0]);
      StepKeepsExclusive(w, ops[0]);
      forall j: nat | j < |w.jobs| && w.jobs[j].state in {Completed, Failed}
        ensures j < |Step(w, ops[0]).jobs| && Step(w, ops[0]).jobs[j] == w.jobs[j]
      {
        StepKeepsEnded(w, ops[0], j);
      }
      TimelyRunKeeps(Step(w, ops[0]), ops[1..]);
    }
  }

  lemma {:induction false} TimelySplit(w: World, first: seq<Op>, second: seq<Op>)
    requires TimelyRun(w, first + second)
    ensures TimelyRun(w, first) && TimelyRun(Run(w, first), second)
    ensures Run(w, first + second) == Run(Run(w, first), second)
    decreases |first|
  {
    if first == [] {
      assert first + second == second;
    } else {
      assert (first + second)[0] == first[0] && (first + second)[1..] == first[1..] + second;
      TimelySplit(Step(w, first[0]), first[1..], second);
    }
  }

  /**
   If handlers finish within their lease, COMPLETED and FAILED are final: whatever follows, the job is
   as it was; and no two handlers ever work on one job at the same time.
   */
  lemma EndStatesAreFinal(now: int, first: seq<Op>, second: seq<Op>, j: nat)
    requires TimelyRun(Start(now), first + second)
    requires j < |Run(Start(now), first).jobs| && Run(Start(now), first).jobs[j].state in {Completed, Failed}
    ensures var w := Run(Start(now), first + second);
      j < |w.jobs| && w.jobs[j] == Run(Start(now), first).jobs[j]
  {
    TimelySplit(Start(now), first, second);
    TimelyRunKeeps(Start(now), first);
    TimelyRunKeeps(Run(Start(now), first), second);
  }

  lemma HandlersNeverOverlap(now: int, ops: seq<Op>, i: nat, k: nat)
    requires TimelyRun(Start(now), ops)
    requires var w := Run(Start(now), ops);
      i < k < |w.runs| && w.runs[i].ending == Active && w.runs[k].ending == Active
    ensures var w := Run(Start(now), ops); w.runs[i].job != w.runs[k].job
  {
    TimelyRunKeeps(Start(now), ops);
    var w := Run(Start(now), ops);
    assert Holds(w, i) && Holds(w, k) && !SameClaim(w.runs[i], w.runs[k]);
  }

  // ------------------------------------------------------------ stale workers

  /** A run that ends against the state its job has already reached. */
  predicate Contradicts(w: World, op: Op, j: nat)
    requires j < |w.jobs|
  {
    && op.Finish? && Ongoing(w, op.run) && w.runs[op.run].job == j
    && (op.ok <==> w.jobs[j].state == Failed)
  }

  /** A failed job has used its attempts up. */
  ghost predicate FailedOk(w: World) {
    forall j: nat :: j < |w.jobs| && w.jobs[j].state == Failed ==> w.jobs[j].attempts == w.jobs[j].maxAttempts
  }

  lemma StepKeepsFailed(w: World, op: Op, j: nat)
    requires FailedOk(w) && j < |Step(w, op).jobs| && (j < |w.jobs| ==> JobOk(w, j))
    ensures var job := Step(w, op).jobs[j]; job.state == Failed ==> job.attempts == job.maxAttempts
  {
    hide HandOvers, Pow2;
  }

  lemma {:induction false} RunKeepsFailed(w: World, ops: seq<Op>)
    requires Inv(w) && FailedOk(w)
    ensures Inv(Run(w, ops)) && FailedOk(Run(w, ops))
    decreases |ops|
  {
    hide JobOk, RunOk, Step;
    if ops != [] {
      StepKeepsInv(w, ops[0]);
      forall j: nat | j < |Step(w, ops[0]).jobs|
        ensures var job := Step(w, ops[0]).jobs[j]; job.state == Failed ==> job.attempts == job.maxAttempts
      {
        StepKeepsFailed(w, ops[0], j);
      }
      RunKeepsFailed(Step(w, ops[0]), ops[1..]);
    }
  }

  /** With stale workers an end state is left exactly by a handler still going whose outcome contradicts it. */
  lemma EndStateIsLeftExactlyByStaleFinish(now: int, ops: seq<Op>, op: Op, j: nat)
    requires var w := Run(Start(now), ops); j < |w.jobs| && w.jobs[j].state in {Completed, Failed}
    ensures var w := Run(Start(now), ops);
      j < |Step(w, op).jobs| && (Step(w, op).jobs[j].state != w.jobs[j].state <==> Contradicts(w, op, j))
  {
    RunKeepsFailed(Start(now), ops);
    assert JobOk(Run(Start(now), ops), j);
  }

  lemma RunSnoc(w: World, ops: seq<Op>, op: Op)
    ensures Run(w, ops + [op]) == Step(Run(w, ops), op)
    decreases |ops|
  {
    if ops == [] {
      assert Run(Step(w, op), []) == Step(w, op);
    } else {
      assert (ops + [op])[1..] == ops[1..] + [op];
      RunSnoc(Step(w, ops[0]), ops[1..], op);
    }
  }

  /** It does happen: a worker that overran its lease fails, and a completed job is available again. */
  lemma StaleFailureReopens()
    ensures exists ops: seq<Op>, op: Op ::
      var w := Run(Start(0), ops);
      |w.jobs| == 1 && w.jobs[0].state == Completed && Step(w, op).jobs[0].state == Available
  {
    var o1 := [] + [Enqueue(AgentRun, 0)];
    var o2 := o1 + [Claim(0, 1)];
    var o3 := o2 + [Tick(LEASE + 1)];
    var o4 := o3 + [Recover(0)];
    var o5 := o4 + [Claim(0, 2)];
    var o6 := o5 + [Finish(1, true)];
    RunSnoc(Start(0), [], Enqueue(AgentRun, 0));
    RunSnoc(Start(0), o1, Claim(0, 1));
    RunSnoc(Start(0), o2, Tick(LEASE + 1));
    RunSnoc(Start(0), o3, Recover(0));
    RunSnoc(Start(0), o4, Claim(0, 2));
    RunSnoc(Start(0), o5, Finish(1, true));
    var w := Run(Start(0), o6);
    assert |w.runs| == 2 && w.runs[0].ending == Active;
    assert Step(w, Finish(0, false)).jobs[0].state == Available;
  }

  // ----------------------------------------------------------------- backoff

  /** 2^n - 2 seconds, what n failures in a row add up to after the first. */
  function Waited(n: nat): int {
    (Pow2(n) - 2) * SECOND
  }

  predicate FirstRun(w: World, a: nat, j: nat) {
    a < |w.runs| && w.runs[a].job == j && w.runs[a].attempt == 1
  }

  /** A claim before the current one failed; so did the current one if the job is available again. */
  predicate FailedBefore(w: World, k: nat, j: nat)
    requires j < |w.jobs| && k < |w.runs|
  {
    var r, job := w.runs[k], w.jobs[j];
    r.job == j ==>
      && (r.attempt < job.attempts || job.state == Available ==> r.ending.FailedAt?)
      && (r.ending.Active? ==> job.state == Running)
  }

  /** Claim `b` came late enough after the failure of the first claim `a`. */
  predicate Late(w: World, a: nat, b: nat)
    requires a < |w.runs| && b < |w.runs|
  {
    w.runs[b].attempt >= 2 ==>
      w.runs[a].ending.FailedAt? && w.runs[b].claimedAt >= w.runs[a].ending.at + Waited(w.runs[b].attempt)
  }

  ghost predicate Spaced(w: World, j: nat)
    requires j < |w.jobs|
  {
    && (forall k: nat :: k < |w.runs| ==> FailedBefore(w, k, j))
    && (forall a: nat, b: nat :: FirstRun(w, a, j) && b < |w.runs| && w.runs[b].job == j ==> Late(w, a, b))
    && (w.jobs[j].state == Available ==> forall a: nat :: FirstRun(w, a, j) ==> NextLate(w, a, j))
  }

  /** The next claim of an available job cannot come too early. */
  predicate NextLate(w: World, a: nat, j: nat)
    requires a < |w.runs| && j < |w.jobs|
  {
    w.runs[a].ending.FailedAt? && w.jobs[j].availableAt >= w.runs[a].ending.at + Waited(w.jobs[j].attempts + 1)
  }

  lemma ClaimSpaced(w: World, i: nat, owner: nat, j: nat)
    requires Inv(w) && i < |w.jobs| && j < |w.jobs| && Claimable(w.jobs[i], w.now) && Spaced(w, j)
    ensures Spaced(DoClaim(w, i, owner), j)
  {
    var w' := DoClaim(w, i, owner);
    forall k: nat | k < |w'.runs| ensures FailedBefore(w', k, j) {
      if k < |w.runs| { assert FailedBefore(w, k, j) && RunOk(w, k); }
    }
    forall a: nat, b: nat | FirstRun(w', a, j) && b < |w'.runs| && w'.runs[b].job == j ensures Late(w', a, b) {
      if a < |w.runs| {
        assert FirstRun(w, a, j);
        if b < |w.runs| { assert Late(w, a, b); } else { assert NextLate(w, a, j); }
      } else if b < |w.runs| {
        assert RunOk(w, b);
      }
    }
    if w'.jobs[j].state == Available {
      forall a: nat | FirstRun(w', a, j) ensures NextLate(w', a, j) {
        assert FirstRun(w, a, j) && NextLate(w, a, j);
      }
    }
  }

  lemma FailSpaced(w: World, k: nat, j: nat)
    requires Inv(w) && Ongoing(w, k) && j < |w.jobs| && Spaced(w, j)
    ensures Spaced(DoFinish(w, k, false), j)
  {
    var w' := DoFinish(w, k, false);
    assert FailedBefore(w, k, j) && RunOk(w, k);
    forall l: nat | l < |w'.runs| ensures FailedBefore(w', l, j) {
      assert FailedBefore(w, l, j) && RunOk(w, l);
      if l != k { assert !SameClaim(w.runs[if l < k then l else k], w.runs[if l < k then k else l]); }
    }
    forall a: nat, b: nat | FirstRun(w', a, j) && b < |w'.runs| && w'.runs[b].job == j ensures Late(w', a, b) {
      assert FirstRun(w, a, j) && Late(w, a, b) && RunOk(w, b);
      assert FailedBefore(w, a, j);
    }
    if w'.jobs[j].state == Available {
      forall a: nat | FirstRun(w', a, j) ensures NextLate(w', a, j) {
        assert FirstRun(w, a, j);
        if w.runs[k].job == j {
          assert Late(w, a, k);
          assert Pow2(w.jobs[j].attempts + 1) == 2 * Pow2(w.jobs[j].attempts);
        } else {
          assert NextLate(w, a, j);
        }
      }
    }
  }

  /** Run `k` ends without `_fail`, so the job is not available afterwards. */
  lemma OtherEndSpaced(w: World, w': World, k: nat, j: nat)
    requires Inv(w) && Ongoing(w, k) && j < |w.jobs| && Spaced(w, j) && |w'.jobs| == |w.jobs| && |w'.runs| == |w.runs|
    requires w'.now == w.now && w'.runs == w.runs[k := w'.runs[k]]
    requires w'.runs[k] == w.runs[k].(ending := w'.runs[k].ending) && w'.runs[k].ending != Active
    requires w'.jobs[j] == w.jobs[j] || (w.runs[k].job == j && w'.jobs[j] == Finished(w.jobs[j]))
    ensures Spaced(w', j)
  {
    assert FailedBefore(w, k, j) && RunOk(w, k);
    forall l: nat | l < |w'.runs| ensures FailedBefore(w', l, j) {
      assert FailedBefore(w, l, j) && RunOk(w, l);
      if l != k { assert !SameClaim(w.runs[if l < k then l else k], w.runs[if l < k then k else l]); }
    }
    forall a: nat, b: nat | FirstRun(w', a, j) && b < |w'.runs| && w'.runs[b].job == j ensures Late(w', a, b) {
      assert FirstRun(w, a, j) && Late(w, a, b) && RunOk(w, b);
      assert FailedBefore(w, a, j);
    }
    if w'.jobs[j].state == Available {
      forall a: nat | FirstRun(w', a, j) ensures NextLate(w', a, j) {
        assert FirstRun(w, a, j) && NextLate(w, a, j);
      }
    }
  }

  lemma StepSpaced(w: World, op: Op, j: nat)
    requires Inv(w) && j < |w.jobs| && Spaced(w, j) && op != Recover(j)
    ensures Spaced(Step(w, op), j)
  {
    match op {
      case Claim(i, owner) => if i < |w.jobs| && Claimable(w.jobs[i], w.now) { ClaimSpaced(w, i, owner, j); }
      case Finish(k, ok) =>
        if Ongoing(w, k) {
          if ok { OtherEndSpaced(w, DoFinish(w, k, ok), k, j); } else { FailSpaced(w, k, j); }
        }
      case Crash(k) => if Ongoing(w, k) { OtherEndSpaced(w, Step(w, op), k, j); }
      case _ => SameSpaced(w, Step(w, op), j);
    }
  }

  lemma SameSpaced(w: World, w': World, j: nat)
    requires j < |w.jobs| <= |w'.jobs| && Spaced(w, j) && w'.runs == w.runs && w'.jobs[j] == w.jobs[j]
    ensures Spaced(w', j)
  {
    forall k: nat | k < |w'.runs| ensures FailedBefore(w', k, j) { assert FailedBefore(w, k, j); }
    forall a: nat, b: nat | FirstRun(w', a, j) && b < |w'.runs| && w'.runs[b].job == j ensures Late(w', a, b) {
      assert FirstRun(w, a, j) && Late(w, a, b);
    }
    if w'.jobs[j].state == Available {
      forall a: nat | FirstRun(w', a, j) ensures NextLate(w', a, j) {
        assert FirstRun(w, a, j) && NextLate(w, a, j);
      }
    }
  }

  lemma {:induction false} RunSpaced(w: World, ops: seq<Op>, j: nat)
    requires Inv(w) && (j < |w.jobs| ==> Spaced(w, j)) && Recover(j) !in ops
    ensures j < |Run(w, ops).jobs| ==> Spaced(Run(w, ops), j)
    decreases |ops|
  {
    hide Spaced;
    if ops != [] {
      StepKeepsInv(w, ops[0]);
      if j < |w.jobs| { StepSpaced(w, ops[0], j); } else { UnclaimedSpaced(w, ops[0], j); }
      RunSpaced(Step(w, ops[0]), ops[1..], j);
    }
  }

  lemma UnclaimedSpaced(w: World, op: Op, j: nat)
    requires Inv(w) && j >= |w.jobs|
    ensures j < |Step(w, op).jobs| ==> Spaced(Step(w, op), j)
  {
    var w' := Step(w, op);
    if j < |w'.jobs| {
      forall k: nat | k < |w'.runs| ensures w'.runs[k].job != j { assert RunOk(w, k); }
    }
  }

  /**
   As long as the lease of a job never runs out, its k-th claim, k at least 2, comes 2^k - 2 seconds or more
   after the failure of its first.
   */
  lemma BackoffBound(now: int, ops: seq<Op>, j: nat, a: nat, b: nat)
    requires Recover(j) !in ops
    requires var w := Run(Start(now), ops);
      && j < |w.jobs| && a < |w.runs| && b < |w.runs| && w.runs[a].job == w.runs[b].job == j
      && w.runs[a].attempt == 1 && w.runs[b].attempt >= 2
    ensures var w := Run(Start(now), ops);
      && w.runs[a].ending.FailedAt?
      && w.runs[b].claimedAt >= w.runs[a].ending.at + (Pow2(w.runs[b].attempt) - 2) * SECOND
  {
    RunSpaced(Start(now), ops, j);
    var w := Run(Start(now), ops);
    assert FirstRun(w, a, j) && Late(w, a, b);
  }
}
