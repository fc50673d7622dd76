/** The worker's transactions on the job table. */
module JobQueue {
  import opened Contracts
  import opened Jobs

  class Queue {
    var jobs: seq<Job>
    ghost var runs: seq<HandlerRun>

    constructor ()
      ensures forall now :: Model(now) == Start(now)
    {
      jobs, runs := [], [];
    }

    ghost function Model(now: int): World
      reads this
    {
      World(now, jobs, runs)
    }

    method Put(jobType: JobType, availableAt: int)
      modifies this`jobs
      ensures forall now :: Model(now) == Step(old(Model(now)), Enqueue(jobType, availableAt))
    {
      jobs := jobs + [Job(jobType, Available, 0, if jobType == MemoryEmbed then 3 else 5, availableAt, None, None)];
    }

    /** The job whose lease ran out first, if any, leaves its lease. */
    method RecoverExpiredLease(now: int) returns (found: Option<nat>)
      modifies this`jobs
      ensures found.None? ==> jobs == old(jobs) && forall i :: 0 <= i < |jobs| ==> !Expired(jobs[i], now)
      ensures found.Some? ==>
        && found.value < |old(jobs)| && Expired(old(jobs)[found.value], now)
        && (forall i :: 0 <= i < |old(jobs)| && Expired(old(jobs)[i], now) ==>
              old(jobs)[found.value].leaseExpiresAt.value <= old(jobs)[i].leaseExpiresAt.value)
        && Model(now) == Step(old(Model(now)), Recover(found.value))
    {
      found := None;
      for k := 0 to |jobs|
        invariant found.Some? ==> found.value < k && Expired(jobs[found.value], now)
        invariant forall i :: 0 <= i < k && Expired(jobs[i], now) ==>
          found.Some? && jobs[found.value].leaseExpiresAt.value <= jobs[i].leaseExpiresAt.value
      {
        if Expired(jobs[k], now)
           && (found.None? || jobs[k].leaseExpiresAt.value < jobs[found.value].leaseExpiresAt.value)
        {
          found := Some(k);
        }
      }
      if found.Some? {
        var job := jobs[found.value];
        job := job.(state := if job.attempts < job.maxAttempts then Available else Failed);
        job := job.(availableAt := now);
        job := job.(leaseOwner := None, leaseExpiresAt := None);
        jobs := jobs[found.value := job];
      }
    }

    /** The job that has been available longest, if any, is claimed; its handler starts. */
    method ClaimNext(owner: nat, now: int) returns (found: Option<nat>)
      modifies this
      ensures found.None? ==> jobs == old(jobs) && runs == old(runs) && forall i :: 0 <= i < |jobs| ==>
          !Claimable(jobs[i], now)
      ensures found.Some? ==>
        && found.value < |old(jobs)| && Claimable(old(jobs)[found.value], now)
        && (forall i :: 0 <= i < |old(jobs)| && Claimable(old(jobs)[i], now) ==>
              old(jobs)[found.value].availableAt <= old(jobs)[i].availableAt)
        && Model(now) == Step(old(Model(now)), Claim(found.value, owner))
    {
      found := None;
      for k := 0 to |jobs|
        invariant found.Some? ==> found.value < k && Claimable(jobs[found.value], now)
        invariant forall i :: 0 <= i < k && Claimable(jobs[i], now) ==>
          found.Some? && jobs[found.value].availableAt <= jobs[i].availableAt
      {
        if Claimable(jobs[k], now) && (found.None? || jobs[k].availableAt < jobs[found.value].availableAt) {
          found := Some(k);
        }
      }
      if found.Some? {
        var job := jobs[found.value];
        job := job.(state := Running);
        job := job.(leaseOwner := Some(owner));
        job := job.(leaseExpiresAt := Some(now + LEASE));
        job := job.(attempts := job.attempts + 1);
        jobs := jobs[found.value := job];
        runs := runs + [HandlerRun(found.value, job.attempts, now, now + LEASE, Active)];
      }
    }

    /** The handler of run `k` came to an end; nothing checks that its claim still stands. */
    method Report(ghost k: nat, j: nat, ok: bool, now: int)
      requires Ongoing(Model(now), k) && runs[k].job == j
      modifies this
      ensures Model(now) == Step(old(Model(now)), Finish(k, ok))
    {
      if ok {
        jobs := jobs[j := jobs[j].(state := Completed, leaseOwner := None, leaseExpiresAt := None)];
      } else {
        Fail(j, now);
      }
      runs := runs[k := runs[k].(ending := if ok then Succeeded(now) else FailedAt(now))];
    }

    method Fail(j: nat, now: int)
      requires j < |jobs|
      modifies this`jobs
      ensures jobs == old(jobs)[j := Backed(old(jobs)[j], now)]
    {
      var job := jobs[j];
      job := job.(leaseOwner := None);
      job := job.(leaseExpiresAt := None);
      if job.attempts >= job.maxAttempts {
        job := job.(state := Failed);
      } else {
        job := job.(state := Available);
        job := job.(availableAt := now + Pow2(job.attempts) * SECOND);
      }
      jobs := jobs[j := job];
    }
  }
}
