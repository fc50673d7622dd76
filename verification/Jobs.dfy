/** The leased job queue: workers claim, finish, fail, crash and outlive their leases. */
module Jobs {
  import opened Contracts

  const LEASE: int := 5 * MINUTE

  datatype JobType = AgentRun | McpResume | MemoryEmbed

  datatype JobState = Available | Running | Completed | Failed

  datatype Job = Job(
    jobType: JobType, state: JobState, attempts: nat, maxAttempts: nat, availableAt: int,
    leaseOwner: Option<nat>, leaseExpiresAt: Option<int>)

  /** How one handler run ended, if it has; a crashed worker reports nothing. */
  datatype Ending = Active | Succeeded(at: int) | FailedAt(at: int) | Crashed

  /** One hand-over of a job to a handler; `attempt` counts the job's claims. */
  datatype HandlerRun = HandlerRun(job: nat, attempt: nat, claimedAt: int, leaseExpiresAt: int, ending: Ending)

  /** `runs` is history: the claims in order. */
  datatype World = World(now: int, jobs: seq<Job>, runs: seq<HandlerRun>)

  function Pow2(n: nat): (r: nat)
    ensures r >= 1
  {
    if n == 0 then 1 else 2 * Pow2(n - 1)
  }

  function MaxAttempts(jobType: JobType): nat {
    if jobType == MemoryEmbed then 3 else 5
  }

  // ------------------------------------------------- one job, one transaction

  function Enqueued(jobType: JobType, availableAt: int): Job {
    Job(jobType, Available, 0, MaxAttempts(jobType), availableAt, None, None)
  }

  predicate Expired(job: Job, now: int) {
    job.state == Running && job.leaseExpiresAt.Some? && job.leaseExpiresAt.value < now
  }

  function Recovered(job: Job, now: int): Job {
    job.(state := if job.attempts < job.maxAttempts then Available else Failed,
         availableAt := now, leaseOwner := None, leaseExpiresAt := None)
  }

  predicate Claimable(job: Job, now: int) {
    job.state == Available && job.availableAt <= now
  }

  function Claimed(job: Job, owner: nat, now: int): Job {
    job.(state := Running, leaseOwner := Some(owner), leaseExpiresAt := Some(now + LEASE), attempts := job.attempts + 1)
  }

  function Finished(job: Job): Job {
    job.(state := Completed, leaseOwner := None, leaseExpiresAt := None)
  }

  /** `_fail`: retried after 2^attempts seconds, unless the attempts are used up. */
  function Backed(job: Job, now: int): Job {
    var freed := job.(leaseOwner := None, leaseExpiresAt := None);
    if job.attempts >= job.maxAttempts then freed.(state := Failed)
    else freed.(state := Available, availableAt := now + Pow2(job.attempts) * SECOND)
  }

  // -------------------------------------------------------------------- steps

  datatype Op =
    | Tick(microseconds: nat)
    | Enqueue(jobType: JobType, availableAt: int)
    | Recover(job: nat)
    | Claim(job: nat, owner: nat)
    | Finish(run: nat, ok: bool)
    | Crash(run: nat)

  /** A run that is still going may end at any time, its lease expired or not. */
  predicate Ongoing(w: World, k: nat) {
    k < |w.runs| && w.runs[k].ending == Active && w.runs[k].job < |w.jobs|
  }

  function DoClaim(w: World, j: nat, owner: nat): World
    requires j < |w.jobs|
  {
    var job := Claimed(w.jobs[j], owner, w.now);
    w.(jobs := w.jobs[j := job],
       runs := w.runs + [HandlerRun(j, job.attempts, w.now, w.now + LEASE, Active)])
  }

  function DoFinish(w: World, k: nat, ok: bool): World
    requires Ongoing(w, k)
  {
    var j := w.runs[k].job;
    var job := w.jobs[j];
    w.(jobs := w.jobs[j := if ok then Finished(job) else Backed(job, w.now)],
       runs := w.runs[k := w.runs[k].(ending := if ok then Succeeded(w.now) else FailedAt(w.now))])
  }

  function Step(w: World, op: Op): World {
    match op
    case Tick(microseconds) => w.(now := w.now + microseconds)
    case Enqueue(jobType, availableAt) => w.(jobs := w.jobs + [Enqueued(jobType, availableAt)])
    case Recover(j) =>
      if j < |w.jobs| && Expired(w.jobs[j], w.now) then w.(jobs := w.jobs[j := Recovered(w.jobs[j], w.now)]) else w
    case Claim(j, owner) => if j < |w.jobs| && Claimable(w.jobs[j], w.now) then DoClaim(w, j, owner) else w
    case Finish(k, ok) => if Ongoing(w, k) then DoFinish(w, k, ok) else w
    case Crash(k) => if Ongoing(w, k) then w.(runs := w.runs[k := w.runs[k].(ending := Crashed)]) else w
  }

  function Run(w: World, ops: seq<Op>): World
    decreases |ops|
  {
    if ops == [] then w else Run(Step(w, ops[0]), ops[1..])
  }

  function Start(now: int): World {
    World(now, [], [])
  }
}
