/** What each transaction of the queue does to its one job, and how often each kind of job is handed over. */
module JobsRules {
  import opened Contracts
  import opened Jobs

  /** Only job `j` may differ, and of it only what a claim, a recovery or an end writes. */
  predicate OnlyJob(w: World, w': World, j: nat) {
    && w'.now == w.now && j < |w.jobs| == |w'.jobs|
    && (forall i :: 0 <= i < |w.jobs| && i != j ==> w'.jobs[i] == w.jobs[i])
    && w'.jobs[j].jobType == w.jobs[j].jobType && w'.jobs[j].maxAttempts == w.jobs[j].maxAttempts
  }

  /** A job is claimed exactly when it waits and is due; the claim is counted and leased for five minutes. */
  lemma ClaimsExactly(w: World, j: nat, owner: nat)
    ensures var w' := Step(w, Claim(j, owner));
      && (w' != w <==> j < |w.jobs| && w.jobs[j].state == Available && w.jobs[j].availableAt <= w.now)
      && (w' != w ==>
            && OnlyJob(w, w', j) && w'.jobs[j].state == Running && w'.jobs[j].leaseOwner == Some(owner)
            && w'.jobs[j].leaseExpiresAt == Some(w.now + 5 * MINUTE)
            && w'.jobs[j].attempts == w.jobs[j].attempts + 1 && w'.jobs[j].availableAt == w.jobs[j].availableAt
            && w'.runs == w.runs
                 + [HandlerRun(j, w.jobs[j].attempts + 1, w.now, w.now + 5 * MINUTE, Ending.Active)])
  {
  }

  /** A lease is taken back exactly once it has run out; the job waits again at once, or has failed for good. */
  lemma RecoversExactly(w: World, j: nat)
    ensures var w' := Step(w, Recover(j));
      && (w' != w <==>
            && j < |w.jobs| && w.jobs[j].state == Running
            && w.jobs[j].leaseExpiresAt.Some? && w.jobs[j].leaseExpiresAt.value < w.now)
      && (w' != w ==>
            && OnlyJob(w, w', j) && w'.runs == w.runs && w'.jobs[j].attempts == w.jobs[j].attempts
            && w'.jobs[j].state == (if w.jobs[j].attempts < w.jobs[j].maxAttempts then Available else Failed)
            && w'.jobs[j].availableAt == w.now
            && w'.jobs[j].leaseOwner == None && w'.jobs[j].leaseExpiresAt == None)
  {
  }

  /** A handler still going ends as it reports, and its job with it: done, failed for good, or waiting 2^attempts s. */
  lemma EndsExactly(w: World, k: nat, ok: bool)
    ensures var w' := Step(w, Finish(k, ok));
      && (w' != w <==> k < |w.runs| && w.runs[k].ending == Ending.Active && w.runs[k].job < |w.jobs|)
      && (w' != w ==>
            var j := w.runs[k].job;
            && OnlyJob(w, w', j) && |w'.runs| == |w.runs|
            && w'.runs[k] == w.runs[k].(ending := if ok then Ending.Succeeded(w.now) else Ending.FailedAt(w.now))
            && (forall i :: 0 <= i < |w.runs| && i != k ==> w'.runs[i] == w.runs[i])
            && w'.jobs[j].attempts == w.jobs[j].attempts
            && w'.jobs[j].leaseOwner == None && w'.jobs[j].leaseExpiresAt == None
            && w'.jobs[j].state == (if ok then Completed else if w.jobs[j].attempts >= w.jobs[j].maxAttempts then Failed
                                    else Available)
            && w'.jobs[j].availableAt ==
                 (if ok || w.jobs[j].attempts >= w.jobs[j].maxAttempts then w.jobs[j].availableAt
                  else w.now + Pow2(w.jobs[j].attempts) * SECOND))
  {
    if Ongoing(w, k) {
      assert Step(w, Finish(k, ok)).runs[k].ending != Ending.Active;
    }
  }

  /** A crash leaves the job to its lease. */
  lemma CrashesLeaveTheLease(w: World, k: nat)
    ensures var w' := Step(w, Crash(k));
      w'.jobs == w.jobs && w'.now == w.now && |w'.runs| == |w.runs|
      && forall i :: 0 <= i < |w.runs| ==>
           w'.runs[i] == w.runs[i] || (i == k && w'.runs[i] == w.runs[i].(ending := Ending.Crashed))
  {
  }
}
