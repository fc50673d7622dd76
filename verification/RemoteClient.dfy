/** The remote tool client's retry loop. */
module RemoteClient {
  import opened Contracts

  /** What one attempt meets: refused before sending, sent and failed, or sent and answered. */
  datatype Attempt = Unsent | SentFailed | Returned(projection: string)

  datatype CallOutcome = CallOutcome(sends: nat, result: Option<string>)

  // The environment scripts the attempts; one past the script is refused before sending.
  function At(attempts: seq<Attempt>, i: nat): Attempt {
    if i < |attempts| then attempts[i] else Unsent
  }

  predicate Answered(attempts: seq<Attempt>, i: nat) {
    At(attempts, i).Returned?
  }

  ghost predicate FirstAnswer(attempts: seq<Attempt>, i: nat, j: nat) {
    i <= j && Answered(attempts, j) && forall k: nat :: i <= k < j ==> !Answered(attempts, k)
  }

  /** Attempts `i..maxRetries`, stopping at the first answer. */
  function CallFrom(attempts: seq<Attempt>, i: nat, maxRetries: nat): (o: CallOutcome)
    requires i <= maxRetries
    ensures o.sends <= maxRetries - i + 1
    ensures o.result.Some? ==> o.sends >= 1
    ensures o.result.Some? <==> exists j: nat :: i <= j <= maxRetries && Answered(attempts, j)
    ensures forall j: nat :: i <= j <= maxRetries && FirstAnswer(attempts, i, j) ==>
              o.result == Some(At(attempts, j).projection)
    decreases maxRetries - i
  {
    if Answered(attempts, i) then CallOutcome(1, Some(At(attempts, i).projection))
    else
      var sent := if At(attempts, i) == SentFailed then 1 else 0;
      if i == maxRetries then CallOutcome(sent, None)
      else
        var rest := CallFrom(attempts, i + 1, maxRetries);
        CallOutcome(sent + rest.sends, rest.result)
  }

  /** The first answer at or after attempt `i`, given some answer at `j`. */
  ghost function FirstOf(attempts: seq<Attempt>, i: nat, j: nat): (first: nat)
    requires i <= j && Answered(attempts, j)
    ensures i <= first <= j && FirstAnswer(attempts, i, first)
    decreases j - i
  {
    if Answered(attempts, i) then i else FirstOf(attempts, i + 1, j)
  }

  /** The attempts `i..last` that were sent. */
  function Left(attempts: seq<Attempt>, i: nat, last: nat): set<nat> {
    set k: nat | i <= k <= last && At(attempts, k) != Unsent
  }

  lemma {:induction false} SendsAreTheAttemptsThatLeft(attempts: seq<Attempt>, i: nat, maxRetries: nat, last: nat)
    requires i <= last <= maxRetries
    requires FirstAnswer(attempts, i, last)
      || (last == maxRetries && forall k: nat :: i <= k <= last ==> !Answered(attempts, k))
    ensures CallFrom(attempts, i, maxRetries).sends == |Left(attempts, i, last)|
    decreases maxRetries - i
  {
    var here := if At(attempts, i) == Unsent then {} else {i};
    if i == last {
      assert Left(attempts, i, last) == here;
    } else {
      SendsAreTheAttemptsThatLeft(attempts, i + 1, maxRetries, last);
      assert Left(attempts, i, last) == here + Left(attempts, i + 1, last);
    }
  }

  method CallTool(maxRetries: nat, attempts: seq<Attempt>) returns (sends: nat, result: Option<string>)
    ensures CallOutcome(sends, result) == CallFrom(attempts, 0, maxRetries)
  {
    sends, result := 0, None;
    var attempt := 0;
    while attempt <= maxRetries
      invariant attempt <= maxRetries + 1
      invariant attempt <= maxRetries ==>
        var rest := CallFrom(attempts, attempt, maxRetries);
        CallFrom(attempts, 0, maxRetries) == CallOutcome(sends + rest.sends, rest.result)
      invariant attempt == maxRetries + 1 ==> CallFrom(attempts, 0, maxRetries) == CallOutcome(sends, None)
    {
      var outcome := At(attempts, attempt);
      match outcome {
        case Returned(projection) =>
          return sends + 1, Some(projection);
        case SentFailed =>
          sends := sends + 1;
        case Unsent =>
      }
      attempt := attempt + 1;
    }
  }
}
