/** When each of the bank's requests writes, and which row it then writes, told from the rows alone. */
module BankRules {
  import opened Contracts
  import opened Money
  import opened Sums
  import opened Bank
  import opened BankSafety

  // ------------------------------------------------------------------- rows

  /** The caller's own active account. */
  predicate Own(s: State, scope: RuntimeScope, token: string) {
    && token in s.accounts
    && var a := s.accounts[token];
       a.tenantId == scope.tenantId && a.userId == scope.userId && a.active
  }

  /** A beneficiary of the caller's tenant that may be paid. */
  predicate Trusted(s: State, scope: RuntimeScope, token: string) {
    && token in s.beneficiaries
    && var b := s.beneficiaries[token];
       b.tenantId == scope.tenantId && b.verified && b.active
  }

  /** Ids that evidence must not repeat. */
  predicate FreshIds(s: State, scope: RuntimeScope, executionId: string, reference: nat) {
    && (forall e :: e in s.executions ==> e.reference != reference)
    && (forall e :: e in s.executions && e.tenantId == scope.tenantId ==>
          e.executionId != executionId && e.callId != scope.callId)
  }

  /**
   Everything a first execution needs. Nothing is said of the daily and per-transfer limits: a live preparation
   already keeps them.
   */
  predicate Due(s: State, scope: RuntimeScope, actionId: nat, hash: TransferHash, now: int) {
    && actionId < |s.prepared| && Waiting(s.prepared[actionId], now) && s.prepared[actionId].action == hash
    && hash.tenantId == scope.tenantId && hash.userId == scope.userId
    && Own(s, scope, hash.source) && Trusted(s, scope, hash.beneficiary)
    && hash.amount <= s.accounts[hash.source].available
  }

  lemma LiveFitsCapacity(s: State, i: nat, now: int)
    requires PreparedRowsOk(s) && LimitsOk(s, now) && i < |s.prepared| && Waiting(s.prepared[i], now)
    ensures var p := s.prepared[i];
      HasCapacity(s, p.action.source, p.action.amount, now, Some(i)) <==>
        p.action.amount <= s.accounts[p.action.source].available
  {
    var p := s.prepared[i];
    assert PreparedOk(s, p) && p in s.prepared;
    assert WithinLimits(s, p.action.source, now);
  }

  lemma ReadyIsUnexecuted(s: State, scope: RuntimeScope, actionId: nat)
    requires ExecutionRowsOk(s) && actionId < |s.prepared| && s.prepared[actionId].status == Ready
    ensures First(s.executions, ExecutionByAction(scope.tenantId, actionId)).None?
  {
    var found := First(s.executions, ExecutionByAction(scope.tenantId, actionId));
    assert found.Some? ==> ExecutionOk(s, s.executions[found.value]);
  }

  lemma FreshIdsMean(s: State, scope: RuntimeScope, executionId: string, reference: nat)
    ensures FreshIds(s, scope, executionId, reference) <==>
      && First(s.executions, ExecutionById(scope.tenantId, executionId)).None?
      && First(s.executions, ExecutionByCall(scope.tenantId, scope.callId)).None?
      && First(s.executions, ExecutionByReference(reference)).None?
  {
    var byId, byCall := ExecutionById(scope.tenantId, executionId), ExecutionByCall(scope.tenantId, scope.callId);
    var byReference := ExecutionByReference(reference);
    if && First(s.executions, byId).None? && First(s.executions, byCall).None?
       && First(s.executions, byReference).None?
    {
      forall e | e in s.executions
        ensures e.reference != reference
        ensures e.tenantId == scope.tenantId ==> e.executionId != executionId && e.callId != scope.callId
      {
        assert !byId(e) && !byCall(e) && !byReference(e);
      }
    }
  }

  // -------------------------------------------------------------- transfers

  /** What the first execution of an action writes: one row of evidence, one posting and two ledger lines. */
  ghost predicate Paid(
    s: State, s': State, scope: RuntimeScope, actionId: nat, hash: TransferHash, executionId: string, reference: nat)
    requires actionId < |s.prepared|
  {
    && s'.executions == s.executions
         + [Execution(executionId, scope.tenantId, actionId, hash, scope.callId, hash.amount, reference)]
    && s'.prepared == s.prepared[actionId := s.prepared[actionId].(status := Settled)]
    && s'.transactions == s.transactions + [Transaction(hash.source, Debit, hash.amount)]
    && s'.ledger == s.ledger + [LedgerEntry(|s.executions|, 1, Debit, hash.amount),
                                LedgerEntry(|s.executions|, 2, Credit, hash.amount)]
    && s'.beneficiaries == s.beneficiaries && s'.holds == s.holds && s'.reversals == s.reversals
    && (forall t :: t in s.accounts && t != hash.source ==> t in s'.accounts && s'.accounts[t] == s.accounts[t])
  }

  /** A new execution appears exactly for a due action under fresh ids, and says exactly what was prepared. */
  lemma ExecutesExactly(
    s: State, opening: map<string, Account>, scope: RuntimeScope, actionId: nat, hash: TransferHash,
    executionId: string, reference: nat, now: int)
    requires Inv(s, now, opening)
    ensures var s' := Step(Clocked(s, now), DoExecute(scope, actionId, hash, executionId, reference)).state;
      && (s' != s <==> Due(s, scope, actionId, hash, now) && FreshIds(s, scope, executionId, reference))
      && (s' != s ==> Paid(s, s', scope, actionId, hash, executionId, reference))
  {
    hide Sum, First, BalancesOk, SettledOk, ReversalRowsOk, HoldRowsOk, LedgerOk, HasCapacity, LimitsOk;
    FreshIdsMean(s, scope, executionId, reference);
    if actionId < |s.prepared| && Waiting(s.prepared[actionId], now) {
      LiveFitsCapacity(s, actionId, now);
      ReadyIsUnexecuted(s, scope, actionId);
    }
  }

  /** An answer without a new execution is an execution of this very action, on record before. */
  lemma RepliesAreOnRecord(
    s: State, scope: RuntimeScope, actionId: nat, hash: TransferHash, executionId: string, reference: nat, now: int)
    ensures var r := ExecuteTransfer(s, scope, actionId, hash, executionId, reference, now);
      r.Ok? ==>
        && r.value.1.ExecutionReply?
        && var e := r.value.1.execution;
           && e in r.value.0.executions && e.action == hash && e.tenantId == scope.tenantId
           && (e.executionId == executionId || e.actionId == actionId)
  {
    hide HasCapacity;
  }

  /** Room for a new preparation beside the live ones. */
  predicate Room(s: State, token: string, amount: nat, now: int)
    requires token in s.accounts
  {
    var a := s.accounts[token];
    && amount <= a.perTransferLimit && amount <= a.available
    && Sum(s.prepared, Reserved(token, now)) + amount <= a.dailyLimit
  }

  lemma RoomMeans(s: State, token: string, amount: nat, now: int)
    requires PreparedRowsOk(s) && token in s.accounts
    ensures HasCapacity(s, token, amount, now, None) <==> Room(s, token, amount, now)
  {
    ReservedMeans(s, token, now);
  }

  predicate KeyFree(s: State, tenantId: nat, key: string) {
    forall p :: p in s.prepared && p.action.tenantId == tenantId ==> p.action.key != key
  }

  /** A preparation is added exactly for a payable, affordable INR transfer under a key the tenant has not used. */
  lemma PreparesExactly(
    s: State, opening: map<string, Account>, scope: RuntimeScope, source: string, beneficiary: string, value: Decimal,
    currency: string, rail: string, key: string, now: int)
    requires Inv(s, now, opening)
    ensures var s' := Step(Clocked(s, now), DoPrepare(scope, source, beneficiary, value, currency, rail, key)).state;
      && (s' != s <==>
            && Amount(value).Some? && currency == "INR" && rail == "DEMO_BANK_RAIL" && 8 <= |key| <= 200
            && KeyFree(s, scope.tenantId, key)
            && Own(s, scope, source) && Trusted(s, scope, beneficiary) && Room(s, source, Amount(value).value, now))
      && (s' != s ==>
            && s' == s.(prepared := s'.prepared) && |s'.prepared| == |s.prepared| + 1
            && s'.prepared[..|s.prepared|] == s.prepared
            && s'.prepared[|s.prepared|] == Prepared(
                 TransferHash(scope.tenantId, scope.userId, source, beneficiary, Amount(value).value, currency, rail,
                              scope.purpose, key), Ready, now + 15 * MINUTE))
  {
    hide Sum, First, BalancesOk, SettledOk, ExecutionRowsOk, ReversalRowsOk, HoldRowsOk, LedgerOk, HasCapacity, Room,
         LimitsOk, Amount;
    var query := PreparedByKey(scope.tenantId, key);
    assert KeyFree(s, scope.tenantId, key) <==> First(s.prepared, query).None? by {
      if First(s.prepared, query).None? {
        forall p | p in s.prepared && p.action.tenantId == scope.tenantId ensures p.action.key != key {
          assert !query(p);
        }
      }
    }
    if source in s.accounts && Amount(value).Some? { RoomMeans(s, source, Amount(value).value, now); }
  }

  /** A query marks a preparation EXPIRED exactly if it is the caller's own, still READY, and overdue. */
  lemma ExpiresExactly(s: State, opening: map<string, Account>, scope: RuntimeScope, actionId: nat, now: int)
    requires Inv(s, now, opening)
    ensures var s' := Step(Clocked(s, now), DoStatus(scope, actionId)).state;
      && (s' != s <==>
            && actionId < |s.prepared| && s.prepared[actionId].status == Ready
            && s.prepared[actionId].expiresAt <= now && s.prepared[actionId].action.tenantId == scope.tenantId
            && s.prepared[actionId].action.userId == scope.userId)
      && (s' != s ==>
            && s' == s.(prepared := s'.prepared) && |s'.prepared| == |s.prepared|
            && s'.prepared[actionId] == s.prepared[actionId].(status := Expired)
            && (forall i :: 0 <= i < |s.prepared| && i != actionId ==> s'.prepared[i] == s.prepared[i]))
  {
    hide Sum, First, BalancesOk, SettledOk, ReversalRowsOk, HoldRowsOk, LedgerOk, LimitsOk;
    if actionId < |s.prepared| && s.prepared[actionId].status == Ready { ReadyIsUnexecuted(s, scope, actionId); }
  }

  // ------------------------------------------------------ holds and reversals

  predicate HoldFree(s: State, scope: RuntimeScope, key: string) {
    forall h :: h in s.holds && h.tenantId == scope.tenantId ==> h.key != key && h.callId != scope.callId
  }

  lemma HoldFreeMeans(s: State, scope: RuntimeScope, key: string)
    ensures HoldFree(s, scope, key) <==>
      && First(s.holds, HoldByKey(scope.tenantId, key)).None?
      && First(s.holds, HoldByCall(scope.tenantId, scope.callId)).None?
  {
    var byKey, byCall := HoldByKey(scope.tenantId, key), HoldByCall(scope.tenantId, scope.callId);
    if First(s.holds, byKey).None? && First(s.holds, byCall).None? {
      forall h | h in s.holds && h.tenantId == scope.tenantId ensures h.key != key && h.callId != scope.callId {
        assert !byKey(h) && !byCall(h);
      }
    }
  }

  /** A hold is added exactly on the caller's own account, within its balance, under an unused key and call. */
  lemma HoldsExactly(
    s: State, scope: RuntimeScope, token: string, value: Decimal, currency: string, key: string, now: int)
    ensures var s' := Step(Clocked(s, now), DoHold(scope, token, value, currency, key)).state;
      && (s' != s <==>
            && Amount(value).Some? && Own(s, scope, token) && currency == s.accounts[token].currency
            && Amount(value).value <= s.accounts[token].available && HoldFree(s, scope, key))
      && (s' != s ==>
            && s' == s.(accounts := s'.accounts, holds := s'.holds)
            && (forall t :: t in s.accounts && t != token ==> s'.accounts[t] == s.accounts[t])
            && s'.holds == s.holds + [Hold(scope.tenantId, scope.userId, token, Amount(value).value, currency, key,
                                           scope.callId, false, None)])
  {
    HoldFreeMeans(s, scope, key);
    hide First, HoldFree, Amount;
    var s' := Step(Clocked(s, now), DoHold(scope, token, value, currency, key)).state;
    assert s' == s || |s'.holds| == |s.holds| + 1;
  }

  /** A hold is released exactly once, by its owner, under a call that has released no other. */
  lemma ReleasesExactly(s: State, opening: map<string, Account>, scope: RuntimeScope, holdId: nat, now: int)
    requires Inv(s, now, opening)
    ensures var s' := Step(Clocked(s, now), DoRelease(scope, holdId)).state;
      && (s' != s <==>
            && holdId < |s.holds| && !s.holds[holdId].released
            && s.holds[holdId].tenantId == scope.tenantId && s.holds[holdId].userId == scope.userId
            && Own(s, scope, s.holds[holdId].account)
            && forall h :: h in s.holds ==> h.releaseCallId != Some(scope.callId))
      && (s' != s ==>
            && s' == s.(accounts := s'.accounts, holds := s'.holds) && |s'.holds| == |s.holds|
            && (forall t :: t in s.accounts && t != s.holds[holdId].account ==> s'.accounts[t] == s.accounts[t])
            && s'.holds[holdId] == s.holds[holdId].(released := true, releaseCallId := Some(scope.callId))
            && (forall i :: 0 <= i < |s.holds| && i != holdId ==> s'.holds[i] == s.holds[i]))
  {
    hide First, Sum, BalancesOk, SettledOk, ReversalRowsOk, PreparedRowsOk, ExecutionRowsOk, LedgerOk, LimitsOk;
    var query := HoldByRelease(scope.callId);
    if First(s.holds, query).None? {
      forall h | h in s.holds ensures h.releaseCallId != Some(scope.callId) { assert !query(h); }
    }
  }

  /** A repeated hold is answered by the hold of its key, if it is for the same account and amount. */
  lemma RepeatedHoldsAreAnswered(
    s: State, scope: RuntimeScope, token: string, value: Decimal, currency: string, key: string)
    ensures var r := PlaceHold(s, scope, token, value, currency, key);
      r.Ok? ==>
        && r.value.1.HoldReply?
        && var h := r.value.1.hold;
           h in r.value.0.holds && h.tenantId == scope.tenantId && h.key == key && h.account == token
           && Amount(value) == Some(h.amount)
  {
    hide Amount;
  }

  /** A reversal is prepared exactly for an execution of the tenant it does not exceed, under an unused key. */
  lemma PreparesReversalsExactly(
    s: State, scope: RuntimeScope, executionId: string, value: Decimal, reason: string, key: string, now: int)
    ensures var s' := Step(Clocked(s, now), DoPrepareReversal(scope, executionId, value, reason, key)).state;
      var execution := First(s.executions, ExecutionById(scope.tenantId, executionId));
      && (s' != s <==>
            && Amount(value).Some? && execution.Some? && Amount(value).value <= s.executions[execution.value].amount
            && (forall r :: r in s.reversals && r.tenantId == scope.tenantId ==> r.action.key != key))
      && (s' != s ==>
            s' == s.(reversals := s.reversals + [
              Reversal(scope.tenantId, ReversalHash(executionId, Amount(value).value, reason, key), false,
                       now + 60 * MINUTE, None, None)]))
  {
    hide First, Amount;
    var query := ReversalByKey(scope.tenantId, key);
    if First(s.reversals, query).None? {
      forall r | r in s.reversals && r.tenantId == scope.tenantId ensures r.action.key != key { assert !query(r); }
    }
  }

  predicate ReversalIdsFree(s: State, scope: RuntimeScope, reference: nat) {
    forall r :: r in s.reversals ==> r.callId != Some(scope.callId) && r.reference != Some(reference)
  }

  lemma ReversalIdsMean(s: State, scope: RuntimeScope, reference: nat)
    ensures ReversalIdsFree(s, scope, reference) <==>
      && First(s.reversals, ReversalByCall(scope.callId)).None?
      && First(s.reversals, ReversalByReference(reference)).None?
  {
    var byCall, byReference := ReversalByCall(scope.callId), ReversalByReference(reference);
    if First(s.reversals, byCall).None? && First(s.reversals, byReference).None? {
      forall r | r in s.reversals ensures r.callId != Some(scope.callId) && r.reference != Some(reference) {
        assert !byCall(r) && !byReference(r);
      }
    }
  }

  /** The reversal is the tenant's, says what was reviewed, and is neither done nor overdue. */
  predicate Reviewed(s: State, scope: RuntimeScope, reversalId: nat, hash: ReversalHash, now: int) {
    && reversalId < |s.reversals| && s.reversals[reversalId].tenantId == scope.tenantId
    && s.reversals[reversalId].action == hash
    && !s.reversals[reversalId].settled && now < s.reversals[reversalId].expiresAt
  }

  /** The account that the execution a reversal names was paid from. */
  function PaidFrom(s: State, tenantId: nat, executionId: string): Option<string> {
    var execution := First(s.executions, ExecutionById(tenantId, executionId));
    if execution.None? then None else Some(s.executions[execution.value].action.source)
  }

  /** What a reversal writes besides its credit. */
  ghost predicate Refunds(
    s: State, s': State, scope: RuntimeScope, reversalId: nat, reference: nat, source: Option<string>)
    requires reversalId < |s.reversals|
  {
    && s' == s.(accounts := s'.accounts, reversals := s'.reversals, transactions := s'.transactions)
    && s'.reversals == s.reversals[reversalId := s.reversals[reversalId].(
         settled := true, callId := Some(scope.callId), reference := Some(reference))]
    && (forall t :: t in s.accounts && Some(t) != source ==> t in s'.accounts && s'.accounts[t] == s.accounts[t])
  }

  /** Money goes back exactly for such a reversal of the caller's own account, after a review, under fresh ids. */
  lemma ReversesExactly(
    s: State, opening: map<string, Account>, scope: RuntimeScope, reversalId: nat, hash: ReversalHash, reviewed: bool,
    reference: nat, now: int)
    requires Inv(s, now, opening)
    ensures var s' := Step(Clocked(s, now), DoReverse(scope, reversalId, hash, reviewed, reference)).state;
      var source := PaidFrom(s, scope.tenantId, hash.executionId);
      && (s' != s <==>
            && reviewed && Reviewed(s, scope, reversalId, hash, now) && ReversalIdsFree(s, scope, reference)
            && source.Some? && Own(s, scope, source.value))
      && (s' != s ==> Refunds(s, s', scope, reversalId, reference, source))
  {
    ReversalIdsMean(s, scope, reference);
    hide First, Sum, BalancesOk, SettledOk, ReversalRowsOk, PreparedRowsOk, HoldRowsOk, LedgerOk, LimitsOk,
         ReversalIdsFree;
    var execution := First(s.executions, ExecutionById(scope.tenantId, hash.executionId));
    assert execution.Some? ==> ExecutionOk(s, s.executions[execution.value]);
  }

  // -------------------------------------------------------------- whole runs

  /** Operation `op` settles the action of execution `e`, which is due in the state it finds. */
  predicate Settles(c: Clocked, op: Op, e: Execution) {
    && op.DoExecute? && Due(c.state, op.scope, op.actionId, op.hash, c.now)
    && e == Execution(op.executionId, op.scope.tenantId, op.actionId, op.hash, op.scope.callId, op.hash.amount,
                      op.reference)
  }

  lemma OthersExecuteNothing(c: Clocked, op: Op)
    requires !op.DoExecute?
    ensures Step(c, op).state.executions == c.state.executions
  {
    hide First, Sum, HasCapacity, Amount;
  }

  lemma StepExecutes(c: Clocked, op: Op, opening: map<string, Account>, e: Execution)
    requires Inv(c.state, c.now, opening) && e in Step(c, op).state.executions && e !in c.state.executions
    ensures Settles(c, op, e)
  {
    hide Inv, Due, FreshIds, Step;
    if op.DoExecute? {
      ExecutesExactly(c.state, opening, op.scope, op.actionId, op.hash, op.executionId, op.reference, c.now);
      StepOfExecute(c, op);
    } else {
      OthersExecuteNothing(c, op);
    }
  }

  lemma StepOfExecute(c: Clocked, op: Op)
    requires op.DoExecute?
    ensures Step(c, op).state == Step(Clocked(c.state, c.now), op).state
  {
  }

  lemma {:induction false} RunSnoc(c: Clocked, ops: seq<Op>, op: Op)
    ensures Run(c, ops + [op]) == Step(Run(c, ops), op)
    decreases |ops|
  {
    hide Step;
    if ops == [] {
      assert [op][1..] == [] && Run(Step(c, op), []) == Step(c, op);
    } else {
      assert (ops + [op])[1..] == ops[1..] + [op];
      RunSnoc(Step(c, ops[0]), ops[1..], op);
    }
  }

  /**
   Whatever happens in between, every execution on record was made by a request that found its action live, its
   source the caller's own and funded, and its beneficiary verified and active at that very moment.
   */
  lemma {:induction false} EveryExecutionWasDue(
    opening: map<string, Account>, beneficiaries: map<string, Beneficiary>, now: int, ops: seq<Op>, e: Execution)
    requires Opening(opening) && e in Run(Clocked(Opened(opening, beneficiaries), now), ops).state.executions
    ensures exists i ::
      0 <= i < |ops| && Settles(Run(Clocked(Opened(opening, beneficiaries), now), ops[..i]), ops[i], e)
    decreases |ops|
  {
    hide Inv, Step, Settles;
    var c := Clocked(Opened(opening, beneficiaries), now);
    if ops != [] {
      var n := |ops| - 1;
      assert ops == ops[..n] + [ops[n]];
      RunSnoc(c, ops[..n], ops[n]);
      OpenedIsOk(opening, beneficiaries, now);
      RunKeepsInv(c, ops[..n], opening);
      if e in Run(c, ops[..n]).state.executions {
        EveryExecutionWasDue(opening, beneficiaries, now, ops[..n], e);
        var i :| 0 <= i < n && Settles(Run(c, ops[..n][..i]), ops[..n][i], e);
        assert ops[..n][..i] == ops[..i];
      } else {
        StepExecutes(Run(c, ops[..n]), ops[n], opening, e);
        assert Settles(Run(c, ops[..n]), ops[n], e);
      }
    }
  }

  /** Two executions that evidence could confuse. */
  predicate Confused(d: Execution, e: Execution) {
    || d.reference == e.reference
    || (d.tenantId == e.tenantId && (d.executionId == e.executionId || d.callId == e.callId))
  }

  ghost predicate IdsOk(s: State) {
    forall i, j :: 0 <= i < j < |s.executions| ==> !Confused(s.executions[i], s.executions[j])
  }

  lemma StepKeepsIds(c: Clocked, op: Op, opening: map<string, Account>)
    requires Inv(c.state, c.now, opening) && IdsOk(c.state)
    ensures IdsOk(Step(c, op).state)
  {
    hide Inv, Due, Step;
    if op.DoExecute? {
      ExecutesExactly(c.state, opening, op.scope, op.actionId, op.hash, op.executionId, op.reference, c.now);
      StepOfExecute(c, op);
      forall i | 0 <= i < |c.state.executions| ensures c.state.executions[i] in c.state.executions {}
    } else {
      OthersExecuteNothing(c, op);
    }
  }

  lemma {:induction false} RunKeepsIds(c: Clocked, ops: seq<Op>, opening: map<string, Account>)
    requires Inv(c.state, c.now, opening) && IdsOk(c.state)
    ensures IdsOk(Run(c, ops).state)
    decreases |ops|
  {
    hide Inv, Step, IdsOk;
    if ops != [] {
      StepKeepsInv(c, ops[0], opening);
      StepKeepsIds(c, ops[0], opening);
      RunKeepsIds(Step(c, ops[0]), ops[1..], opening);
    }
  }

  /** No two executions share a bank reference, and none of a tenant share an execution id or a Guardian call. */
  lemma EvidenceIsUnique(
    opening: map<string, Account>, beneficiaries: map<string, Beneficiary>, now: int, ops: seq<Op>, i: nat, j: nat)
    requires Opening(opening) && i < j < |Run(Clocked(Opened(opening, beneficiaries), now), ops).state.executions|
    ensures var executions := Run(Clocked(Opened(opening, beneficiaries), now), ops).state.executions;
      !Confused(executions[i], executions[j])
  {
    hide Inv, Run;
    OpenedIsOk(opening, beneficiaries, now);
    RunKeepsIds(Clocked(Opened(opening, beneficiaries), now), ops, opening);
  }
}
