/** Conservation of money, exactly-once settlement and payment limits, over whole runs of the bank. */
module BankSafety {
  import opened Contracts
  import opened Money
  import opened Sums
  import opened Bank

  // ------------------------------------------------------------ what is summed

  /** What settled executions took from an account. */
  function Taken(account: string): Execution -> int {
    (e: Execution) => if e.action.source == account then e.amount else 0
  }

  predicate RefundsTo(executions: seq<Execution>, r: Reversal, account: string) {
    var execution := First(executions, ExecutionById(r.tenantId, r.action.executionId));
    execution.Some? && executions[execution.value].action.source == account
  }

  /** What settled reversals gave back to an account. */
  function Refunded(executions: seq<Execution>, account: string): Reversal -> int {
    (r: Reversal) => if r.settled && RefundsTo(executions, r, account) then r.action.amount else 0
  }

  /** Posted CREDIT minus DEBIT rows. */
  function Posted(account: string): Transaction -> int {
    (t: Transaction) =>
      var amount: int := t.amount;
      if t.account != account then 0 else if t.direction == Credit then amount else -amount
  }

  /** What active holds keep from the available balance. */
  function Held(account: string): Hold -> int {
    (h: Hold) => if h.account == account && !h.released then h.amount else 0
  }

  function JournalSide(journal: nat, side: Direction): LedgerEntry -> int {
    (l: LedgerEntry) => if l.journalId == journal && l.entry == side then l.amount else 0
  }

  function LedgerSide(side: Direction): LedgerEntry -> int {
    (l: LedgerEntry) => if l.entry == side then l.amount else 0
  }

  function Executed(): Execution -> int {
    (e: Execution) => e.amount
  }

  // ---------------------------------------------------------------- invariant

  predicate Opening(opening: map<string, Account>) {
    forall t :: t in opening ==> opening[t].available >= 0 && opening[t].dailyLimit >= 0
  }

  /** Only balances of an account ever change. */
  predicate SameAccounts(s: State, opening: map<string, Account>) {
    && s.accounts.Keys == opening.Keys
    && forall t :: t in opening ==>
         s.accounts[t] == opening[t].(current := s.accounts[t].current, available := s.accounts[t].available)
  }

  predicate Balanced(s: State, opening: map<string, Account>, t: string)
    requires t in s.accounts && t in opening
  {
    var account, first := s.accounts[t], opening[t];
    && account.current == first.current - Sum(s.executions, Taken(t)) + Sum(s.reversals, Refunded(s.executions, t))
    && account.current == first.current + Sum(s.transactions, Posted(t))
    && account.available == account.current - (first.current - first.available) - Sum(s.holds, Held(t))
    && account.available >= 0
  }

  predicate PreparedOk(s: State, p: Prepared) {
    p.action.source in s.accounts && s.accounts[p.action.source].tenantId == p.action.tenantId
  }

  predicate ExecutionOk(s: State, e: Execution) {
    && e.actionId < |s.prepared|
    && s.prepared[e.actionId].action == e.action
    && s.prepared[e.actionId].status == Settled
    && e.tenantId == e.action.tenantId
    && e.amount == e.action.amount
  }

  predicate ReversalOk(s: State, r: Reversal) {
    var execution := First(s.executions, ExecutionById(r.tenantId, r.action.executionId));
    execution.Some? && r.action.amount <= s.executions[execution.value].amount
  }

  ghost predicate PreparedRowsOk(s: State) {
    forall i :: 0 <= i < |s.prepared| ==> PreparedOk(s, s.prepared[i])
  }

  ghost predicate ExecutionRowsOk(s: State) {
    && (forall i :: 0 <= i < |s.executions| ==> ExecutionOk(s, s.executions[i]))
    && (forall i, j :: 0 <= i < j < |s.executions| ==> s.executions[i].actionId != s.executions[j].actionId)
  }

  predicate HasExecution(s: State, actionId: nat) {
    exists k :: 0 <= k < |s.executions| && s.executions[k].actionId == actionId
  }

  ghost predicate SettledOk(s: State) {
    forall i: nat :: i < |s.prepared| && s.prepared[i].status == Settled ==> HasExecution(s, i)
  }

  ghost predicate ReversalRowsOk(s: State) {
    forall r :: r in s.reversals ==> ReversalOk(s, r)
  }

  ghost predicate HoldRowsOk(s: State) {
    forall i :: 0 <= i < |s.holds| ==>
      s.holds[i].account in s.accounts && (s.holds[i].released <==> s.holds[i].releaseCallId.Some?)
  }

  ghost predicate RowsOk(s: State) {
    PreparedRowsOk(s) && ExecutionRowsOk(s) && SettledOk(s) && ReversalRowsOk(s) && HoldRowsOk(s)
  }

  ghost predicate LedgerOk(s: State) {
    && (forall j: nat :: Sum(s.ledger, JournalSide(j, Debit)) == Sum(s.ledger, JournalSide(j, Credit)))
    && Sum(s.ledger, LedgerSide(Credit)) == Sum(s.executions, Executed())
  }

  predicate WithinLimits(s: State, t: string, now: int)
    requires t in s.accounts
  {
    var account := s.accounts[t];
    && Sum(s.prepared, Pending(account.tenantId, t, now)) <= account.dailyLimit
    && forall p :: p in s.prepared && p.action.source == t && Live(p, now) ==>
        p.action.amount <= account.perTransferLimit
  }

  ghost predicate BalancesOk(s: State, opening: map<string, Account>)
    requires SameAccounts(s, opening)
  {
    forall t :: t in opening ==> Balanced(s, opening, t)
  }

  ghost predicate LimitsOk(s: State, now: int) {
    forall t :: t in s.accounts ==> WithinLimits(s, t, now)
  }

  ghost predicate Inv(s: State, now: int, opening: map<string, Account>) {
    && SameAccounts(s, opening)
    && BalancesOk(s, opening)
    && RowsOk(s)
    && LedgerOk(s)
    && LimitsOk(s, now)
  }

  // ------------------------------------------------------------ row by row

  lemma {:induction false} FirstAppend<T>(rows: seq<T>, row: T, query: T -> bool)
    ensures First(rows, query).Some? ==> First(rows + [row], query) == First(rows, query)
  {
    if rows != [] && !query(rows[0]) {
      assert (rows + [row])[1..] == rows[1..] + [row];
      FirstAppend(rows[1..], row, query);
    }
  }

  /** A new execution changes no earlier reversal's target. */
  lemma RefundsStable(s: State, e: Execution, t: string)
    requires ReversalRowsOk(s)
    ensures Sum(s.reversals, Refunded(s.executions + [e], t)) == Sum(s.reversals, Refunded(s.executions, t))
    ensures ReversalRowsOk(s.(executions := s.executions + [e]))
  {
    forall r | r in s.reversals
      ensures Refunded(s.executions + [e], t)(r) == Refunded(s.executions, t)(r)
      ensures ReversalOk(s.(executions := s.executions + [e]), r)
    {
      FirstAppend(s.executions, e, ExecutionById(r.tenantId, r.action.executionId));
    }
    SumAgrees(s.reversals, Refunded(s.executions + [e], t), Refunded(s.executions, t));
  }

  // ------------------------------------------------------------------ frames

  lemma BalancesFrame(s: State, s': State, opening: map<string, Account>)
    requires SameAccounts(s, opening) && BalancesOk(s, opening)
    requires s'.accounts == s.accounts && s'.executions == s.executions && s'.reversals == s.reversals
    requires s'.transactions == s.transactions && s'.holds == s.holds
    ensures SameAccounts(s', opening) && BalancesOk(s', opening)
  {
    forall t | t in opening ensures Balanced(s', opening, t) {
      assert Balanced(s, opening, t);
    }
  }

  lemma ReversalsFrame(s: State, s': State)
    requires ReversalRowsOk(s) && s'.executions == s.executions && s'.reversals == s.reversals
    ensures ReversalRowsOk(s')
  {
    forall r | r in s'.reversals ensures ReversalOk(s', r) {
      assert ReversalOk(s, r);
    }
  }

  lemma ExecutionsFrame(s: State, s': State)
    requires ExecutionRowsOk(s) && s'.executions == s.executions && |s.prepared| <= |s'.prepared|
    requires forall i: nat :: i < |s.prepared| ==>
      s'.prepared[i].action == s.prepared[i].action && (s.prepared[i].status == Settled ==>
          s'.prepared[i].status == Settled)
    ensures ExecutionRowsOk(s')
  {
    forall i | 0 <= i < |s'.executions| ensures ExecutionOk(s', s'.executions[i]) {
      assert ExecutionOk(s, s.executions[i]);
    }
  }

  lemma SettledFrame(s: State, s': State)
    requires SettledOk(s) && s.executions <= s'.executions
    requires forall i: nat :: i < |s'.prepared| && s'.prepared[i].status == Settled ==>
      (i < |s.prepared| && s.prepared[i].status == Settled) || HasExecution(s', i)
    ensures SettledOk(s')
  {
    forall i: nat | i < |s'.prepared| && s'.prepared[i].status == Settled ensures HasExecution(s', i) {
      if i < |s.prepared| && s.prepared[i].status == Settled {
        var k :| 0 <= k < |s.executions| && s.executions[k].actionId == i;
        assert s'.executions[k] == s.executions[k];
      }
    }
  }

  lemma PreparedFrame(s: State, s': State)
    requires PreparedRowsOk(s)
    requires forall t :: t in s.accounts ==> t in s'.accounts && s'.accounts[t].tenantId == s.accounts[t].tenantId
    requires forall i: nat :: i < |s'.prepared| ==>
      (i < |s.prepared| && s'.prepared[i].action == s.prepared[i].action) || PreparedOk(s', s'.prepared[i])
    ensures PreparedRowsOk(s')
  {
    forall i | 0 <= i < |s'.prepared| ensures PreparedOk(s', s'.prepared[i]) {
      if i < |s.prepared| { assert PreparedOk(s, s.prepared[i]); }
    }
  }

  lemma HoldsFrame(s: State, s': State)
    requires HoldRowsOk(s) && s'.holds == s.holds && s.accounts.Keys <= s'.accounts.Keys
    ensures HoldRowsOk(s')
  {
  }

  // ------------------------------------------------------------ preparations

  predicate Waiting(p: Prepared, now: int) {
    p.status == Ready && now < p.expiresAt
  }

  /** What an unexpired preparation keeps of an account's daily limit. */
  function Reserved(account: string, now: int): Prepared -> int {
    (p: Prepared) => if p.action.source == account && Waiting(p, now) then p.action.amount else 0
  }

  lemma ReservedMeans(s: State, token: string, now: int)
    requires PreparedRowsOk(s) && token in s.accounts
    ensures Sum(s.prepared, Pending(s.accounts[token].tenantId, token, now)) == Sum(s.prepared, Reserved(token, now))
  {
    var tenantId := s.accounts[token].tenantId;
    forall p | p in s.prepared ensures Pending(tenantId, token, now)(p) == Reserved(token, now)(p) {
      assert PreparedOk(s, p);
    }
    SumAgrees(s.prepared, Pending(tenantId, token, now), Reserved(token, now));
  }

  lemma AddPreparedLimits(s: State, row: Prepared, now: int)
    requires LimitsOk(s, now) && row.status == Ready && PreparedOk(s, row)
    requires HasCapacity(s, row.action.source, row.action.amount, now, None)
    ensures LimitsOk(s.(prepared := s.prepared + [row]), now)
  {
    var s' := s.(prepared := s.prepared + [row]);
    forall t | t in s'.accounts ensures WithinLimits(s', t, now) {
      assert WithinLimits(s, t, now);
      SumAppend(s.prepared, row, Pending(s.accounts[t].tenantId, t, now));
    }
  }

  lemma AddPreparedKeepsInv(s: State, row: Prepared, now: int, opening: map<string, Account>)
    requires Inv(s, now, opening) && row.status == Ready && PreparedOk(s, row)
    requires HasCapacity(s, row.action.source, row.action.amount, now, None)
    ensures Inv(s.(prepared := s.prepared + [row]), now, opening)
  {
    hide Balanced, WithinLimits, ExecutionOk, ReversalOk, HasExecution, Sum, First;
    var s' := s.(prepared := s.prepared + [row]);
    AddPreparedLimits(s, row, now);
    BalancesFrame(s, s', opening);
    assert PreparedOk(s', row);
    PreparedFrame(s, s');
    ExecutionsFrame(s, s');
    SettledFrame(s, s');
    ReversalsFrame(s, s');
    HoldsFrame(s, s');
  }

  lemma PrepareKeepsInv(
    s: State, now: int, opening: map<string, Account>, scope: RuntimeScope, source: string, beneficiary: string,
    value: Decimal, currency: string, rail: string, key: string)
    requires Inv(s, now, opening)
    ensures var r := PrepareTransfer(s, scope, source, beneficiary, value, currency, rail, key, now);
      r.Ok? ==> Inv(r.value.0, now, opening)
  {
    var r := PrepareTransfer(s, scope, source, beneficiary, value, currency, rail, key, now);
    if r.Ok? && r.value.0 != s {
      AddPreparedKeepsInv(s, r.value.0.prepared[|s.prepared|], now, opening);
    }
  }

  /** A preparation leaves the live set, or was not in it; nothing else about it changes. */
  lemma RetireLimits(s: State, s': State, i: nat, now: int)
    requires LimitsOk(s, now) && i < |s.prepared| == |s'.prepared|
    requires s'.prepared == s.prepared[i := s.prepared[i].(status := s'.prepared[i].status)]
    requires s'.prepared[i].status != Ready
    requires s'.accounts.Keys == s.accounts.Keys
    requires forall t :: t in s.accounts ==>
      s'.accounts[t] == s.accounts[t].(current := s'.accounts[t].current, available := s'.accounts[t].available)
    ensures LimitsOk(s', now)
  {
    forall t | t in s'.accounts ensures WithinLimits(s', t, now) {
      assert WithinLimits(s, t, now);
      SumUpdate(s.prepared, i, s'.prepared[i], Pending(s.accounts[t].tenantId, t, now));
    }
  }

  lemma ExpireKeepsInv(s: State, i: nat, now: int, opening: map<string, Account>)
    requires Inv(s, now, opening) && i < |s.prepared| && s.prepared[i].status == Ready
    ensures Inv(s.(prepared := s.prepared[i := s.prepared[i].(status := Expired)]), now, opening)
  {
    hide Balanced, WithinLimits, PreparedOk, ExecutionOk, ReversalOk, HasExecution, Sum, First;
    var s' := s.(prepared := s.prepared[i := s.prepared[i].(status := Expired)]);
    RetireLimits(s, s', i, now);
    BalancesFrame(s, s', opening);
    PreparedFrame(s, s');
    ExecutionsFrame(s, s');
    SettledFrame(s, s');
    ReversalsFrame(s, s');
    HoldsFrame(s, s');
  }

  lemma StatusKeepsInv(s: State, now: int, opening: map<string, Account>, scope: RuntimeScope, actionId: nat)
    requires Inv(s, now, opening)
    ensures var r := TransferStatus(s, scope, actionId, now); r.Ok? ==> Inv(r.value.0, now, opening)
  {
    hide Inv, First;
    if actionId < |s.prepared| && s.prepared[actionId].status == Ready { ExpireKeepsInv(s, actionId, now, opening); }
  }

  // -------------------------------------------------------------- settlement

  lemma NoExecutionYet(s: State, scope: RuntimeScope, actionId: nat)
    requires RowsOk(s) && actionId < |s.prepared| && s.prepared[actionId].action.tenantId == scope.tenantId
    requires First(s.executions, ExecutionByAction(scope.tenantId, actionId)).None?
    ensures forall k :: 0 <= k < |s.executions| ==> s.executions[k].actionId != actionId
  {
    forall k | 0 <= k < |s.executions| ensures s.executions[k].actionId != actionId {
      assert ExecutionOk(s, s.executions[k]);
      assert s.executions[k] in s.executions && !ExecutionByAction(scope.tenantId, actionId)(s.executions[k]);
    }
  }

  lemma SettleBalances(s: State, s': State, e: Execution, opening: map<string, Account>)
    requires SameAccounts(s, opening) && BalancesOk(s, opening) && ReversalRowsOk(s)
    requires var t := e.action.source; t in s.accounts && e.amount <= s.accounts[t].available
    requires s'.accounts == s.accounts[e.action.source := s.accounts[e.action.source].(
      current := s.accounts[e.action.source].current - e.amount,
      available := s.accounts[e.action.source].available - e.amount)]
    requires s'.executions == s.executions + [e] && s'.reversals == s.reversals && s'.holds == s.holds
    requires s'.transactions == s.transactions + [Transaction(e.action.source, Debit, e.amount)]
    ensures SameAccounts(s', opening) && BalancesOk(s', opening)
  {
    forall t | t in opening ensures Balanced(s', opening, t) {
      assert Balanced(s, opening, t);
      RefundsStable(s, e, t);
      SumAppend(s.executions, e, Taken(t));
      SumAppend(s.transactions, Transaction(e.action.source, Debit, e.amount), Posted(t));
    }
  }

  lemma SettleLedger(s: State, s': State, e: Execution, journal: nat)
    requires LedgerOk(s)
    requires s'.ledger == s.ledger + [LedgerEntry(journal, 1, Debit, e.amount)] + [LedgerEntry(journal, 2, Credit,
        e.amount)]
    requires s'.executions == s.executions + [e]
    ensures LedgerOk(s')
  {
    var debit, credit := LedgerEntry(journal, 1, Debit, e.amount), LedgerEntry(journal, 2, Credit, e.amount);
    forall j: nat ensures Sum(s'.ledger, JournalSide(j, Debit)) == Sum(s'.ledger, JournalSide(j, Credit)) {
      SumAppend(s.ledger, debit, JournalSide(j, Debit));
      SumAppend(s.ledger + [debit], credit, JournalSide(j, Debit));
      SumAppend(s.ledger, debit, JournalSide(j, Credit));
      SumAppend(s.ledger + [debit], credit, JournalSide(j, Credit));
    }
    SumAppend(s.ledger, debit, LedgerSide(Credit));
    SumAppend(s.ledger + [debit], credit, LedgerSide(Credit));
    SumAppend(s.executions, e, Executed());
  }

  lemma SettleRows(s: State, scope: RuntimeScope, actionId: nat, executionId: string, reference: nat)
    requires RowsOk(s) && actionId < |s.prepared| && s.prepared[actionId].action.tenantId == scope.tenantId
    requires s.prepared[actionId].action.source in s.accounts
    requires forall k :: 0 <= k < |s.executions| ==> s.executions[k].actionId != actionId
    ensures RowsOk(Settle(s, scope, actionId, executionId, reference).0)
  {
    var s' := Settle(s, scope, actionId, executionId, reference).0;
    PreparedFrame(s, s');
    HoldsFrame(s, s');
    SettleExecutionRows(s, scope, actionId, executionId, reference);
    assert s'.executions[|s.executions|].actionId == actionId;
    assert HasExecution(s', actionId);
    SettledFrame(s, s');
    RefundsStable(s, s'.executions[|s.executions|], "");
    ReversalsFrame(s.(executions := s.executions + [s'.executions[|s.executions|]]), s');
  }

  lemma SettleExecutionRows(s: State, scope: RuntimeScope, actionId: nat, executionId: string, reference: nat)
    requires ExecutionRowsOk(s) && actionId < |s.prepared| && s.prepared[actionId].action.tenantId == scope.tenantId
    requires s.prepared[actionId].action.source in s.accounts
    requires forall k :: 0 <= k < |s.executions| ==> s.executions[k].actionId != actionId
    ensures ExecutionRowsOk(Settle(s, scope, actionId, executionId, reference).0)
  {
    var s' := Settle(s, scope, actionId, executionId, reference).0;
    forall i | 0 <= i < |s'.executions| ensures ExecutionOk(s', s'.executions[i]) {
      assert i == |s.executions| || ExecutionOk(s, s.executions[i]);
    }
  }

  lemma ExecuteKeepsInv(
    s: State, now: int, opening: map<string, Account>, scope: RuntimeScope, actionId: nat, hash: TransferHash,
    executionId: string, reference: nat)
    requires Inv(s, now, opening)
    ensures var r := ExecuteTransfer(s, scope, actionId, hash, executionId, reference, now);
      r.Ok? ==> Inv(r.value.0, now, opening)
  {
    hide WithinLimits, Balanced, PreparedOk, ExecutionOk, ReversalOk, HasExecution, Sum, First;
    var r := ExecuteTransfer(s, scope, actionId, hash, executionId, reference, now);
    if r.Ok? && r.value.0 != s {
      assert r.value == Settle(s, scope, actionId, executionId, reference);
      var s' := r.value.0;
      var e := s'.executions[|s.executions|];
      NoExecutionYet(s, scope, actionId);
      SettleBalances(s, s', e, opening);
      SettleLedger(s, s', e, |s.executions|);
      SettleRows(s, scope, actionId, executionId, reference);
      RetireLimits(s, s', actionId, now);
    }
  }

  // ------------------------------------------------------- holds and reversals

  lemma LimitsFrame(s: State, s': State, now: int)
    requires LimitsOk(s, now) && s'.prepared == s.prepared && s'.accounts.Keys == s.accounts.Keys
    requires forall t :: t in s.accounts ==>
      s'.accounts[t] == s.accounts[t].(current := s'.accounts[t].current, available := s'.accounts[t].available)
    ensures LimitsOk(s', now)
  {
    forall t | t in s'.accounts ensures WithinLimits(s', t, now) {
      assert WithinLimits(s, t, now);
    }
  }

  /** Row `i` of the holds becomes `h`, and the account's available balance follows. */
  ghost predicate HoldMoves(s: State, s': State, i: nat, h: Hold) {
    && h.account in s.accounts && i <= |s.holds|
    && (h.released <==> h.releaseCallId.Some?)
    && (i < |s.holds| ==> h.account == s.holds[i].account)
    && s' == s.(accounts := s'.accounts, holds := if i == |s.holds| then s.holds + [h] else s.holds[i := h])
    && var a := s.accounts[h.account];
       var change := Held(h.account)(h) - (if i == |s.holds| then 0 else Held(h.account)(s.holds[i]));
       change <= a.available && s'.accounts == s.accounts[h.account := a.(available := a.available - change)]
  }

  lemma HoldBalances(s: State, s': State, i: nat, h: Hold, opening: map<string, Account>)
    requires SameAccounts(s, opening) && BalancesOk(s, opening) && HoldMoves(s, s', i, h)
    ensures SameAccounts(s', opening) && BalancesOk(s', opening)
  {
    hide Sum;
    forall t | t in opening ensures Balanced(s', opening, t) {
      assert Balanced(s, opening, t);
      if i == |s.holds| { SumAppend(s.holds, h, Held(t)); }
      else { SumUpdate(s.holds, i, h, Held(t)); }
    }
  }

  lemma HoldKeepsInv(s: State, s': State, i: nat, h: Hold, now: int, opening: map<string, Account>)
    requires Inv(s, now, opening) && HoldMoves(s, s', i, h)
    ensures Inv(s', now, opening)
  {
    hide Balanced, WithinLimits, PreparedOk, ExecutionOk, ReversalOk, HasExecution, Sum;
    HoldBalances(s, s', i, h, opening);
    LimitsFrame(s, s', now);
    PreparedFrame(s, s');
    ExecutionsFrame(s, s');
    SettledFrame(s, s');
    ReversalsFrame(s, s');
  }

  lemma PlaceHoldKeepsInv(
    s: State, now: int, opening: map<string, Account>, scope: RuntimeScope, token: string, value: Decimal,
    currency: string, key: string)
    requires Inv(s, now, opening)
    ensures var r := PlaceHold(s, scope, token, value, currency, key); r.Ok? ==> Inv(r.value.0, now, opening)
  {
    hide BalancesOk, WithinLimits, RowsOk, LedgerOk, LimitsOk, Sum, First;
    var r := PlaceHold(s, scope, token, value, currency, key);
    if r.Ok? && r.value.0 != s {
      HoldKeepsInv(s, r.value.0, |s.holds|, r.value.0.holds[|s.holds|], now, opening);
    }
  }

  lemma ReleaseHoldKeepsInv(s: State, now: int, opening: map<string, Account>, scope: RuntimeScope, holdId: nat)
    requires Inv(s, now, opening)
    ensures var r := ReleaseHold(s, scope, holdId); r.Ok? ==> Inv(r.value.0, now, opening)
  {
    hide WithinLimits, LedgerOk, LimitsOk, Sum, First, PreparedRowsOk, ExecutionRowsOk, SettledOk, ReversalRowsOk;
    var r := ReleaseHold(s, scope, holdId);
    if r.Ok? && r.value.0 != s {
      assert Balanced(s, opening, s.holds[holdId].account);
      HoldKeepsInv(s, r.value.0, holdId, r.value.0.holds[holdId], now, opening);
    }
  }

  lemma AddReversalBalances(s: State, s': State, row: Reversal, opening: map<string, Account>)
    requires SameAccounts(s, opening) && BalancesOk(s, opening) && !row.settled
    requires s' == s.(reversals := s.reversals + [row])
    ensures SameAccounts(s', opening) && BalancesOk(s', opening)
  {
    forall t | t in opening ensures Balanced(s', opening, t) {
      assert Balanced(s, opening, t);
      SumAppend(s.reversals, row, Refunded(s.executions, t));
    }
  }

  lemma PrepareReversalKeepsInv(
    s: State, now: int, opening: map<string, Account>, scope: RuntimeScope, executionId: string, value: Decimal,
    reason: string, key: string)
    requires Inv(s, now, opening)
    ensures var r := PrepareReversal(s, scope, executionId, value, reason, key, now);
      r.Ok? ==> Inv(r.value.0, now, opening)
  {
    hide Balanced, WithinLimits, PreparedOk, ExecutionOk, HasExecution, Sum;
    var r := PrepareReversal(s, scope, executionId, value, reason, key, now);
    if r.Ok? && r.value.0 != s {
      var s' := r.value.0;
      var row := s'.reversals[|s.reversals|];
      AddReversalBalances(s, s', row, opening);
      LimitsFrame(s, s', now);
      PreparedFrame(s, s');
      ExecutionsFrame(s, s');
      SettledFrame(s, s');
      AddReversalRow(s, s', row);
      HoldsFrame(s, s');
    }
  }

  lemma AddReversalRow(s: State, s': State, row: Reversal)
    requires ReversalRowsOk(s) && s'.executions == s.executions && ReversalOk(s', row)
    requires forall r :: r in s'.reversals ==> r in s.reversals || r == row
    ensures ReversalRowsOk(s')
  {
    forall r | r in s'.reversals ensures ReversalOk(s', r) {
      assert r == row || ReversalOk(s, r);
    }
  }

  /** A settled reversal credits the account its execution had debited. */
  lemma ReverseBalances(s: State, s': State, i: nat, row: Reversal, t: string, opening: map<string, Account>)
    requires SameAccounts(s, opening) && BalancesOk(s, opening)
    requires i < |s.reversals| && !s.reversals[i].settled && row.settled
    requires row.action == s.reversals[i].action && row.tenantId == s.reversals[i].tenantId
    requires t in s.accounts && RefundsTo(s.executions, row, t)
    requires s'.accounts == s.accounts[t := s.accounts[t].(
      current := s.accounts[t].current + row.action.amount, available := s.accounts[t].available + row.action.amount)]
    requires s'.executions == s.executions && s'.reversals == s.reversals[i := row] && s'.holds == s.holds
    requires s'.transactions == s.transactions + [Transaction(t, Credit, row.action.amount)]
    ensures SameAccounts(s', opening) && BalancesOk(s', opening)
  {
    forall u | u in opening ensures Balanced(s', opening, u) {
      assert Balanced(s, opening, u);
      SumUpdate(s.reversals, i, row, Refunded(s.executions, u));
      SumAppend(s.transactions, Transaction(t, Credit, row.action.amount), Posted(u));
    }
  }

  lemma ReverseKeepsInv(
    s: State, now: int, opening: map<string, Account>, scope: RuntimeScope, reversalId: nat, hash: ReversalHash,
    reviewed: bool, reference: nat)
    requires Inv(s, now, opening)
    ensures var r := ExecuteReversal(s, scope, reversalId, hash, reviewed, reference, now);
      r.Ok? ==> Inv(r.value.0, now, opening)
  {
    hide WithinLimits, Balanced, PreparedOk, HasExecution, Sum;
    var r := ExecuteReversal(s, scope, reversalId, hash, reviewed, reference, now);
    if r.Ok? && r.value.0 != s {
      var s' := r.value.0;
      var row := s'.reversals[reversalId];
      var execution := First(s.executions, ExecutionById(scope.tenantId, row.action.executionId)).value;
      assert ExecutionOk(s, s.executions[execution]);
      var t := s.prepared[s.executions[execution].actionId].action.source;
      ReverseBalances(s, s', reversalId, row, t, opening);
      LimitsFrame(s, s', now);
      PreparedFrame(s, s');
      ExecutionsFrame(s, s');
      SettledFrame(s, s');
      assert ReversalOk(s, s.reversals[reversalId]);
      AddReversalRow(s, s', row);
      HoldsFrame(s, s');
    }
  }

  // ---------------------------------------------------------------- whole runs

  lemma TickKeepsInv(s: State, now: int, later: int, opening: map<string, Account>)
    requires Inv(s, now, opening) && now <= later
    ensures Inv(s, later, opening)
  {
    forall t | t in s.accounts ensures WithinLimits(s, t, later) {
      assert WithinLimits(s, t, now);
      SumAtMost(s.prepared, Pending(s.accounts[t].tenantId, t, later), Pending(s.accounts[t].tenantId, t, now));
    }
  }

  lemma StepKeepsInv(c: Clocked, op: Op, opening: map<string, Account>)
    requires Inv(c.state, c.now, opening)
    ensures var c' := Step(c, op); Inv(c'.state, c'.now, opening)
  {
    hide Inv, PrepareTransfer, ExecuteTransfer, TransferStatus, PlaceHold, ReleaseHold, PrepareReversal,
         ExecuteReversal;
    var s, now := c.state, c.now;
    match op {
      case DoPrepare(scope, source, beneficiary, value, currency, rail, key) =>
        PrepareKeepsInv(s, now, opening, scope, source, beneficiary, value, currency, rail, key);
      case DoExecute(scope, actionId, hash, executionId, reference) =>
        ExecuteKeepsInv(s, now, opening, scope, actionId, hash, executionId, reference);
      case DoStatus(scope, actionId) => StatusKeepsInv(s, now, opening, scope, actionId);
      case DoHold(scope, account, value, currency, key) =>
        PlaceHoldKeepsInv(s, now, opening, scope, account, value, currency, key);
      case DoRelease(scope, holdId) => ReleaseHoldKeepsInv(s, now, opening, scope, holdId);
      case DoPrepareReversal(scope, executionId, value, reason, key) =>
        PrepareReversalKeepsInv(s, now, opening, scope, executionId, value, reason, key);
      case DoReverse(scope, reversalId, hash, reviewed, reference) =>
        ReverseKeepsInv(s, now, opening, scope, reversalId, hash, reviewed, reference);
      case SetBeneficiary(token, row) => BeneficiariesKeepInv(s, now, opening, s.beneficiaries[token := row]);
      case Tick(microseconds) => TickKeepsInv(s, now, now + microseconds, opening);
    }
  }

  lemma BeneficiariesKeepInv(s: State, now: int, opening: map<string, Account>, beneficiaries: map<string, Beneficiary>)
    requires Inv(s, now, opening)
    ensures Inv(s.(beneficiaries := beneficiaries), now, opening)
  {
    var s' := s.(beneficiaries := beneficiaries);
    BalancesFrame(s, s', opening);
    LimitsFrame(s, s', now);
    PreparedFrame(s, s');
    ExecutionsFrame(s, s');
    SettledFrame(s, s');
    ReversalsFrame(s, s');
    HoldsFrame(s, s');
  }

  lemma {:induction false} RunKeepsInv(c: Clocked, ops: seq<Op>, opening: map<string, Account>)
    requires Inv(c.state, c.now, opening)
    ensures var c' := Run(c, ops); Inv(c'.state, c'.now, opening)
    decreases |ops|
  {
    if ops != [] {
      StepKeepsInv(c, ops[0], opening);
      RunKeepsInv(Step(c, ops[0]), ops[1..], opening);
    }
  }

  lemma OpenedIsOk(opening: map<string, Account>, beneficiaries: map<string, Beneficiary>, now: int)
    requires Opening(opening)
    ensures Inv(Opened(opening, beneficiaries), now, opening)
  {
    var s := Opened(opening, beneficiaries);
    forall t | t in opening ensures Balanced(s, opening, t) {}
  }

  // ------------------------------------------------------------------ theorems

  /** Money is conserved on every account, in every run, against three independent records. */
  lemma Conservation(opening: map<string, Account>, beneficiaries: map<string, Beneficiary>, now: int, ops: seq<Op>,
                     t: string)
    requires Opening(opening) && t in opening
    ensures var s := Run(Clocked(Opened(opening, beneficiaries), now), ops).state;
      && t in s.accounts
      && var account, first := s.accounts[t], opening[t];
         && account.current == first.current - Sum(s.executions, Taken(t)) + Sum(s.reversals, Refunded(s.executions, t))
         && account.current == first.current + Sum(s.transactions, Posted(t))
         && account.available == account.current - (first.current - first.available) - Sum(s.holds, Held(t))
         && account.available >= 0
  {
    OpenedIsOk(opening, beneficiaries, now);
    RunKeepsInv(Clocked(Opened(opening, beneficiaries), now), ops, opening);
    assert Balanced(Run(Clocked(Opened(opening, beneficiaries), now), ops).state, opening, t);
  }

  /** Every journal balances, and all credits together are all executions together. */
  lemma DoubleEntry(opening: map<string, Account>, beneficiaries: map<string, Beneficiary>, now: int, ops: seq<Op>,
                    journal: nat)
    requires Opening(opening)
    ensures var s := Run(Clocked(Opened(opening, beneficiaries), now), ops).state;
      && Sum(s.ledger, JournalSide(journal, Debit)) == Sum(s.ledger, JournalSide(journal, Credit))
      && Sum(s.ledger, LedgerSide(Credit)) == Sum(s.executions, Executed())
  {
    OpenedIsOk(opening, beneficiaries, now);
    RunKeepsInv(Clocked(Opened(opening, beneficiaries), now), ops, opening);
  }

  /** A prepared action is SETTLED exactly when one execution for it exists, and never two. */
  lemma SettledExactlyOnce(opening: map<string, Account>, beneficiaries: map<string, Beneficiary>, now: int,
                           ops: seq<Op>, actionId: nat)
    requires Opening(opening)
    ensures var s := Run(Clocked(Opened(opening, beneficiaries), now), ops).state;
      && (actionId < |s.prepared| && s.prepared[actionId].status == Settled <==> HasExecution(s, actionId))
      && (forall i, j :: 0 <= i < j < |s.executions| ==> s.executions[i].actionId != s.executions[j].actionId)
  {
    OpenedIsOk(opening, beneficiaries, now);
    RunKeepsInv(Clocked(Opened(opening, beneficiaries), now), ops, opening);
    var s := Run(Clocked(Opened(opening, beneficiaries), now), ops).state;
    if HasExecution(s, actionId) {
      var k :| 0 <= k < |s.executions| && s.executions[k].actionId == actionId;
      assert ExecutionOk(s, s.executions[k]);
    }
  }

  /** At every instant the live preparations of an account fit its daily and per-transfer limits. */
  lemma LimitsHold(opening: map<string, Account>, beneficiaries: map<string, Beneficiary>, now: int, ops: seq<Op>,
                   t: string)
    requires Opening(opening) && t in opening
    ensures var c := Run(Clocked(Opened(opening, beneficiaries), now), ops);
      && Sum(c.state.prepared, Reserved(t, c.now)) <= opening[t].dailyLimit
      && forall p :: p in c.state.prepared && p.action.source == t && Waiting(p, c.now) ==>
           p.action.amount <= opening[t].perTransferLimit
  {
    OpenedIsOk(opening, beneficiaries, now);
    RunKeepsInv(Clocked(Opened(opening, beneficiaries), now), ops, opening);
    var c := Run(Clocked(Opened(opening, beneficiaries), now), ops);
    assert WithinLimits(c.state, t, c.now);
    ReservedMeans(c.state, t, c.now);
  }
}
