/** The synthetic bank: accounts, preparations, settlements, holds and reversals. */
module Bank {
  import opened Contracts
  import opened Money
  import opened Sums

  const PREPARATION_LIFETIME: int := 15 * MINUTE
  const REVERSAL_LIFETIME: int := 60 * MINUTE

  /** The signed runtime scope of one tool call. */
  datatype RuntimeScope = RuntimeScope(tenantId: nat, userId: nat, purpose: string, callId: nat)

  datatype Account = Account(
    tenantId: nat, userId: nat, currency: string, current: int, available: int,
    perTransferLimit: int, dailyLimit: int, active: bool)

  datatype Beneficiary = Beneficiary(tenantId: nat, verified: bool, active: bool)

  /** Canonical hashes, taken as injective: a hash is the action it names. */
  datatype TransferHash = TransferHash(
    tenantId: nat, userId: nat, source: string, beneficiary: string, amount: nat,
    currency: string, rail: string, purpose: string, key: string)

  datatype ReversalHash = ReversalHash(executionId: string, amount: nat, reason: string, key: string)

  datatype PreparedStatus = Ready | Settled | Expired

  datatype Prepared = Prepared(action: TransferHash, status: PreparedStatus, expiresAt: int)

  datatype Execution = Execution(
    executionId: string, tenantId: nat, actionId: nat, action: TransferHash, callId: nat,
    amount: nat, reference: nat)

  datatype Direction = Debit | Credit

  datatype Transaction = Transaction(account: string, direction: Direction, amount: nat)

  datatype LedgerEntry = LedgerEntry(journalId: nat, line: nat, entry: Direction, amount: nat)

  datatype Hold = Hold(
    tenantId: nat, userId: nat, account: string, amount: nat, currency: string, key: string,
    callId: nat, released: bool, releaseCallId: Option<nat>)

  datatype Reversal = Reversal(
    tenantId: nat, action: ReversalHash, settled: bool, expiresAt: int,
    callId: Option<nat>, reference: Option<nat>)

  /** Row ids of preparations, holds, reversals and journals are positions. */
  datatype State = State(
    accounts: map<string, Account>, beneficiaries: map<string, Beneficiary>, prepared: seq<Prepared>,
    executions: seq<Execution>, transactions: seq<Transaction>, ledger: seq<LedgerEntry>,
    holds: seq<Hold>, reversals: seq<Reversal>)

  datatype Error = DomainError | SecurityError | IntegrityError

  datatype Reply =
    | PreparedReply(actionId: nat, prepared: Prepared)
    | ExecutionReply(execution: Execution)
    | HoldReply(holdId: nat, hold: Hold)
    | ReversalReply(reversalId: nat, reversal: Reversal)

  type Outcome = Result<(State, Reply), Error>

  // ----------------------------------------------------------------- queries

  /** The first row, if any, that satisfies a query. */
  function First<T>(rows: seq<T>, query: T -> bool): (r: Option<nat>)
    ensures r.Some? ==> r.value < |rows| && query(rows[r.value])
    ensures r.None? ==> forall row :: row in rows ==> !query(row)
  {
    if rows == [] then None
    else if query(rows[0]) then Some(0)
    else
      var rest := First(rows[1..], query);
      if rest.Some? then Some(rest.value + 1) else None
  }

  function PreparedByKey(tenantId: nat, key: string): Prepared -> bool {
    (p: Prepared) => p.action.tenantId == tenantId && p.action.key == key
  }

  function ExecutionById(tenantId: nat, executionId: string): Execution -> bool {
    (e: Execution) => e.tenantId == tenantId && e.executionId == executionId
  }

  function ExecutionByAction(tenantId: nat, actionId: nat): Execution -> bool {
    (e: Execution) => e.tenantId == tenantId && e.actionId == actionId
  }

  function ExecutionByCall(tenantId: nat, callId: nat): Execution -> bool {
    (e: Execution) => e.tenantId == tenantId && e.callId == callId
  }

  function ExecutionByReference(reference: nat): Execution -> bool {
    (e: Execution) => e.reference == reference
  }

  function HoldByKey(tenantId: nat, key: string): Hold -> bool {
    (h: Hold) => h.tenantId == tenantId && h.key == key
  }

  function HoldByCall(tenantId: nat, callId: nat): Hold -> bool {
    (h: Hold) => h.tenantId == tenantId && h.callId == callId
  }

  function HoldByRelease(callId: nat): Hold -> bool {
    (h: Hold) => h.releaseCallId == Some(callId)
  }

  function ReversalByKey(tenantId: nat, key: string): Reversal -> bool {
    (r: Reversal) => r.tenantId == tenantId && r.action.key == key
  }

  function ReversalByCall(callId: nat): Reversal -> bool {
    (r: Reversal) => r.callId == Some(callId)
  }

  function ReversalByReference(reference: nat): Reversal -> bool {
    (r: Reversal) => r.reference == Some(reference)
  }

  predicate InScope(s: State, scope: RuntimeScope, token: string) {
    && token in s.accounts && s.accounts[token].tenantId == scope.tenantId
    && s.accounts[token].userId == scope.userId && s.accounts[token].active
  }

  predicate Payable(s: State, scope: RuntimeScope, token: string) {
    && token in s.beneficiaries && s.beneficiaries[token].tenantId == scope.tenantId
    && s.beneficiaries[token].verified && s.beneficiaries[token].active
  }

  predicate Live(p: Prepared, now: int) {
    p.status == Ready && now < p.expiresAt
  }

  /** What one unexpired preparation reserves of an account's daily limit. */
  function Pending(tenantId: nat, account: string, now: int): Prepared -> int {
    (p: Prepared) =>
      if p.action.tenantId == tenantId && p.action.source == account && Live(p, now) then p.action.amount else 0
  }

  /** Live preparations on an account, one of them possibly left out of the sum. */
  function PendingTotal(s: State, tenantId: nat, account: string, now: int, exclude: Option<nat>): int {
    Sum(s.prepared, Pending(tenantId, account, now))
      - (if exclude.Some? && exclude.value < |s.prepared|
         then Pending(tenantId, account, now)(s.prepared[exclude.value]) else 0)
  }

  predicate HasCapacity(s: State, token: string, amount: nat, now: int, exclude: Option<nat>)
    requires token in s.accounts
  {
    var account := s.accounts[token];
    && amount <= account.perTransferLimit && amount <= account.available
    && PendingTotal(s, account.tenantId, token, now, exclude) + amount <= account.dailyLimit
  }

  // --------------------------------------------------- requests as functions

  predicate ValidPayment(currency: string, rail: string, key: string) {
    currency == "INR" && rail == "DEMO_BANK_RAIL" && 8 <= |key| <= 200
  }

  function PrepareTransfer(
    s: State, scope: RuntimeScope, source: string, beneficiary: string, value: Decimal,
    currency: string, rail: string, key: string, now: int): Outcome
  {
    var amount := Amount(value);
    if amount.None? || !ValidPayment(currency, rail, key) then Err(DomainError)
    else
      var action := TransferHash(scope.tenantId, scope.userId, source, beneficiary, amount.value, currency, rail,
                                 scope.purpose, key);
      var existing := First(s.prepared, PreparedByKey(scope.tenantId, key));
      if existing.Some? then
        if s.prepared[existing.value].action != action then Err(DomainError)
        else Ok((s, PreparedReply(existing.value, s.prepared[existing.value])))
      else if !InScope(s, scope, source) || !Payable(s, scope, beneficiary)
              || !HasCapacity(s, source, amount.value, now, None) then Err(DomainError)
      else
        var row := Prepared(action, Ready, now + PREPARATION_LIFETIME);
        Ok((s.(prepared := s.prepared + [row]), PreparedReply(|s.prepared|, row)))
  }

  /** Money moves: both balances, the preparation, the execution, its posting and its journal. */
  function Settle(s: State, scope: RuntimeScope, actionId: nat, executionId: string, reference: nat): (State, Reply)
    requires actionId < |s.prepared| && s.prepared[actionId].action.source in s.accounts
  {
    var p := s.prepared[actionId];
    var token, amount := p.action.source, p.action.amount;
    var account := s.accounts[token];
    var row := Execution(executionId, scope.tenantId, actionId, p.action, scope.callId, amount, reference);
    var journal := |s.executions|;
    (s.(accounts := s.accounts[token := account.(current := account.current - amount,
                                                 available := account.available - amount)],
        prepared := s.prepared[actionId := p.(status := Settled)],
        executions := s.executions + [row],
        transactions := s.transactions + [Transaction(token, Debit, amount)],
        ledger := s.ledger + [LedgerEntry(journal, 1, Debit, amount)] + [LedgerEntry(journal, 2, Credit, amount)]),
     ExecutionReply(row))
  }

  function ReplayExecution(s: State, i: nat, hash: TransferHash): Outcome
    requires i < |s.executions|
  {
    if s.executions[i].action != hash then Err(DomainError) else Ok((s, ExecutionReply(s.executions[i])))
  }

  function ExecuteTransfer(
    s: State, scope: RuntimeScope, actionId: nat, hash: TransferHash, executionId: string, reference: nat, now: int)
    : Outcome
  {
    var prior := First(s.executions, ExecutionById(scope.tenantId, executionId));
    var priorAction := First(s.executions, ExecutionByAction(scope.tenantId, actionId));
    if prior.Some? then ReplayExecution(s, prior.value, hash)
    else if priorAction.Some? then ReplayExecution(s, priorAction.value, hash)
    else if First(s.executions, ExecutionByCall(scope.tenantId, scope.callId)).Some? then Err(SecurityError)
    else if || actionId >= |s.prepared| || s.prepared[actionId].action.tenantId != scope.tenantId
            || s.prepared[actionId].action.userId != scope.userId || s.prepared[actionId].action != hash
         then Err(SecurityError)
    else
      var p := s.prepared[actionId];
      if || !Live(p, now) || !InScope(s, scope, p.action.source) || !Payable(s, scope, p.action.beneficiary)
         || !HasCapacity(s, p.action.source, p.action.amount, now, Some(actionId))
      then Err(DomainError)
      else if First(s.executions, ExecutionByReference(reference)).Some? then Err(IntegrityError)
      else Ok(Settle(s, scope, actionId, executionId, reference))
  }

  function TransferStatus(s: State, scope: RuntimeScope, actionId: nat, now: int): Outcome {
    var execution := First(s.executions, ExecutionByAction(scope.tenantId, actionId));
    if execution.Some? then Ok((s, ExecutionReply(s.executions[execution.value])))
    else if || actionId >= |s.prepared| || s.prepared[actionId].action.tenantId != scope.tenantId
            || s.prepared[actionId].action.userId != scope.userId
         then Err(DomainError)
    else
      var p := s.prepared[actionId];
      if p.status == Ready && p.expiresAt <= now then
        var expired := p.(status := Expired);
        Ok((s.(prepared := s.prepared[actionId := expired]), PreparedReply(actionId, expired)))
      else
        Ok((s, PreparedReply(actionId, p)))
  }

  function PlaceHold(
    s: State, scope: RuntimeScope, token: string, value: Decimal, currency: string, key: string): Outcome
  {
    var amount := Amount(value);
    if amount.None? then Err(DomainError)
    else
      var existing := First(s.holds, HoldByKey(scope.tenantId, key));
      if existing.Some? then
        var h := s.holds[existing.value];
        if h.account != token || h.amount != amount.value then Err(DomainError)
        else Ok((s, HoldReply(existing.value, h)))
      else if || !InScope(s, scope, token) || currency != s.accounts[token].currency
              || amount.value > s.accounts[token].available
           then Err(DomainError)
      else if First(s.holds, HoldByCall(scope.tenantId, scope.callId)).Some? then Err(IntegrityError)
      else
        var account := s.accounts[token];
        var row := Hold(scope.tenantId, scope.userId, token, amount.value, currency, key, scope.callId, false, None);
        Ok((s.(accounts := s.accounts[token := account.(available := account.available - amount.value)],
               holds := s.holds + [row]),
            HoldReply(|s.holds|, row)))
  }

  function ReleaseHold(s: State, scope: RuntimeScope, holdId: nat): Outcome {
    if holdId >= |s.holds| || s.holds[holdId].tenantId != scope.tenantId || s.holds[holdId].userId != scope.userId
    then Err(DomainError)
    else
      var h := s.holds[holdId];
      if h.released then Ok((s, HoldReply(holdId, h)))
      else if h.releaseCallId.Some? then Err(SecurityError)
      else if !InScope(s, scope, h.account) then Err(DomainError)
      else if First(s.holds, HoldByRelease(scope.callId)).Some? then Err(IntegrityError)
      else
        var account := s.accounts[h.account];
        var row := h.(released := true, releaseCallId := Some(scope.callId));
        Ok((s.(accounts := s.accounts[h.account := account.(available := account.available + h.amount)],
               holds := s.holds[holdId := row]),
            HoldReply(holdId, row)))
  }

  function PrepareReversal(
    s: State, scope: RuntimeScope, executionId: string, value: Decimal, reason: string, key: string, now: int): Outcome
  {
    var amount := Amount(value);
    if amount.None? then Err(DomainError)
    else
      var execution := First(s.executions, ExecutionById(scope.tenantId, executionId));
      if execution.None? || amount.value > s.executions[execution.value].amount then Err(DomainError)
      else
        var action := ReversalHash(executionId, amount.value, reason, key);
        var existing := First(s.reversals, ReversalByKey(scope.tenantId, key));
        if existing.Some? then
          if s.reversals[existing.value].action != action then Err(DomainError)
          else Ok((s, ReversalReply(existing.value, s.reversals[existing.value])))
        else
          var row := Reversal(scope.tenantId, action, false, now + REVERSAL_LIFETIME, None, None);
          Ok((s.(reversals := s.reversals + [row]), ReversalReply(|s.reversals|, row)))
  }

  function ExecuteReversal(
    s: State, scope: RuntimeScope, reversalId: nat, hash: ReversalHash, reviewed: bool, reference: nat, now: int)
    : Outcome
  {
    if !reviewed then Err(SecurityError)
    else if || reversalId >= |s.reversals| || s.reversals[reversalId].tenantId != scope.tenantId
            || s.reversals[reversalId].action != hash
         then Err(SecurityError)
    else
      var r := s.reversals[reversalId];
      if r.settled then Ok((s, ReversalReply(reversalId, r)))
      else if r.expiresAt <= now then Err(DomainError)
      else
        var execution := First(s.executions, ExecutionById(scope.tenantId, r.action.executionId));
        if execution.None? then Err(DomainError)
        else
          var actionId := s.executions[execution.value].actionId;
          if actionId >= |s.prepared| || !InScope(s, scope, s.prepared[actionId].action.source) then Err(DomainError)
          else if || First(s.reversals, ReversalByCall(scope.callId)).Some?
                  || First(s.reversals, ReversalByReference(reference)).Some?
               then Err(IntegrityError)
          else
            var token := s.prepared[actionId].action.source;
            var account := s.accounts[token];
            var amount := r.action.amount;
            var row := r.(settled := true, callId := Some(scope.callId), reference := Some(reference));
            Ok((s.(accounts := s.accounts[token := account.(current := account.current + amount,
                                                            available := account.available + amount)],
                   reversals := s.reversals[reversalId := row],
                   transactions := s.transactions + [Transaction(token, Credit, amount)]),
                ReversalReply(reversalId, row)))
  }

  // ---------------------------------------------------------------- whole runs

  datatype Op =
    | DoPrepare(scope: RuntimeScope, source: string, beneficiary: string, value: Decimal, currency: string,
                rail: string, key: string)
    | DoExecute(scope: RuntimeScope, actionId: nat, hash: TransferHash, executionId: string, reference: nat)
    | DoStatus(scope: RuntimeScope, actionId: nat)
    | DoHold(scope: RuntimeScope, account: string, value: Decimal, currency: string, key: string)
    | DoRelease(scope: RuntimeScope, holdId: nat)
    | DoPrepareReversal(scope: RuntimeScope, executionId: string, value: Decimal, reason: string, key: string)
    | DoReverse(scope: RuntimeScope, reversalId: nat, reversalHash: ReversalHash, reviewed: bool, reference: nat)
    | SetBeneficiary(token: string, row: Beneficiary)
    | Tick(microseconds: nat)

  function Request(s: State, op: Op, now: int): Outcome
    requires !op.SetBeneficiary? && !op.Tick?
  {
    match op
    case DoPrepare(scope, source, beneficiary, value, currency, rail, key) =>
      PrepareTransfer(s, scope, source, beneficiary, value, currency, rail, key, now)
    case DoExecute(scope, actionId, hash, executionId, reference) =>
      ExecuteTransfer(s, scope, actionId, hash, executionId, reference, now)
    case DoStatus(scope, actionId) => TransferStatus(s, scope, actionId, now)
    case DoHold(scope, account, value, currency, key) => PlaceHold(s, scope, account, value, currency, key)
    case DoRelease(scope, holdId) => ReleaseHold(s, scope, holdId)
    case DoPrepareReversal(scope, executionId, value, reason, key) =>
      PrepareReversal(s, scope, executionId, value, reason, key, now)
    case DoReverse(scope, reversalId, hash, reviewed, reference) =>
      ExecuteReversal(s, scope, reversalId, hash, reviewed, reference, now)
  }

  datatype Clocked = Clocked(state: State, now: int)

  // A request that raises changes nothing; beneficiaries are changed by other requests at will.
  function Step(c: Clocked, op: Op): Clocked {
    match op
    case SetBeneficiary(token, row) =>
      c.(state := c.state.(beneficiaries := c.state.beneficiaries[token := row]))
    case Tick(microseconds) => c.(now := c.now + microseconds)
    case _ =>
      var r := Request(c.state, op, c.now);
      if r.Ok? then c.(state := r.value.0) else c
  }

  function Run(c: Clocked, ops: seq<Op>): Clocked
    decreases |ops|
  {
    if ops == [] then c else Run(Step(c, ops[0]), ops[1..])
  }

  function Opened(accounts: map<string, Account>, beneficiaries: map<string, Beneficiary>): State {
    State(accounts, beneficiaries, [], [], [], [], [], [])
  }
}
