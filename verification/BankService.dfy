/** The bank service: its tables as fields, each request one transaction. */
module BankService {
  import opened Contracts
  import opened Money
  import opened Bank
  import BankSafety

  class Service {
    var accounts: map<string, Account>
    var beneficiaries: map<string, Beneficiary>
    var prepared: seq<Prepared>
    var executions: seq<Execution>
    var transactions: seq<Transaction>
    var ledger: seq<LedgerEntry>
    var holds: seq<Hold>
    var reversals: seq<Reversal>

    constructor (accounts: map<string, Account>, beneficiaries: map<string, Beneficiary>)
      ensures Model() == Opened(accounts, beneficiaries)
    {
      this.accounts, this.beneficiaries := accounts, beneficiaries;
      prepared, executions, transactions, ledger, holds, reversals := [], [], [], [], [], [];
    }

    function Model(): State
      reads this
    {
      State(accounts, beneficiaries, prepared, executions, transactions, ledger, holds, reversals)
    }

    // `r` and the tables are what request function `specified` yields from the tables before.
    ghost predicate Answers(r: Result<Reply, Error>, before: State, specified: Outcome)
      reads this
    {
      && specified == (if r.Ok? then Ok((Model(), r.value)) else Err(r.error))
      && (r.Err? ==> Model() == before)
    }

    method Prepare(
      scope: RuntimeScope, source: string, beneficiary: string, value: Decimal, currency: string, rail: string,
      key: string, now: int) returns (r: Result<Reply, Error>)
      modifies this`prepared
      ensures Answers(r, old(Model()),
        PrepareTransfer(old(Model()), scope, source, beneficiary, value, currency, rail, key, now))
    {
      var amount := Amount(value);
      if amount.None? || !ValidPayment(currency, rail, key) { return Err(DomainError); }
      var action := TransferHash(scope.tenantId, scope.userId, source, beneficiary, amount.value, currency, rail,
                                 scope.purpose, key);
      var existing := First(prepared, PreparedByKey(scope.tenantId, key));
      if existing.Some? {
        if prepared[existing.value].action != action { return Err(DomainError); }
        return Ok(PreparedReply(existing.value, prepared[existing.value]));
      }
      if !InScope(Model(), scope, source) || !Payable(Model(), scope, beneficiary) { return Err(DomainError); }
      if !HasCapacity(Model(), source, amount.value, now, None) { return Err(DomainError); }
      var row := Prepared(action, Ready, now + PREPARATION_LIFETIME);
      prepared := prepared + [row];
      return Ok(PreparedReply(|prepared| - 1, row));
    }

    method Execute(
      scope: RuntimeScope, actionId: nat, hash: TransferHash, executionId: string, reference: nat, now: int)
      returns (r: Result<Reply, Error>)
      modifies this`accounts, this`prepared, this`executions, this`transactions, this`ledger
      ensures Answers(r, old(Model()),
        ExecuteTransfer(old(Model()), scope, actionId, hash, executionId, reference, now))
    {
      var prior := First(executions, ExecutionById(scope.tenantId, executionId));
      if prior.None? { prior := First(executions, ExecutionByAction(scope.tenantId, actionId)); }
      if prior.Some? {
        if executions[prior.value].action != hash { return Err(DomainError); }
        return Ok(ExecutionReply(executions[prior.value]));
      }
      var replay := First(executions, ExecutionByCall(scope.tenantId, scope.callId));
      if replay.Some? { return Err(SecurityError); }
      if || actionId >= |prepared| || prepared[actionId].action.tenantId != scope.tenantId
         || prepared[actionId].action.userId != scope.userId || prepared[actionId].action != hash
      { return Err(SecurityError); }
      var p := prepared[actionId];
      if p.status != Ready || p.expiresAt <= now { return Err(DomainError); }
      var token, amount := p.action.source, p.action.amount;
      if !InScope(Model(), scope, token) || !Payable(Model(), scope, p.action.beneficiary) { return Err(DomainError); }
      if !HasCapacity(Model(), token, amount, now, Some(actionId)) { return Err(DomainError); }
      if First(executions, ExecutionByReference(reference)).Some? { return Err(IntegrityError); }
      var account := accounts[token];
      account := account.(current := account.current - amount);
      account := account.(available := account.available - amount);
      accounts := accounts[token := account];
      prepared := prepared[actionId := p.(status := Settled)];
      var journal := |executions|;
      var row := Execution(executionId, scope.tenantId, actionId, p.action, scope.callId, amount, reference);
      executions := executions + [row];
      transactions := transactions + [Transaction(token, Debit, amount)];
      ledger := ledger + [LedgerEntry(journal, 1, Debit, amount)] + [LedgerEntry(journal, 2, Credit, amount)];
      return Ok(ExecutionReply(row));
    }

    method Status(scope: RuntimeScope, actionId: nat, now: int) returns (r: Result<Reply, Error>)
      modifies this`prepared
      ensures Answers(r, old(Model()), TransferStatus(old(Model()), scope, actionId, now))
    {
      var execution := First(executions, ExecutionByAction(scope.tenantId, actionId));
      if execution.Some? { return Ok(ExecutionReply(executions[execution.value])); }
      if || actionId >= |prepared| || prepared[actionId].action.tenantId != scope.tenantId
         || prepared[actionId].action.userId != scope.userId
      { return Err(DomainError); }
      if prepared[actionId].status == Ready && prepared[actionId].expiresAt <= now {
        prepared := prepared[actionId := prepared[actionId].(status := Expired)];
      }
      return Ok(PreparedReply(actionId, prepared[actionId]));
    }

    method Place(scope: RuntimeScope, token: string, value: Decimal, currency: string, key: string)
      returns (r: Result<Reply, Error>)
      modifies this`accounts, this`holds
      ensures Answers(r, old(Model()), PlaceHold(old(Model()), scope, token, value, currency, key))
    {
      var amount := Amount(value);
      if amount.None? { return Err(DomainError); }
      var existing := First(holds, HoldByKey(scope.tenantId, key));
      if existing.Some? {
        var h := holds[existing.value];
        if h.account != token || h.amount != amount.value { return Err(DomainError); }
        return Ok(HoldReply(existing.value, h));
      }
      if !InScope(Model(), scope, token) { return Err(DomainError); }
      var account := accounts[token];
      if currency != account.currency || amount.value > account.available { return Err(DomainError); }
      if First(holds, HoldByCall(scope.tenantId, scope.callId)).Some? { return Err(IntegrityError); }
      accounts := accounts[token := account.(available := account.available - amount.value)];
      var row := Hold(scope.tenantId, scope.userId, token, amount.value, currency, key, scope.callId, false, None);
      holds := holds + [row];
      return Ok(HoldReply(|holds| - 1, row));
    }

    method Release(scope: RuntimeScope, holdId: nat) returns (r: Result<Reply, Error>)
      modifies this`accounts, this`holds
      ensures Answers(r, old(Model()), ReleaseHold(old(Model()), scope, holdId))
    {
      if holdId >= |holds| || holds[holdId].tenantId != scope.tenantId || holds[holdId].userId != scope.userId {
        return Err(DomainError);
      }
      var h := holds[holdId];
      if h.released { return Ok(HoldReply(holdId, h)); }
      if h.releaseCallId.Some? { return Err(SecurityError); }
      if !InScope(Model(), scope, h.account) { return Err(DomainError); }
      if First(holds, HoldByRelease(scope.callId)).Some? { return Err(IntegrityError); }
      var account := accounts[h.account];
      accounts := accounts[h.account := account.(available := account.available + h.amount)];
      h := h.(released := true);
      h := h.(releaseCallId := Some(scope.callId));
      holds := holds[holdId := h];
      return Ok(HoldReply(holdId, h));
    }

    method PrepareReverse(
      scope: RuntimeScope, executionId: string, value: Decimal, reason: string, key: string, now: int)
      returns (r: Result<Reply, Error>)
      modifies this`reversals
      ensures Answers(r, old(Model()), PrepareReversal(old(Model()), scope, executionId, value, reason, key, now))
    {
      var amount := Amount(value);
      if amount.None? { return Err(DomainError); }
      var execution := First(executions, ExecutionById(scope.tenantId, executionId));
      if execution.None? || amount.value > executions[execution.value].amount { return Err(DomainError); }
      var action := ReversalHash(executionId, amount.value, reason, key);
      var existing := First(reversals, ReversalByKey(scope.tenantId, key));
      if existing.Some? {
        if reversals[existing.value].action != action { return Err(DomainError); }
        return Ok(ReversalReply(existing.value, reversals[existing.value]));
      }
      var row := Reversal(scope.tenantId, action, false, now + REVERSAL_LIFETIME, None, None);
      reversals := reversals + [row];
      return Ok(ReversalReply(|reversals| - 1, row));
    }

    method Reverse(
      scope: RuntimeScope, reversalId: nat, hash: ReversalHash, reviewed: bool, reference: nat, now: int)
      returns (r: Result<Reply, Error>)
      modifies this`accounts, this`reversals, this`transactions
      ensures Answers(r, old(Model()),
        ExecuteReversal(old(Model()), scope, reversalId, hash, reviewed, reference, now))
    {
      if !reviewed { return Err(SecurityError); }
      if || reversalId >= |reversals| || reversals[reversalId].tenantId != scope.tenantId
         || reversals[reversalId].action != hash
      { return Err(SecurityError); }
      var row := reversals[reversalId];
      if row.settled { return Ok(ReversalReply(reversalId, row)); }
      if row.expiresAt <= now { return Err(DomainError); }
      var execution := First(executions, ExecutionById(scope.tenantId, row.action.executionId));
      if execution.None? { return Err(DomainError); }
      var actionId := executions[execution.value].actionId;
      if actionId >= |prepared| { return Err(DomainError); }
      var token := prepared[actionId].action.source;
      if !InScope(Model(), scope, token) { return Err(DomainError); }
      if || First(reversals, ReversalByCall(scope.callId)).Some?
         || First(reversals, ReversalByReference(reference)).Some?
      { return Err(IntegrityError); }
      var account, amount := accounts[token], row.action.amount;
      account := account.(current := account.current + amount);
      account := account.(available := account.available + amount);
      accounts := accounts[token := account];
      row := row.(settled := true, callId := Some(scope.callId));
      row := row.(reference := Some(reference));
      reversals := reversals[reversalId := row];
      transactions := transactions + [Transaction(token, Credit, amount)];
      return Ok(ReversalReply(reversalId, row));
    }

    /** Any request is one step of the bank's runs, and keeps what every run keeps. */
    method Handle(op: Op, now: int, ghost opening: map<string, Account>) returns (r: Result<Reply, Error>)
      requires !op.SetBeneficiary? && !op.Tick? && BankSafety.Inv(Model(), now, opening)
      modifies this
      ensures Answers(r, old(Model()), Request(old(Model()), op, now))
      ensures Clocked(Model(), now) == Step(Clocked(old(Model()), now), op)
      ensures BankSafety.Inv(Model(), now, opening)
    {
      hide BankSafety.Inv, PrepareTransfer, ExecuteTransfer, TransferStatus, PlaceHold, ReleaseHold, PrepareReversal,
           ExecuteReversal;
      BankSafety.StepKeepsInv(Clocked(Model(), now), op, opening);
      match op {
        case DoPrepare(scope, source, beneficiary, value, currency, rail, key) =>
          r := Prepare(scope, source, beneficiary, value, currency, rail, key, now);
        case DoExecute(scope, actionId, hash, executionId, reference) =>
          r := Execute(scope, actionId, hash, executionId, reference, now);
        case DoStatus(scope, actionId) => r := Status(scope, actionId, now);
        case DoHold(scope, account, value, currency, key) => r := Place(scope, account, value, currency, key);
        case DoRelease(scope, holdId) => r := Release(scope, holdId);
        case DoPrepareReversal(scope, executionId, value, reason, key) =>
          r := PrepareReverse(scope, executionId, value, reason, key, now);
        case DoReverse(scope, reversalId, hash, reviewed, reference) =>
          r := Reverse(scope, reversalId, hash, reviewed, reference, now);
      }
    }
  }
}
