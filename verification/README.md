# Verified models of the transactional cores

This project models the state machines behind a governed tool platform and its synthetic demo systems, and
proves what they keep over every run:

- **Tool calls** (`Contracts`, `Policy`, `Guardian`, `GuardianRules`, `GuardianService`, `Protocol`,
  `ProtocolSafety`, `ProtocolOutcomes`, `ProtocolLimits`, `ProtocolSnapshots`, `ToolBroker`, `RemoteClient`): the
  broker and Guardian commit separately. Guardian commits a decision in one step and the broker acts on the answer
  in a later one, so approvals, other calls, redelivered requests, lost replies, crashes and the clock come between
  any two of them.
- **Synthetic bank and disbursement saga** (`Money`, `Sums`, `Bank`, `BankSafety`, `BankRules`, `BankService`,
  `Saga`, `SagaSafety`, `SagaReports`, `SagaCoordinator`): balances, holds, reversals, double-entry lines, and a
  coordinator that may be started, resumed, crashed and overlapped at will.
- **Business registry** (`Registry`, `RegistrySafety`, `RegistryFields`, `RegistryService`): versioned records and
  reviewed changes.
- **Job queue** (`Jobs`, `JobsSafety`, `JobsRules`, `JobQueue`): leases, retries, backoff and workers that outlive
  their lease.
- **Resume jobs** (`ResumeJobs`): the queue and the broker together, with handlers whose request reaches the broker
  but whose answer may be lost, and agent runs that take a result.
- **Tool catalogue** (`Catalogue`, `CatalogueSafety`, `CatalogueReviews`, `ToolRegistry`), **audit chain**
  (`AuditChain`), **session store** (`SessionStore`), **context window** (`ContextWindow`), **trace risk**
  (`TraceRisk`) and **message paging** (`MessagePaging`).

How the models are built:

- A request is one transaction: a raised error leaves the state as it was. Each core has a value-level state and
  one total step function per request; a run folds a list of steps, and a step that is not enabled changes
  nothing. Main results quantify over all runs.
- Where the program updates rows in place, a class holds the same tables as fields and its methods update them
  in the program's order; each method's postcondition says that the new tables and the answer are those of the
  request function. Loops of the program are loops here.
- Time is one non-decreasing clock in microseconds, read once per transaction. JWT dates are whole seconds, and
  a token is refused at its `exp` (section 4.1.4 of RFC 7519).
- A canonical hash is injective: it is modelled as the document it was taken of, or, in the audit chain, as a
  function assumed injective. A signed token can only be one that Guardian issued. Two JSON documents that
  differ in key order are the same document.
- Money is in hundredths. Row ids are row positions, except where a caller supplies the id.
- Each core has two kinds of results: what every run keeps, and rules that say from the rows alone when a request
  writes and what it then writes. The rules name no request function in their conditions, and use the invariant of
  the runs where the rows imply what the program checks again.
- Replies of tools, of the ledger and of the network, the moment of a crash, and everything other users do are
  inputs of the run. Fields marked as history (`rivals`, `runs`, `created`, `proposedOn`, an invocation's `reply`, an
  approval's acting tenant, the event log of the saga) record what happened and influence nothing.
- Anyone may ask Guardian about any call already issued, under any policy snapshot and any number of times, as long as
  the hash is that of the document (`MayAsk`); call ids are random, so nobody asks about a call that is still to come.
  What the broker asks is kept in the history field `asked`.
- Guardian answers the broker, answers with an error status, or stays silent (`GuardianReply`). An error status
  blocks the call; silence raises, so the broker's rows are undone and a decision Guardian committed stays.

Findings that the proofs make precise:

- A call is invoked at most once unless its broker transaction was lost after the tool ran, and then one approval
  is enough to reach the tool again (`LostTransactionRepeats`, and `LostSubmitRepeats` for a resubmitted key). Two
  calls of one idempotency key are both invoked, the first of them committed, only if one began while the other
  was open; and any two open calls of one key that Guardian would grant can both be invoked and committed
  (`RivalsBothInvoke`, `OverlappingSubmitsRepeat`).
- One decision can carry several live authorizations, since a repeated evaluation issues anew (`RedeliveryIssuesTwice`).
- Guardian answers a repeated request from its first live decision, so the snapshot an invocation was judged under is the
  broker's exactly if that decision was asked under it (`AnsweredUnderTheFirstSnapshot`). In every run in which nobody
  else asks about the call under another snapshot, it is the tool's own (`UndisputedCallsAreJudgedByTheirTool`).
- Once a resumed call has its result, an agent run can still take it exactly while a handler that heard it is going
  (`DeliverableExactlyWhileHeld`). If the broker's answer is lost, every retry is refused: the job never completes
  (`StrandedJobsNeverComplete`) and can only end FAILED although the tool succeeded (`LostAnswerFailsTheJob`).
- A READ tool whose approval mode is POLICY passes the broker's checks and is always blocked by Guardian
  (`AdmittedRequestsAreDecidedByRisk`).
- `EXPIRED` is never stored for an approval or an authorization, since the error raised next undoes it.
- A live preparation never fails the daily or the per-transfer limit when it is executed: of the capacity check
  only the available balance can still refuse it (`ExecutesExactly`).
- A record keeps the flag REGISTRY_SUSPENDED after it is active again: no move lifts it (`FlagsTellTheMoves`).
- A settlement report names its own flow's execution exactly when that flow's execution debited the account
  (`ReportNamesItsFlowExactlyIfItDebited`); a later flow reports the earlier one's execution under its own execution id
  (`LaterFlowReportsEarlierExecution`). All four calls of the second flow have to get through the broker for that: every
  key is fixed and every hashed document carries the flow's correlation id, so the broker refuses a call of the second
  flow as a conflict unless the first flow's transaction of the same call was lost or the two submits overlapped. In the
  run of `MispairedReportExists` the two flows go side by side and overlap at every call. The saga's gateway leaves
  open what the broker does: its `Delivers` stands for a call that got through.
- A COMPLETED or FAILED job changes state exactly when a handler still going ends with the opposite outcome
  (`EndStateIsLeftExactlyByStaleFinish`), which takes an overrun lease (`EndStatesAreFinal`).
- The backoff bound holds from the second claim on; the first claim precedes the first failure.
- A trace without tool steps scores 100, so its first tool step can lower the score (`FirstToolMayLower`);
  a clean read-only trace can reach 25 and leave the LOW band (`TwentyFiveIsReached`).

## Model

| member | source | states |
|---|---|---|
| `ProtocolSafety.ProtectedInvocationsAreAuthorized` | packages/tools/broker.py:58-264 | In every interleaving of Guardian's and the broker's commits, every invocation of a protected tool and every resumed call owns its own consumed authorization for that call and hash, traced to a decision about exactly the request and hash the broker asked about, whoever else asked about it; the document satisfies every list of the policy it was judged under, and if that policy needs a human, a holder of the approver role acting for the decision's tenant approved before it expired; tool name and arguments sent are those hashed. |
| `ProtocolSafety.RepeatsFollowLostTransactions` | packages/tools/broker.py:330-458 | A second invocation of one call means the first never committed; a second one of one idempotency key means that too, or that one of these two calls began while the other was open; a tool with side effects is sent at most once per invocation. |
| `ProtocolOutcomes.RivalsOverlapped` | packages/tools/broker.py:341-351 | In every run two calls count as rivals only if the second began, with the same key, at a moment when the first was open. |
| `ProtocolSafety.LaterSubmitsReplay` | packages/tools/broker.py:330-359 | Once a keyed call has a result, no later submit of the key, after any run, changes anything; where access is granted and no other committed row carries the key, it is answered by that same result, or refused as a conflict for another request; only a rival's row can carry the key too. |
| `ProtocolSafety.ResultsAreFinal` | packages/tools/broker.py:488-515 | A stored result and its call row never change again. |
| `ProtocolSafety.RetriedResumesAreRefused` | apps/worker/handlers.py:22-52 | A retried resume job never reopens a call that has its result. |
| `ProtocolSafety.ConsumptionIsFresh` | packages/guardian/service.py:50-66 | Every consumption happens less than 15 minutes and 120 seconds after its decision, on every path: first evaluation, re-evaluation of the same request by whoever delivers it again, and approved resume. |
| `ProtocolSafety.AdmittedRequestsAreDecidedByRisk` | packages/guardian/policy.py:17-49 | What passes the broker's access checks is allowed, escalated or blocked by risk class and approval mode alone, and blocked exactly for READ under POLICY. |
| `Policy.EvaluateMeans` | packages/guardian/policy.py:17-49 | The chain of rules escalates exactly a satisfied request that needs a human, allows exactly a satisfied one that does not and is not READ under another mode than NEVER, and blocks all others. |
| `ProtocolSafety.RunKeepsInv` | packages/tools/broker.py:58-486 | The joint invariant of broker, Guardian, approvers and outside token holders holds after any run. |
| `ProtocolSnapshots.AnsweredUnderTheFirstSnapshot` | packages/guardian/service.py:126-159 | Guardian's answer rests on a decision about exactly the request asked, and on the snapshot asked under if and only if there was no live decision before or it was asked under that snapshot. |
| `ProtocolSnapshots.UndisputedCallsAreJudgedByTheirTool` | packages/tools/broker.py:116-131 | In every run in which nobody asks Guardian about the call what the broker does not ask, its authorized invocations were judged under what the broker asked, and those of a first submit under the policy of the tool invoked. |
| `ProtocolOutcomes.ResultsAreTruthful` | packages/tools/broker.py:361-458 | In every run, the stored result of a committed invocation is SUCCEEDED with projection p exactly if the reply yields p within the size limit (a core tool's own result, or the first answer among the attempts allowed), UNKNOWN exactly if it did not succeed and the tool is remote with side effects, FAILED exactly if it did not succeed otherwise; the row has that status, and every attempt that left is counted. |
| `ProtocolOutcomes.RowsAreExplained` | packages/tools/broker.py:116-172 | In every run a waiting row names a decision about its own request that asks for an approver, a blocked one was refused by Guardian or met its error, and any other row stems from a committed invocation. |
| `ProtocolOutcomes.FirstInvocationsWereAdmitted` | packages/tools/broker.py:298-321 | In every run each first invocation met every access rule of the very tool row it was made with, and each authorization spent was issued under the decision its row names. |
| `ProtocolOutcomes.SubmitsBeginExactlyWhenAdmitted` | packages/tools/broker.py:298-359 | A submit opens a call exactly if the tool is known, the request admitted and its key unused, and the hashed document says field by field what the request and the tool say. |
| `ProtocolOutcomes.HeardAnswersAreActedOn` | packages/tools/broker.py:146-172 | A heard escalation parks the call, a refusal blocks it, a grant is held, and nothing else moves. |
| `ProtocolOutcomes.ErrorsBlock` | packages/tools/broker.py:130-145 | An error status blocks the call for good, whatever Guardian decided. |
| `ProtocolOutcomes.ResumesOpenExactly` | packages/tools/broker.py:187-218 | A resume opens exactly a waiting call of the tenant that nobody holds, for its own tool version. |
| `ProtocolLimits.OverlappingSubmitsRepeat` | packages/tools/broker.py:341-351 | In every reachable world, any keyed request that is admitted, allowed and has no committed row yet invokes its tool twice, both committed, when it is submitted twice before either commits. |
| `ProtocolLimits.RivalsBothInvoke` | packages/tools/broker.py:341-351 | Any two open submits of one key that Guardian would grant can both reach the tool and commit. |
| `ProtocolLimits.DriveInvokes` | packages/tools/broker.py:116-185 | An open submit that is cleared, authorized, granted or would be granted reaches its tool exactly once when nothing disturbs it, and disturbs no other such call. |
| `ProtocolLimits.LostSubmitRepeats` | packages/tools/broker.py:361-458 | In every reachable world, such a request whose first transaction is lost after the tool ran invokes it again when its key is resubmitted. |
| `ProtocolLimits.RedeliveryIssuesTwice` | packages/guardian/service.py:126-159 | When the broker's evaluation request is delivered twice, the second is answered from the first's decision, which then carries two live authorizations. |
| `ProtocolLimits.ApprovedResumeInvokes` | packages/tools/broker.py:187-264 | Until its decision expires, an approved call's uninterrupted resume reaches the tool exactly once; if the transaction is lost, the call is just as resumable. |
| `ProtocolLimits.LostTransactionRepeats` | packages/tools/broker.py:361-458 | From any approved call there is a run with a lost and then a committed invocation of it. |
| `Guardian.EvaluateKeepsInv` | packages/guardian/service.py:46-124 | Evaluation keeps decisions, approvals and authorizations consistent and erases nothing. |
| `Guardian.ActKeepsInv` | packages/guardian/service.py:202-257 | A resolved approval was pending, in time and resolved by a holder of its required role; it is never resolved again. |
| `Guardian.ConsumeKeepsInv` | packages/guardian/service.py:259-290 | Only an active, unexpired authorization of this call and hash is consumed, once and for good. |
| `Guardian.AuthorizeApprovedKeepsInv` | packages/guardian/service.py:292-322 | An authorization is issued only under an approved, unexpired decision of exactly this request. |
| `GuardianRules.ActsExactly` | packages/guardian/service.py:202-257 | An action succeeds exactly on an open, unexpired approval of the actor's tenant by a holder of the approver role; then exactly that approval is approved or rejected as the action says, with the acting tenant and time. |
| `GuardianRules.ConsumesExactly` | packages/guardian/service.py:259-290 | A token is consumed exactly if it is the one of an active authorization for this call and hash, before the whole second of its end, and exactly that row changes. |
| `GuardianRules.AuthorizesExactly` | packages/guardian/service.py:292-322 | A resume is authorized exactly while the newest approved decision of its very request is alive and a key is configured; one authorization for that request is added. |
| `GuardianRules.RepeatsAreAnsweredByStanding` | packages/guardian/service.py:126-159 | A repeated evaluation is answered by how the live decision stands: granted, waiting or refused; nothing is decided anew. |
| `GuardianRules.FirstRequestsAreJudged` | packages/guardian/service.py:46-124 | A first evaluation records one decision open for 15 minutes with the outcome its policy means, opens an approval exactly if it needs one, and grants exactly if it is allowed. |
| `GuardianService.Service.EvaluateRequest` | packages/guardian/service.py:46-124 | The row-updating request yields the specified state and response; a failed signing rolls back the inserted decision and approval. |
| `GuardianService.Service.ResolveExistingDecision` | packages/guardian/service.py:126-159 | A repeated evaluation is answered from the newest live decision and its approval. |
| `GuardianService.Service.Act` | packages/guardian/service.py:202-257 | Resolution of an approval in place; the EXPIRED status set before the error is undone. |
| `GuardianService.Service.ConsumeToken` | packages/guardian/service.py:259-290 | Consumption in place, with every refusal leaving the rows as they were. |
| `GuardianService.Service.Authorize` | packages/guardian/service.py:292-322 | Authorization of an approved decision in place. |
| `ToolBroker.Broker.Execute` | packages/tools/broker.py:58-185 | An uninterrupted `execute` takes both services where its protocol steps take them (begin, ask Guardian about a protected call, consume, invoke), whatever becomes of the request to Guardian, and answers the stored result, the approval notice or the specified refusal. |
| `ToolBroker.AnswersAreOnRecord` | packages/tools/broker.py:58-185 | What an uninterrupted `execute` answers is on record: a stored result, or the notice of a call that waits; and a call that got either is answered by it. |
| `ToolBroker.Broker.Clear` | packages/tools/broker.py:116-172 | Guardian commits its decision first; the broker then stores WAITING_APPROVAL or BLOCKED, or holds the token; an error status blocks the call. |
| `ToolBroker.Broker.GiveUp` | packages/guardian/client.py:29-38 | When Guardian does not answer at all, `execute` raises: no row of the broker remains, and of Guardian's rows those it committed if it was reached. |
| `ToolBroker.Broker.Resume` | packages/tools/broker.py:187-264 | An uninterrupted `resume` is the four protocol steps; it answers a result exactly when the tool was invoked once, and a refusal changes no call. |
| `ToolBroker.Broker.CallTool` | packages/tools/broker.py:361-486 | One invocation is logged, with its sends, and its SUCCEEDED, FAILED or UNKNOWN result stored. |
| `ToolBroker.Broker.Receive` | packages/tools/broker.py:298-359 | A request goes on exactly when the tool is known, access is granted and no committed call carries its key. |
| `RemoteClient.CallTool` | packages/mcp_gateway/client.py:59-89 | The retry loop returns the first answer within `maxRetries + 1` attempts, or fails, and counts its sends. |
| `RemoteClient.CallFrom` | packages/mcp_gateway/client.py:67-89 | There is a result exactly when some allowed attempt is answered, it is the first answered attempt's, and sends are at most the allowed attempts. |
| `RemoteClient.SendsAreTheAttemptsThatLeft` | packages/mcp_gateway/client.py:67-89 | The sends counted are exactly the attempts that left, up to the first answer or the last retry. |
| `BankSafety.Conservation` | demos/bank-mcp/bank_demo/service.py:237-497 | On every account after any run, the balance is opening minus executions plus settled reversals, and opening plus CREDIT minus DEBIT postings; available is current minus the opening gap minus active holds, and never negative. |
| `BankSafety.DoubleEntry` | demos/bank-mcp/bank_demo/service.py:272-311 | Each journal's debits equal its credits, and all credits together equal all executions together. |
| `BankSafety.SettledExactlyOnce` | demos/bank-mcp/bank_demo/service.py:237-311 | A prepared action is SETTLED exactly when an execution for it exists, and there is never a second one. |
| `BankSafety.LimitsHold` | demos/bank-mcp/bank_demo/service.py:538-552 | At every instant the unexpired preparations of an account sum to at most its daily limit, each within the per-transfer limit. |
| `BankRules.EveryExecutionWasDue` | demos/bank-mcp/bank_demo/service.py:237-311 | In every run each execution was made by a request that found its action live and unaltered, its source the caller's own, active and funded, and its beneficiary of the tenant, verified and active at that moment. |
| `BankRules.ExecutesExactly` | demos/bank-mcp/bank_demo/service.py:237-311 | In every reachable state an execution is added exactly for such a due action under fresh execution, call and reference ids, and says what was prepared; only its source account and its preparation change, with one posting and two ledger lines. |
| `BankRules.EvidenceIsUnique` | demos/bank-mcp/bank_demo/service.py:240-271 | In every run no two executions share a bank reference, and none of a tenant share an execution id or a Guardian call. |
| `BankRules.RepliesAreOnRecord` | demos/bank-mcp/bank_demo/service.py:240-257 | Any accepted execution request is answered by an execution of this very action on record, of the same id or the same action. |
| `BankRules.PreparesExactly` | demos/bank-mcp/bank_demo/service.py:203-235 | A preparation is added exactly for an INR transfer under an unused key, from the caller's own account to a verified, active beneficiary, with room beside the live preparations. |
| `BankRules.ExpiresExactly` | demos/bank-mcp/bank_demo/service.py:313-328 | A status query writes exactly if the preparation is the caller's own, READY and overdue. |
| `BankRules.HoldsExactly` | demos/bank-mcp/bank_demo/service.py:330-353 | A hold is added exactly on the caller's own account, in its currency, within its balance, under an unused key and call. |
| `BankRules.RepeatedHoldsAreAnswered` | demos/bank-mcp/bank_demo/service.py:330-353 | Any accepted hold request is answered by a hold of its key, account and amount on record. |
| `BankRules.ReleasesExactly` | demos/bank-mcp/bank_demo/service.py:355-372 | A hold is released exactly once, by its owner, under a call that released no other. |
| `BankRules.PreparesReversalsExactly` | demos/bank-mcp/bank_demo/service.py:433-460 | A reversal is prepared exactly for an execution of the tenant it does not exceed, under an unused key. |
| `BankRules.ReversesExactly` | demos/bank-mcp/bank_demo/service.py:462-497 | Money goes back exactly for a reviewed, unsettled, unexpired reversal of the caller's own account under fresh ids. |
| `BankService.Service.Prepare` | demos/bank-mcp/bank_demo/service.py:203-235 | Preparation: replay or refusal by key, then scope, beneficiary and capacity. |
| `BankService.Service.Execute` | demos/bank-mcp/bank_demo/service.py:237-311 | Execution: three kinds of replay, all checks, then balances, status, execution, posting and both ledger lines. |
| `BankService.Service.Status` | demos/bank-mcp/bank_demo/service.py:313-328 | A status query also expires an overdue preparation. |
| `BankService.Service.Place` | demos/bank-mcp/bank_demo/service.py:330-353 | A hold keeps its amount from the available balance once per key. |
| `BankService.Service.Release` | demos/bank-mcp/bank_demo/service.py:355-372 | A release gives it back once. |
| `BankService.Service.PrepareReverse` | demos/bank-mcp/bank_demo/service.py:433-460 | A reversal is prepared against an execution it does not exceed. |
| `BankService.Service.Reverse` | demos/bank-mcp/bank_demo/service.py:462-497 | A reviewed, unexpired reversal credits the debited account once. |
| `BankService.Service.Handle` | demos/bank-mcp/bank_demo/service.py:203-497 | Every request on the tables is a step of the bank's runs and keeps the invariant behind conservation, double entry and limits. |
| `Money.AmountIsNearestHundredth` | demos/bank-mcp/bank_demo/service.py:553-561 | A finer decimal is accepted exactly above half a hundredth and within 28 digits, as the nearest hundredth, ties to even. |
| `SagaSafety.LedgerComesFirst` | demos/e2e/xyena_financing_flow.py:73-142 | In every run of any number of processes, a bank debit or a settlement report of a flow comes after that flow's ledger execution succeeded, and a report names an execution the bank holds. |
| `SagaSafety.DebitedAtMostOnce` | demos/e2e/xyena_financing_flow.py:79-114 | However often the flow starts, resumes, crashes or hears nothing, and whatever else the bank does, at most one execution carries the fixed key and the saga debits at most once, by exactly its own transfer. |
| `SagaSafety.ReportsAgree` | demos/e2e/xyena_financing_flow.py:126-142 | All settlement reports of all flows carry one and the same bank execution. |
| `SagaReports.ReportNamesItsFlowExactlyIfItDebited` | demos/e2e/xyena_financing_flow.py:126-142 | While nobody else executes the saga's own transfer, a report's execution id is the bank's own exactly when that flow's execution debited the account before. |
| `SagaReports.LaterFlowReportsEarlierExecution` | demos/bank-mcp/bank_demo/service.py:248-254 | From every reachable state, a flow whose bank execution gets through after another one's debit reports that one's execution under its own id. |
| `SagaReports.MispairedReportExists` | demos/e2e/xyena_financing_flow.py:129-137 | In every funded bank, two flows that go side by side and overlap at each of their four calls end in such a report. |
| `SagaSafety.TransferAmount` | demos/e2e/xyena_financing_flow.py:79-83 | That transfer is the coordinator's: 125000.00 INR from the operating account to the demo beneficiary, under its fixed key. |
| `SagaSafety.BankStepMoves` | demos/bank-mcp/bank_demo/service.py:214-222 | No request of the bank rewrites a prepared action, erases an execution, or lets one tenant's key name two actions. |
| `SagaCoordinator.Coordinator.Start` | demos/e2e/xyena_financing_flow.py:73-97 | A start process raises or ends with the state that the saga's moves produce from its replies. |
| `SagaCoordinator.Coordinator.HandleLedgerResult` | demos/e2e/xyena_financing_flow.py:99-114 | The ledger's answer leads to a checkpoint, an error, or the bank execution and settlement. |
| `SagaCoordinator.Coordinator.Resume` | demos/e2e/xyena_financing_flow.py:116-124 | A resume leaves a still blocked checkpoint as it is, and otherwise goes on where it stopped. |
| `SagaCoordinator.Coordinator.SettleBank` | demos/e2e/xyena_financing_flow.py:126-142 | The flow is RECONCILED exactly when the ledger accepts the settlement. |
| `SagaCoordinator.ProcessesEndAtCheckpoints` | demos/e2e/xyena_financing_flow.py:99-142 | A process that does not raise leaves a checkpoint that waits for one named call, or is reconciled with both executions. |
| `SagaCoordinator.StartEndsExactly` | demos/e2e/xyena_financing_flow.py:73-142 | A start ends waiting for the ledger, waiting for the bank, or RECONCILED exactly on the answers that lead there, with what was answered on record; on all others it raises. |
| `SagaCoordinator.ResumeEndsExactly` | demos/e2e/xyena_financing_flow.py:116-142 | A resume goes on exactly where the checkpoint waits, keeps what it had, and leaves it alone if the call is still blocked. |
| `SagaCoordinator.CheckpointsRoundTrip` | demos/e2e/xyena_financing_flow.py:116-124 | The next process resumes from the very record the last one saved, if it waits for a call. |
| `SagaCoordinator.StartFollowsRun` | demos/e2e/xyena_financing_flow.py:73-114 | A start process of the saga's runs, left to itself, ends exactly where the coordinator's `start` ends. |
| `SagaCoordinator.ResumeFollowsRun` | demos/e2e/xyena_financing_flow.py:116-124 | A resume process, from any checkpoint a run can leave, ends where the coordinator's `resume` ends. |
| `RegistrySafety.VersionGuardsStatus` | demos/business-registry/business_registry/service.py:318-368 | Whenever approval succeeds, the record is unchanged since the proposal and ACTIVE or SUSPENDED. |
| `RegistrySafety.ApprovalsAreSerial` | demos/business-registry/business_registry/service.py:335-368 | Approved changes of one business have different targets, each applied at its target plus one. |
| `RegistrySafety.RecordsReplay` | demos/business-registry/business_registry/service.py:170-265 | The record equals its creation values with all moves and approved patches of its audit log applied in order; those events carry versions 1..version; from version 2 on the source hash is the identity hash of the record. |
| `RegistryFields.FieldsAreTheLastApproved` | demos/business-registry/business_registry/service.py:357-364 | In every run each field of a record is what the newest approved change that proposed it says, or else its creation; the state code is that of the address; the status is where the newest move led; identifiers stay those of the creation. |
| `RegistryFields.FlagsTellTheMoves` | demos/business-registry/business_registry/service.py:241-257 | The flags are those of the pending review and of every status the record was ever moved to; none is lifted later. |
| `RegistryFields.CreatesExactly` | demos/business-registry/business_registry/service.py:170-227 | A record is added exactly for an operator's request that clashes with no identifier of the tenant and is not dated ahead, and says field by field what was requested. |
| `RegistryFields.MovesExactly` | demos/business-registry/business_registry/service.py:229-265 | A status moves exactly by a reviewer, from the expected version, along six allowed moves, and no detail changes. |
| `RegistryFields.ProposesExactly` | demos/business-registry/business_registry/service.py:267-300 | A change is added exactly by an operator against the current version of an active or suspended record, with some field and only whole addresses. |
| `RegistryFields.ApprovesExactly` | demos/business-registry/business_registry/service.py:318-389 | An approval succeeds exactly by a reviewer for a submitted change at its version whose GSTIN no other record carries; then every proposed field has its proposed value, every other its old one, and the state code follows the address. |
| `RegistryFields.RejectsExactly` | demos/business-registry/business_registry/service.py:318-345 | A rejection takes a reviewer and a submitted change, and touches no record. |
| `RegistrySafety.NewestRowsAgree` | demos/business-registry/business_registry/service.py:369-381 | There is a newest LEGAL name row and a newest REGISTERED address row, and they equal the record. |
| `RegistrySafety.IdentifiersAreUnique` | demos/business-registry/business_registry/service.py:176-186 | Registry number, business id and GSTIN stay unique in a tenant. |
| `RegistrySafety.StatusFollowsVersion` | demos/business-registry/business_registry/service.py:241-257 | A record is under review exactly at version 1, and the risk flags name review, dissolution and rejection exactly. |
| `RegistryService.CopyFields` | demos/business-registry/business_registry/service.py:357-361 | The field loop sets each named field the patch proposes and no other. |
| `RegistryService.Service.Create` | demos/business-registry/business_registry/service.py:170-227 | Creation with its refusals, first rows and first event. |
| `RegistryService.Service.Transition` | demos/business-registry/business_registry/service.py:229-265 | A status move under the expected version and the allowed moves. |
| `RegistryService.Service.Propose` | demos/business-registry/business_registry/service.py:267-300 | A proposal against the current version of an active or suspended record. |
| `RegistryService.Service.Decide` | demos/business-registry/business_registry/service.py:318-389 | A decision; a GSTIN conflict undoes the status already set. |
| `RegistryService.Service.Handle` | demos/business-registry/business_registry/service.py:170-389 | Every request on the tables is a step of the registry's runs and keeps its invariant. |
| `JobsSafety.AttemptsAreBounded` | apps/worker/main.py:40-99 | With stale workers and crashes, a job is handed over exactly `attempts` times and at most `max_attempts` times; AVAILABLE leaves an attempt, RUNNING is exactly having an owner. |
| `JobsSafety.EndStatesAreFinal` | apps/worker/main.py:62-99 | While no handler outlives its lease, a COMPLETED or FAILED job stays as it is. |
| `JobsSafety.HandlersNeverOverlap` | apps/worker/main.py:40-99 | In such runs two going handlers work on different jobs. |
| `JobsSafety.EndStateIsLeftExactlyByStaleFinish` | apps/worker/main.py:88-98 | In all runs, an end state is left exactly by a handler still going whose outcome contradicts it. |
| `JobsSafety.StaleFailureReopens` | apps/worker/main.py:148-160 | A run in which a stale failure makes a completed job available again. |
| `JobsSafety.BackoffBound` | apps/worker/main.py:148-160 | While its lease never runs out, a job's k-th claim, k at least 2, comes 2^k - 2 seconds or more after its first failure. |
| `JobsRules.ClaimsExactly` | apps/worker/main.py:62-81 | A job is claimed exactly when it waits and is due; the claim is counted and leased for five minutes. |
| `JobsRules.RecoversExactly` | apps/worker/main.py:40-60 | A lease is taken back exactly once it has run out, and the job waits at once or has failed. |
| `JobsRules.EndsExactly` | apps/worker/main.py:83-99 | A handler still going ends its job as it reports: completed, failed for good, or waiting 2^attempts seconds. |
| `ResumeJobs.CompletedMeansDelivered` | apps/worker/handlers.py:22-52 | In every run of queue, broker, handlers and lost answers, a COMPLETED resume job means that an agent run took the result of its call. |
| `ResumeJobs.DeliverableExactlyWhileHeld` | apps/worker/handlers.py:22-52 | A stored result not yet taken can still be taken in some further run exactly while a handler that heard it is going. |
| `ResumeJobs.StrandedJobsNeverComplete` | apps/worker/main.py:83-99 | Once no such handler is going, no job of that call ever completes, however it is retried. |
| `ResumeJobs.LostAnswerFailsTheJob` | apps/worker/handlers.py:34-41 | Any due job of an approved call can end FAILED with the tool's result stored and never to be taken: the resume commits and its answer is lost. |
| `JobQueue.Queue.RecoverExpiredLease` | apps/worker/main.py:40-60 | The lease that ran out first is freed, or none has run out. |
| `JobQueue.Queue.ClaimNext` | apps/worker/main.py:62-81 | The job available longest is claimed, or none is claimable. |
| `JobQueue.Queue.Report` | apps/worker/main.py:83-99 | A handler's end is written whether or not its claim still stands. |
| `CatalogueSafety.ActiveRowsAgree` | packages/tools/registry.py:110-166 | After any run a tool is ACTIVE exactly when it has an ACTIVE version, never two, and a version exactly when its policy is. |
| `CatalogueReviews.VersionsCarryTheirLastReview` | packages/tools/registry.py:110-166 | In every run each version and its policy carry the risk class, side effects, idempotence, approval mode, access lists and size limit of the last accepted review of that version; one never reviewed is closed, READ and under POLICY. |
| `CatalogueReviews.ActiveIsTheLastReviewed` | packages/tools/registry.py:110-166 | In every run the ACTIVE version of a tool is the one whose review was accepted last, if any was. |
| `CatalogueReviews.ServersFollowTheirReviews` | packages/tools/registry.py:86-94 | In every run a server's status is that of the last admissible decision on it, and it is opened only after a discovery. |
| `CatalogueReviews.CandidatesAreTheLastReviewed` | packages/tools/broker.py:266-296 | In every run a name resolves for a tenant to a version exactly if the name is its tool's, its review was the tool's last accepted one, and its server, the tenant's or a global one, was last opened. |
| `CatalogueReviews.ResolvedToolsAreReviewed` | packages/tools/broker.py:116-131 | What a name resolves to carries its last review into the broker's tool row: Guardian is asked unless that review said READ and NEVER. |
| `CatalogueReviews.ReviewsExactly` | packages/tools/registry.py:110-166 | A review is accepted exactly for a version of the caller's own active server under its canonical name; it classifies and activates that version, closes its siblings, and touches nothing else. |
| `CatalogueReviews.RegistersExactly` | packages/tools/registry.py:25-49 | A server is added exactly under a well formed label its owner does not use, and waits for review. |
| `CatalogueReviews.DiscoversExactly` | packages/tools/registry.py:167-221 | Discovery finds all it was given afterwards, and adds only pending, unprivileged rows of what it was given. |
| `CatalogueSafety.CanonicalIsInjective` | packages/tools/registry.py:177-184 | A canonical name determines label and tool name, since labels hold no dot. |
| `CatalogueSafety.CandidatesAreUnique` | packages/tools/broker.py:266-296 | A tenant and name match at most one tenant-owned and one global row. |
| `CatalogueSafety.ResolutionIsAFunction` | packages/tools/broker.py:266-296 | The rows alone determine what a name resolves to. |
| `CatalogueSafety.RediscoveryAddsNothing` | packages/tools/registry.py:51-84 | Discovering a catalogue again, after anything in between, adds no tool, version or policy. |
| `Catalogue.Resolve` | packages/tools/broker.py:266-296 | The scan returns a tenant's own candidate if there is one, else a global one, else nothing. |
| `ToolRegistry.Registry.RegisterServer` | packages/tools/registry.py:25-49 | Registration refuses a label its owner already uses. |
| `ToolRegistry.Registry.DiscoverTools` | packages/tools/registry.py:51-84 | The loop adds missing tools, versions and draft policies, one item after the other. |
| `ToolRegistry.Registry.ReviewToolVersion` | packages/tools/registry.py:110-166 | One version and its policy become ACTIVE, every sibling SUPERSEDED and its policy DISABLED. |
| `ToolRegistry.Registry.Handle` | packages/tools/registry.py:25-166 | Every request on the tables is a step of the catalogue's runs and keeps its invariant. |
| `AuditChain.AppendsChain` | packages/audit/service.py:17-70 | After any appends for any tenants, each tenant's events have sequences 1..n and link to the hash before. |
| `AuditChain.ChainsRecordTheirAppends` | packages/audit/service.py:17-70 | A tenant's chain records exactly what was logged for it: every entry once, in order, with its id and time. |
| `AuditChain.HeadFixesChain` | packages/audit/service.py:37-53 | Under an injective hash two chains with one head hash agree on every hashed document. |
| `AuditChain.TamperingShows` | packages/audit/service.py:40-67 | Anything altered, dropped or reordered breaks a link or changes the head. |
| `AuditChain.Log.Append` | packages/audit/service.py:30-70 | Reads the tenant's last event and appends its linked successor. |
| `SessionStore.StoreRefinesLists` | packages/memory/session.py:23-108 | Over any run each conversation behaves as a list of its own, and sequences ascend, hence stay unique, in a session. |
| `SessionStore.GetReturnsSuffix` | packages/memory/session.py:23-40 | A limit returns the last max(0, limit) items, oldest first; no limit returns all. |
| `SessionStore.PopRemovesLast` | packages/memory/session.py:73-92 | Pop returns and removes the last item of its conversation only, and nothing from an empty one. |
| `SessionStore.Store.AddItems` | packages/memory/session.py:42-71 | The loop numbers new rows on from the session's highest sequence. |
| `SessionStore.Store.GetItems` | packages/memory/session.py:23-40 | The query by descending sequence, reversed. |
| `SessionStore.Store.ClearSession` | packages/memory/session.py:94-108 | Deletes exactly the conversation's rows. |
| `ContextWindow.Assemble` | packages/memory/context.py:35-116 | The loop ends with the longest suffix of memories then messages that fits the budget, or the last item alone. |
| `ContextWindow.CandidatesAreTheLatest` | packages/memory/context.py:35-98 | The candidates are up to 20 memories, the latest update last, then the last 40 messages in order. |
| `ContextWindow.LengthIsOfTheText` | packages/memory/context.py:118-120 | The estimated length is that of the envelope and of the items' texts joined by ", ". |
| `ContextWindow.EstimateCountsFours` | packages/memory/context.py:118-120 | A token stands for four characters, rounded down, and at least one is estimated. |
| `ContextWindow.LongestFittingIsUnique` | packages/memory/context.py:99-101 | That result is unique, and it fits exactly when the last item alone does. |
| `ContextWindow.ShorterSuffixesFit` | packages/memory/context.py:118-120 | A suffix fits exactly when it is no longer than the one kept. |
| `ContextWindow.MemoriesGoFirst` | packages/memory/context.py:75-100 | A message is dropped only after every memory. |
| `TraceRisk.OrderDoesNotMatter` | apps/api/routes/demo.py:675-755 | The score depends on the steps as a bag. |
| `TraceRisk.ScoreFromTheSteps` | apps/api/routes/demo.py:675-740 | The score of any trace with a tool step is that of its costliest step, told from what the step recorded, plus breadth over platforms and call volume, less five if every tool step is a harmless read, at most 100. |
| `TraceRisk.BandsCut` | apps/api/routes/demo.py:740-748 | The bands are cut at 25, 50 and 75. |
| `TraceRisk.NeverFalls` | apps/api/routes/demo.py:677-696 | A further step never lowers the score of a trace with a tool step. |
| `TraceRisk.FirstToolMayLower` | apps/api/routes/demo.py:716-716 | Without a tool step the score is 100, and some step lowers it. |
| `TraceRisk.CleanReadsStayLow` | apps/api/routes/demo.py:719-740 | Allowed, verified, unflagged reads score at most 25, and at most 24 (LOW) up to seven calls. |
| `TraceRisk.TwentyFiveExactly` | apps/api/routes/demo.py:716-735 | A clean trace scores 25 exactly with a sensitive read, at least six platforms and at least eight calls. |
| `TraceRisk.TwentyFiveIsReached` | apps/api/routes/demo.py:716-735 | Eight clean reads over six platforms do. |
| `TraceRisk.CalculateTraceRisk` | apps/api/routes/demo.py:675-755 | The loop computes score and band of any trace. |
| `MessagePaging.AppendsStayGapless` | apps/api/services/conversation_service.py:176-206 | Every conversation keeps sequences 1..n, and earlier messages stay. |
| `MessagePaging.MessagesAreWhatWasSent` | apps/api/services/conversation_service.py:176-206 | A conversation holds exactly the contents sent to it, in order. |
| `MessagePaging.FollowingMissesNothing` | apps/api/routes/conversations.py:57-78 | Following cursors with any limits while messages arrive yields exactly the later messages, each once, ascending. |
| `MessagePaging.FollowingStops` | apps/api/routes/conversations.py:57-78 | The last page comes within as many visits as messages are left, or one. |
| `MessagePaging.ListMessages` | apps/api/services/conversation_service.py:154-174 | One page: limit plus one rows fetched, the extra one telling whether there is more. |
| `MessagePaging.Conversations.AddMessage` | apps/api/services/conversation_service.py:184-208 | The next sequence of the conversation is appended. |

## Left out

- ProtocolSafety.RepeatsFollowLostTransactions: states when a repeat is possible, not that the tool itself ignores it; idempotency inside a tool is the tool's own.
- ProtocolSafety.ProtectedInvocationsAreAuthorized: the tool row is read afresh per request, so a resume is not shown to use the policy that was reviewed at submit; only the tool's name is fixed per version, and the source does not recheck that a resumed version is still ACTIVE.
- JobsSafety.BackoffBound: starts at the second claim, because the first one precedes the first failure.
- JobsSafety.EndStatesAreFinal: assumes handlers finish within their lease, which `Timely` says; `EndStateIsLeftExactlyByStaleFinish` covers all other runs.
- Catalogue.Resolve: the four-way join is a scan over policies, each belonging to one version; server version rows and the discovery document hash are not modelled.
- BankSafety.LimitsHold: the daily limit bounds live preparations only; settled transfers of the day do not count in the source either.
- BankSafety.Conservation: each reversal is checked against its execution alone, so nothing is claimed about the sum of several.
- Row locks of the bank, which its methods do not take: transactions of one service are serial here.
- The 18-digit width of amount columns, and amounts in other notations than a decimal coefficient and exponent.
- Account aggregator consents and beneficiary change requests of the bank; beneficiaries change arbitrarily between steps instead.
- Ledger, GST, ERP, delivery and funder services: not part of this model; the ledger answers the saga arbitrarily.
- The broker's idempotency table in front of the saga's calls: the gateway may deliver, replay, park, block or lose any call, which includes what the table allows.
- `parallel_allowed`, `hosted_mcp_allowed` and `timeout_seconds` of a reviewed version, which the broker's decisions do not read.
- `agent_version_id` in the hashed request document, call attempt rows, outbox rows and result projections.
- The four alternative identifiers of a business: records are looked up by primary id; relationships, people and ownership are read-only here. Risk flags are a set, since the source keeps them sorted and without repeats.
- Agent run lifecycle and its event stream, where later writes overwrite terminal states.
- JWT, Ed25519, HMAC, SHA-256, JSON Schema, embeddings and model calls: their results are inputs.
- HTTP, routing, settings, migrations, telemetry and web front ends; the data vault, memory search filters and browser sessions.
- Selection of context candidates by the database: the memories and messages that match the query are inputs, in query order.
- Outbox publication: a single branch per event.
