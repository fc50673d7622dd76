/** The deterministic Guardian policy: an ordered chain of rules that fails closed. */
module Policy {
  import opened Contracts

  datatype Outcome = Allow | Verify | Escalate | Block

  datatype Reason =
    | InvalidScope | AgentNotGranted | RoleRequired | PurposeNotAllowed | ConsentRequired
    | IdempotencyRequired | HumanApprovalRequired | ProtectedPolicySatisfied | SafeRead | NoAllowRule

  datatype PolicyResult = PolicyResult(outcome: Outcome, reason: Reason)

  function Evaluate(e: Evaluation): PolicyResult {
    var document := e.request.document;
    var policy := e.policy;
    if e.request.requestHash == Empty || document.scope.tenantId == 0 then
      PolicyResult(Block, InvalidScope)
    else if policy.allowedAgents != {} && document.agentName !in policy.allowedAgents then
      PolicyResult(Block, AgentNotGranted)
    else if policy.requiredRoles - document.scope.roles != {} then
      PolicyResult(Block, RoleRequired)
    else if policy.requiredPurposes != {} && document.purpose !in policy.requiredPurposes then
      PolicyResult(Block, PurposeNotAllowed)
    else if policy.requiredConsents - document.scope.consentIds != {} then
      PolicyResult(Block, ConsentRequired)
    else if policy.sideEffects && !HasKey(document.idempotencyKey) then
      PolicyResult(Block, IdempotencyRequired)
    else if policy.approvalMode == Always || policy.riskClass == Privileged then
      PolicyResult(Escalate, HumanApprovalRequired)
    else if policy.riskClass == SensitiveRead || policy.riskClass == Mutate then
      PolicyResult(Allow, ProtectedPolicySatisfied)
    else if policy.riskClass == Read && policy.approvalMode == Never then
      PolicyResult(Allow, SafeRead)
    else
      PolicyResult(Block, NoAllowRule)
  }

  // ------------------------------------------------------- what it amounts to

  /** The document meets every list of the policy, and carries a key if the tool has side effects. */
  predicate Satisfies(d: Document, p: PolicySnapshot) {
    && d.scope.tenantId != 0
    && (p.allowedAgents == {} || d.agentName in p.allowedAgents)
    && p.requiredRoles <= d.scope.roles
    && (p.requiredPurposes == {} || d.purpose in p.requiredPurposes)
    && p.requiredConsents <= d.scope.consentIds
    && (p.sideEffects ==> d.idempotencyKey.Some? && d.idempotencyKey.value != "")
  }

  predicate NeedsApproval(p: PolicySnapshot) {
    p.approvalMode == Always || p.riskClass == Privileged
  }

  /** The chain of rules as a table: a satisfied policy asks a human, allows, or knows no rule that would allow. */
  lemma EvaluateMeans(e: Evaluation)
    ensures var fit := e.request.requestHash != Empty && Satisfies(e.request.document, e.policy);
      var outcome := Evaluate(e).outcome;
      && (outcome == Escalate <==> fit && NeedsApproval(e.policy))
      && (outcome == Allow <==>
            fit && !NeedsApproval(e.policy) && (e.policy.riskClass == Read ==> e.policy.approvalMode == Never))
      && outcome != Verify
  {
    var required, held := e.policy.requiredRoles, e.request.document.scope.roles;
    assert required - held == {} <==> required <= held by {
      if required - held == {} { forall r | r in required ensures r in held { assert r !in required - held; } }
    }
    var consents, given := e.policy.requiredConsents, e.request.document.scope.consentIds;
    assert consents - given == {} <==> consents <= given by {
      if consents - given == {} { forall c | c in consents ensures c in given { assert c !in consents - given; } }
    }
  }
}
