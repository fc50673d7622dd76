/** Shared contract types: identifiers, time, scopes and canonical tool requests. */
module Contracts {
  datatype Option<+T> = None | Some(value: T)

  datatype Result<+T, +E> = Ok(value: T) | Err(error: E)

  // Instants are microseconds on one non-decreasing clock.
  const SECOND: int := 1_000_000
  const MINUTE: int := 60 * SECOND

  // A JWT date is a whole number of seconds, so the encoder drops the fraction.
  function WholeSeconds(t: int): (r: int)
    ensures r <= t < r + SECOND
  {
    t / SECOND * SECOND
  }

  datatype RiskClass = Read | SensitiveRead | Mutate | Privileged

  datatype ApprovalMode = Never | ByPolicy | Always

  datatype Scope = Scope(
    tenantId: nat, organizationId: nat, userId: nat, sessionId: Option<nat>,
    correlationId: nat, roles: set<string>, consentIds: set<string>)

  /** The request document whose canonical JSON is hashed. */
  datatype Document = Document(
    runId: nat, agentName: string, scope: Scope, serverId: nat, toolVersionId: nat,
    canonicalName: string, originalName: string, arguments: map<string, string>,
    purpose: string, resourceRefs: seq<string>, idempotencyKey: Option<string>)

  /** SHA-256 of a document, taken as an ideal injective hash; `Empty` is the empty string. */
  datatype RequestHash = Empty | Sha256(document: Document)

  datatype CanonicalRequest = CanonicalRequest(callId: nat, document: Document, requestHash: RequestHash)

  datatype PolicySnapshot = PolicySnapshot(
    riskClass: RiskClass, requiredRoles: set<string>, requiredPurposes: set<string>,
    requiredConsents: set<string>, allowedAgents: set<string>, approvalMode: ApprovalMode,
    sideEffects: bool, idempotent: bool)

  datatype Evaluation = Evaluation(request: CanonicalRequest, policy: PolicySnapshot)

  // Python truthiness: a missing key and an empty key both count as no key.
  predicate HasKey(key: Option<string>) {
    key.Some? && key.value != ""
  }
}
