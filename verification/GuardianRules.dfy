/** When each of Guardian's requests succeeds and what exactly it then writes, told from the rows. */
module GuardianRules {
  import opened Contracts
  import opened Guardian
  import Policy

  /** An open approval of this decision; its deadline and its tenant are the decision's. */
  predicate AwaitsApproval(s: State, id: nat, now: int) {
    id < |s.decisions| && id in s.approvals && s.approvals[id].status == Pending && now < s.decisions[id].expiresAt
  }

  /** The state is `s` but for the approval of decision `id`. */
  ghost predicate OnlyApproval(s: State, s': State, id: nat) {
    && s'.decisions == s.decisions && s'.authorizations == s.authorizations && s'.approvals.Keys == s.approvals.Keys
    && forall i :: i in s.approvals && i != id ==> s'.approvals[i] == s.approvals[i]
  }

  /** An action takes effect exactly on an open approval of the actor's own tenant, by an approver, as it says. */
  lemma ActsExactly(s: State, tenantId: nat, id: nat, action: ApprovalAction, now: int)
    requires Inv(s, now)
    ensures var r := ActOnApproval(s, tenantId, id, action, now);
      && (r.Ok? <==>
            && AwaitsApproval(s, id, now) && s.decisions[id].tenantId == tenantId
            && "guardian-approver" in action.actorRoles)
      && (r.Ok? ==>
            && OnlyApproval(s, r.value, id)
            && r.value.approvals[id].status == (if action.approve then Approved else Rejected)
            && r.value.approvals[id].resolution == Some(Resolution(s.decisions[id].tenantId, action, now)))
  {
    if id in s.approvals {
      assert ApprovalOk(s.decisions[id], s.approvals[id]);
      assert {APPROVER_ROLE} - action.actorRoles == {} <==> APPROVER_ROLE in action.actorRoles by {
        assert APPROVER_ROLE in {APPROVER_ROLE} - action.actorRoles || APPROVER_ROLE in action.actorRoles;
      }
    }
  }

  /** A token is spent exactly once, for the call and hash it was issued for, between whole seconds. */
  lemma ConsumesExactly(s: State, token: Token, callId: nat, hash: RequestHash, now: int)
    requires Inv(s, now)
    ensures var r := Consume(s, token, callId, hash, now);
      var a := token.authorizationId;
      && (r.Ok? <==>
            && a < |s.authorizations| && s.authorizations[a].token == token
            && s.authorizations[a].status == Active
            && s.authorizations[a].callId == callId && s.authorizations[a].requestHash == hash
            && now < WholeSeconds(s.authorizations[a].issuedAt + 2 * MINUTE))
      && (r.Ok? ==>
            && r.value.1 == a && r.value.0.decisions == s.decisions && r.value.0.approvals == s.approvals
            && |r.value.0.authorizations| == |s.authorizations|
            && (forall i :: 0 <= i < |s.authorizations| && i != a ==>
                  r.value.0.authorizations[i] == s.authorizations[i])
            && r.value.0.authorizations[a].status == Consumed
            && r.value.0.authorizations[a].consumedAt == Some(now))
  {
    if token.authorizationId < |s.authorizations| { assert AuthorizationOk(s, token.authorizationId, now); }
  }

  /** The state is `s` with one more authorization, for this decision's request, and the answer hands it out. */
  ghost predicate Issued(s: State, s': State, response: Response, d: nat, now: int)
    requires d < |s.decisions|
  {
    var n := |s.authorizations|;
    && s'.decisions == s.decisions && s'.approvals == s.approvals
    && |s'.authorizations| == n + 1 && s'.authorizations[..n] == s.authorizations
    && var row, decision := s'.authorizations[n], s.decisions[d];
       && row.decisionId == d && row.tenantId == decision.tenantId
       && row.callId == decision.callId && row.requestHash == decision.requestHash
       && row.status == Active && row.issuedAt == now && row.consumedAt == None && row.expiresAt == now + 2 * MINUTE
       && response == Response(d, Policy.Allow, Some(Grant(n, row.token)))
  }

  /** Decision `d` is about this request and a holder of the approver role granted it. */
  predicate ApprovedFor(s: State, d: nat, tenantId: nat, callId: nat, hash: RequestHash) {
    && d < |s.decisions| && s.decisions[d].tenantId == tenantId
    && s.decisions[d].callId == callId && s.decisions[d].requestHash == hash
    && d in s.approvals && s.approvals[d].status == Approved
  }

  predicate NewestApproved(s: State, d: nat, tenantId: nat, callId: nat, hash: RequestHash) {
    && ApprovedFor(s, d, tenantId, callId, hash)
    && forall e :: d < e < |s.decisions| ==> !ApprovedFor(s, e, tenantId, callId, hash)
  }

  /** A resume is authorized exactly while the newest approved decision of its very request is alive. */
  lemma AuthorizesExactly(s: State, tenantId: nat, callId: nat, hash: RequestHash, now: int, signing: bool)
    requires Inv(s, now)
    ensures var r := AuthorizeApproved(s, tenantId, callId, hash, now, signing);
      && (r.Ok? <==>
            && signing
            && exists d: nat :: NewestApproved(s, d, tenantId, callId, hash) && now < s.decisions[d].expiresAt)
      && (forall d: nat :: NewestApproved(s, d, tenantId, callId, hash) && r.Ok? ==>
            Issued(s, r.value.0, r.value.1, d, now))
  {
    var found := LatestApproved(s.decisions, s.approvals, tenantId, callId, hash);
    forall d: nat | NewestApproved(s, d, tenantId, callId, hash) ensures found == Some(d) {
      assert found.Some?;
      assert ApprovedFor(s, found.value, tenantId, callId, hash);
    }
    if found.Some? { assert NewestApproved(s, found.value, tenantId, callId, hash); }
  }

  /** What the records say of decision `d`: granted, waiting for an approver, or refused. */
  function Standing(s: State, d: nat): Policy.Outcome
    requires d < |s.decisions|
  {
    if s.decisions[d].outcome != Policy.Escalate then s.decisions[d].outcome
    else if d in s.approvals && s.approvals[d].status == Approved then Policy.Allow
    else if d in s.approvals && s.approvals[d].status == Rejected then Policy.Block
    else Policy.Escalate
  }

  predicate LiveFor(s: State, d: nat, q: CanonicalRequest, now: int) {
    && d < |s.decisions| && s.decisions[d].tenantId == q.document.scope.tenantId
    && s.decisions[d].callId == q.callId && s.decisions[d].requestHash == q.requestHash
    && now < s.decisions[d].expiresAt
  }

  /** A repeated request is answered by how its live decision stands, and nothing is decided anew. */
  lemma RepeatsAreAnsweredByStanding(s: State, e: Evaluation, now: int, signing: bool, d: nat)
    requires Inv(s, now) && LiveFor(s, d, e.request, now)
    requires forall j :: d < j < |s.decisions| ==> !LiveFor(s, j, e.request, now)
    ensures var r := Evaluate(s, e, now, signing);
      && (r.Err? <==> !signing && Standing(s, d) == Policy.Allow)
      && (r.Ok? && Standing(s, d) == Policy.Allow ==> Issued(s, r.value.0, r.value.1, d, now))
      && (r.Ok? && Standing(s, d) != Policy.Allow ==> r.value == (s, Response(d, Standing(s, d), None)))
  {
    hide Policy.Evaluate;
    var q := e.request;
    var found := LatestLive(s.decisions, q.document.scope.tenantId, q.callId, q.requestHash, now);
    assert found.Some? && LiveFor(s, found.value, q, now);
    assert found.value == d;
    if d in s.approvals { assert ApprovalOk(s.decisions[d], s.approvals[d]); }
  }

  /** The state is `s` with one more decision, on exactly this evaluation, open for a quarter of an hour. */
  ghost predicate DecidedNow(s: State, s': State, e: Evaluation, now: int) {
    var n := |s.decisions|;
    && |s'.decisions| == n + 1 && s'.decisions[..n] == s.decisions
    && var d := s'.decisions[n];
       && d.evaluation == e && d.createdAt == now && d.expiresAt == now + 15 * MINUTE
       && LiveFor(s', n, e.request, now)
  }

  /** A request without a live decision is judged by its policy; an approval is opened exactly if it needs one. */
  lemma FirstRequestsAreJudged(s: State, e: Evaluation, now: int, signing: bool)
    requires Inv(s, now) && e.request.requestHash != Empty
    requires forall d: nat :: !LiveFor(s, d, e.request, now)
    ensures var r := Evaluate(s, e, now, signing);
      var n := |s.decisions|;
      var fit := Policy.Satisfies(e.request.document, e.policy);
      var asks := fit && Policy.NeedsApproval(e.policy);
      var allows := fit && !asks && (e.policy.riskClass == Read ==> e.policy.approvalMode == Never);
      && (r.Err? <==> allows && !signing)
      && (r.Ok? ==>
            && DecidedNow(s, r.value.0, e, now) && r.value.1.decisionId == n
            && r.value.1.outcome == (if asks then Policy.Escalate else if allows then Policy.Allow else Policy.Block)
            && r.value.0.approvals.Keys == s.approvals.Keys + (if asks then {n} else {})
            && (forall i :: i in s.approvals ==> r.value.0.approvals[i] == s.approvals[i])
            && (asks ==> AwaitsApproval(r.value.0, n, now))
            && (if allows then |r.value.0.authorizations| == |s.authorizations| + 1 && r.value.1.grant.Some?
                else r.value.0.authorizations == s.authorizations && r.value.1.grant.None?))
  {
    Policy.EvaluateMeans(e);
    hide Policy.Evaluate, Policy.Satisfies;
    var q := e.request;
    var found := LatestLive(s.decisions, q.document.scope.tenantId, q.callId, q.requestHash, now);
    assert found.Some? ==> LiveFor(s, found.value, q, now);
    assert |s.decisions| !in s.approvals;
  }
}
