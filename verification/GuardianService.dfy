/** The Guardian service: its records as fields, each request one transaction. */
module GuardianService {
  import opened Contracts
  import opened Guardian
  import Policy

  class Service {
    var decisions: seq<Decision>
    var approvals: map<nat, Approval>
    var authorizations: seq<Authorization>
    // Whether a signing key is configured.
    var signing: bool

    function Model(): State
      reads this
    {
      State(decisions, approvals, authorizations)
    }

    constructor (signing: bool)
      ensures Model() == State([], map[], []) && this.signing == signing
    {
      decisions, approvals, authorizations, this.signing := [], map[], [], signing;
    }

    method IssueAuthorization(decisionId: nat, now: int) returns (r: Result<Response, Error>)
      requires decisionId < |decisions|
      modifies this`authorizations
      ensures IssueIf(old(Model()), decisionId, now, signing) ==
              if r.Ok? then Ok((Model(), r.value)) else Err(r.error)
      ensures r.Err? ==> Model() == old(Model())
    {
      if !signing { return Err(SigningUnavailable); }
      var d := decisions[decisionId];
      var authorizationId := |authorizations|;
      var expires := now + TOKEN_LIFETIME;
      var token := Token(authorizationId, d.tenantId, d.callId, decisionId, d.requestHash,
                         WholeSeconds(now), WholeSeconds(expires));
      authorizations := authorizations +
        [Authorization(d.tenantId, decisionId, d.callId, d.requestHash, token, Active, now, expires, None)];
      return Ok(Response(decisionId, Policy.Allow, Some(Grant(authorizationId, token))));
    }

    method ResolveExistingDecision(id: nat, now: int) returns (r: Result<Response, Error>)
      requires id < |decisions|
      modifies this`authorizations
      ensures ResolveExisting(old(Model()), id, now, signing) ==
              if r.Ok? then Ok((Model(), r.value)) else Err(r.error)
      ensures r.Err? ==> Model() == old(Model())
    {
      if id in approvals && approvals[id].status == Approved {
        r := IssueAuthorization(id, now);
        return;
      }
      if id in approvals && (approvals[id].status == Rejected || approvals[id].status == ApprovalExpired) {
        return Ok(Response(id, Policy.Block, None));
      }
      if decisions[id].outcome == Policy.Allow {
        r := IssueAuthorization(id, now);
        return;
      }
      return Ok(Response(id, decisions[id].outcome, None));
    }

    // A raised error rolls the whole request back, the inserted decision included.
    method EvaluateRequest(e: Evaluation, now: int) returns (r: Result<Response, Error>)
      modifies this`decisions, this`approvals, this`authorizations
      ensures Evaluate(old(Model()), e, now, signing) ==
              if r.Ok? then Ok((Model(), r.value)) else Err(r.error)
      ensures r.Err? ==> Model() == old(Model())
    {
      var request := e.request;
      var tenantId := request.document.scope.tenantId;
      var existing := LatestLive(decisions, tenantId, request.callId, request.requestHash, now);
      if existing.Some? {
        r := ResolveExistingDecision(existing.value, now);
        return;
      }
      var before, beforeApprovals := decisions, approvals;
      var result := Policy.Evaluate(e);
      var expires := now + DECISION_LIFETIME;
      var id := |decisions|;
      decisions := decisions +
        [Decision(tenantId, request.callId, request.requestHash, e, result.outcome, now, expires)];
      if result.outcome == Policy.Escalate {
        approvals := approvals[id := Approval(tenantId, Pending, {APPROVER_ROLE}, expires, None)];
      }
      if result.outcome == Policy.Allow {
        r := IssueAuthorization(id, now);
        if r.Err? { decisions, approvals := before, beforeApprovals; }
        return;
      }
      return Ok(Response(id, result.outcome, None));
    }

    // The EXPIRED status assigned before the error is raised is rolled back with it.
    method Act(tenantId: nat, id: nat, action: ApprovalAction, now: int) returns (r: Result<(), Error>)
      modifies this`approvals
      ensures ActOnApproval(old(Model()), tenantId, id, action, now) ==
              if r.Ok? then Ok(Model()) else Err(r.error)
      ensures r.Err? ==> Model() == old(Model())
    {
      if id !in approvals || approvals[id].tenantId != tenantId { return Err(ApprovalNotFound); }
      var approval := approvals[id];
      if approval.status != Pending { return Err(ApprovalResolved); }
      if approval.expiresAt <= now {
        approvals := approvals[id := approval.(status := ApprovalExpired)];
        approvals := approvals[id := approval];
        assert approvals == old(approvals);
        return Err(ApprovalHasExpired);
      }
      if approval.requiredRoles - action.actorRoles != {} { return Err(ApproverRoleRequired); }
      var status := if action.approve then Approved else Rejected;
      var resolution := Resolution(tenantId, action, now);
      approvals := approvals[id := approval.(status := status, resolution := Some(resolution))];
      return Ok(());
    }

    method ConsumeToken(token: Token, callId: nat, hash: RequestHash, now: int) returns (r: Result<nat, Error>)
      modifies this`authorizations
      ensures Consume(old(Model()), token, callId, hash, now) ==
              if r.Ok? then Ok((Model(), r.value)) else Err(r.error)
      ensures r.Err? ==> Model() == old(Model())
    {
      if !Verified(Model(), token, now) { return Err(AuthorizationInvalid); }
      if token.callId != callId || token.requestHash != hash { return Err(ScopeMismatch); }
      var id := token.authorizationId;
      var row := authorizations[id];
      if row.callId != callId || row.requestHash != hash || row.status != Active { return Err(NotActive); }
      if row.expiresAt <= now {
        authorizations := authorizations[id := row.(status := AuthorizationExpired)];
        authorizations := authorizations[id := row];
        assert authorizations == old(authorizations);
        return Err(AuthorizationHasExpired);
      }
      authorizations := authorizations[id := row.(status := Consumed, consumedAt := Some(now))];
      return Ok(id);
    }

    method Authorize(tenantId: nat, callId: nat, hash: RequestHash, now: int) returns (r: Result<Response, Error>)
      modifies this`authorizations
      ensures AuthorizeApproved(old(Model()), tenantId, callId, hash, now, signing) ==
              if r.Ok? then Ok((Model(), r.value)) else Err(r.error)
      ensures r.Err? ==> Model() == old(Model())
    {
      var found := LatestApproved(decisions, approvals, tenantId, callId, hash);
      if found.None? { return Err(ApprovedDecisionNotFound); }
      if decisions[found.value].expiresAt <= now { return Err(DecisionExpired); }
      r := IssueAuthorization(found.value, now);
    }
  }
}
