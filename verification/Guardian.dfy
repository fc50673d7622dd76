/** Guardian's decision, approval and authorization records, and the service that changes them. */
module Guardian {
  import opened Contracts
  import Policy

  const DECISION_LIFETIME: int := 15 * MINUTE
  const TOKEN_LIFETIME: int := 120 * SECOND
  const APPROVER_ROLE: string := "guardian-approver"

  datatype Decision = Decision(
    tenantId: nat, callId: nat, requestHash: RequestHash, evaluation: Evaluation,
    outcome: Policy.Outcome, createdAt: int, expiresAt: int)

  datatype ApprovalStatus = Pending | Approved | Rejected | ApprovalExpired

  datatype ApprovalAction = ApprovalAction(actorUserId: nat, actorRoles: set<string>, approve: bool)

  /** Who resolved an approval, for which tenant, and when. */
  datatype Resolution = Resolution(tenantId: nat, action: ApprovalAction, at: int)

  datatype Approval = Approval(
    tenantId: nat, status: ApprovalStatus, requiredRoles: set<string>, expiresAt: int,
    resolution: Option<Resolution>)

  /** The claims of a signed authorization. Only Guardian can sign, so a token is what it issued. */
  datatype Token = Token(
    authorizationId: nat, tenantId: nat, callId: nat, decisionId: nat, requestHash: RequestHash,
    notBefore: int, expires: int)

  datatype AuthorizationStatus = Active | Consumed | AuthorizationExpired

  datatype Authorization = Authorization(
    tenantId: nat, decisionId: nat, callId: nat, requestHash: RequestHash, token: Token,
    status: AuthorizationStatus, issuedAt: int, expiresAt: int, consumedAt: Option<int>)

  /** Decision and authorization ids are row positions; an approval is keyed by its decision. */
  datatype State = State(
    decisions: seq<Decision>, approvals: map<nat, Approval>, authorizations: seq<Authorization>)

  datatype Grant = Grant(authorizationId: nat, token: Token)

  datatype Response = Response(decisionId: nat, outcome: Policy.Outcome, grant: Option<Grant>)

  datatype Error =
    | SigningUnavailable | ApprovalNotFound | ApprovalResolved | ApprovalHasExpired | ApproverRoleRequired
    | AuthorizationInvalid | ScopeMismatch | NotActive | AuthorizationHasExpired
    | ApprovedDecisionNotFound | DecisionExpired

  // ---------------------------------------------------------------- queries

  predicate Matches(d: Decision, tenantId: nat, callId: nat, hash: RequestHash) {
    d.tenantId == tenantId && d.callId == callId && d.requestHash == hash
  }

  /** The newest unexpired decision for one exact request. */
  function LatestLive(ds: seq<Decision>, tenantId: nat, callId: nat, hash: RequestHash, now: int): (r: Option<nat>)
    ensures r.Some? ==>
      && r.value < |ds| && Matches(ds[r.value], tenantId, callId, hash) && now < ds[r.value].expiresAt
      && forall j :: r.value < j < |ds| && Matches(ds[j], tenantId, callId, hash) ==> ds[j].expiresAt <= now
    ensures r.None? ==> forall i :: 0 <= i < |ds| && Matches(ds[i], tenantId, callId, hash) ==> ds[i].expiresAt <= now
  {
    if ds == [] then None
    else
      var last := |ds| - 1;
      if Matches(ds[last], tenantId, callId, hash) && now < ds[last].expiresAt then Some(last)
      else LatestLive(ds[..last], tenantId, callId, hash, now)
  }

  /** The newest decision for one exact request whose approval was granted, expired or not. */
  function LatestApproved(
    ds: seq<Decision>, approvals: map<nat, Approval>, tenantId: nat, callId: nat, hash: RequestHash): (r: Option<nat>)
    ensures r.Some? ==>
      && r.value < |ds| && Matches(ds[r.value], tenantId, callId, hash)
      && r.value in approvals && approvals[r.value].status == Approved
      && forall j :: r.value < j < |ds| && Matches(ds[j], tenantId, callId, hash) ==>
           !(j in approvals && approvals[j].status == Approved)
    ensures r.None? ==> forall i :: 0 <= i < |ds| && Matches(ds[i], tenantId, callId, hash) ==>
      !(i in approvals && approvals[i].status == Approved)
  {
    if ds == [] then None
    else
      var last := |ds| - 1;
      if Matches(ds[last], tenantId, callId, hash) && last in approvals && approvals[last].status == Approved
      then Some(last)
      else LatestApproved(ds[..last], approvals, tenantId, callId, hash)
  }

  /** Signature, nbf and exp, as section 4.1.4 of RFC 7519 reads exp: refused on or after it. */
  predicate Verified(s: State, token: Token, now: int) {
    && token.authorizationId < |s.authorizations|
    && s.authorizations[token.authorizationId].token == token
    && token.notBefore <= now < token.expires
  }

  // ------------------------------------------------- transactions as functions

  function Issue(s: State, decisionId: nat, now: int): (State, Response)
    requires decisionId < |s.decisions|
  {
    var d := s.decisions[decisionId];
    var id := |s.authorizations|;
    var expires := now + TOKEN_LIFETIME;
    var token := Token(id, d.tenantId, d.callId, decisionId, d.requestHash, WholeSeconds(now), WholeSeconds(expires));
    var row := Authorization(d.tenantId, decisionId, d.callId, d.requestHash, token, Active, now, expires, None);
    (s.(authorizations := s.authorizations + [row]),
     Response(decisionId, Policy.Allow, Some(Grant(id, token))))
  }

  function IssueIf(s: State, decisionId: nat, now: int, signing: bool): Result<(State, Response), Error>
    requires decisionId < |s.decisions|
  {
    if signing then Ok(Issue(s, decisionId, now)) else Err(SigningUnavailable)
  }

  function ResolveExisting(s: State, id: nat, now: int, signing: bool): Result<(State, Response), Error>
    requires id < |s.decisions|
  {
    if id in s.approvals && s.approvals[id].status == Approved then
      IssueIf(s, id, now, signing)
    else if id in s.approvals && s.approvals[id].status in {Rejected, ApprovalExpired} then
      Ok((s, Response(id, Policy.Block, None)))
    else if s.decisions[id].outcome == Policy.Allow then
      IssueIf(s, id, now, signing)
    else
      Ok((s, Response(id, s.decisions[id].outcome, None)))
  }

  function Decide(s: State, e: Evaluation, now: int): State {
    var r := e.request;
    var outcome := Policy.Evaluate(e).outcome;
    var expires := now + DECISION_LIFETIME;
    var tenantId := r.document.scope.tenantId;
    var id := |s.decisions|;
    var d := Decision(tenantId, r.callId, r.requestHash, e, outcome, now, expires);
    State(s.decisions + [d],
          if outcome == Policy.Escalate
          then s.approvals[id := Approval(tenantId, Pending, {APPROVER_ROLE}, expires, None)]
          else s.approvals,
          s.authorizations)
  }

  function Evaluate(s: State, e: Evaluation, now: int, signing: bool): Result<(State, Response), Error> {
    var r := e.request;
    var existing := LatestLive(s.decisions, r.document.scope.tenantId, r.callId, r.requestHash, now);
    if existing.Some? then
      ResolveExisting(s, existing.value, now, signing)
    else
      var s' := Decide(s, e, now);
      var id := |s.decisions|;
      if s'.decisions[id].outcome == Policy.Allow then IssueIf(s', id, now, signing)
      else Ok((s', Response(id, s'.decisions[id].outcome, None)))
  }

  function ActOnApproval(s: State, tenantId: nat, id: nat, action: ApprovalAction, now: int): Result<State, Error> {
    if id !in s.approvals || s.approvals[id].tenantId != tenantId then Err(ApprovalNotFound)
    else
      var a := s.approvals[id];
      if a.status != Pending then Err(ApprovalResolved)
      else if a.expiresAt <= now then Err(ApprovalHasExpired)
      else if a.requiredRoles - action.actorRoles != {} then Err(ApproverRoleRequired)
      else
        var resolved := a.(status := if action.approve then Approved else Rejected,
                           resolution := Some(Resolution(tenantId, action, now)));
        Ok(s.(approvals := s.approvals[id := resolved]))
  }

  function Consume(s: State, token: Token, callId: nat, hash: RequestHash, now: int): Result<(State, nat), Error> {
    if !Verified(s, token, now) then Err(AuthorizationInvalid)
    else if token.callId != callId || token.requestHash != hash then Err(ScopeMismatch)
    else
      var id := token.authorizationId;
      var a := s.authorizations[id];
      if a.callId != callId || a.requestHash != hash || a.status != Active then Err(NotActive)
      else if a.expiresAt <= now then Err(AuthorizationHasExpired)
      else Ok((s.(authorizations := s.authorizations[id := a.(status := Consumed, consumedAt := Some(now))]), id))
  }

  function AuthorizeApproved(
    s: State, tenantId: nat, callId: nat, hash: RequestHash, now: int, signing: bool): Result<(State, Response), Error>
  {
    var found := LatestApproved(s.decisions, s.approvals, tenantId, callId, hash);
    if found.None? then Err(ApprovedDecisionNotFound)
    else if s.decisions[found.value].expiresAt <= now then Err(DecisionExpired)
    else IssueIf(s, found.value, now, signing)
  }

  // ---------------------------------------------------------------- invariant

  predicate DecisionOk(d: Decision, now: int) {
    && d.outcome == Policy.Evaluate(d.evaluation).outcome
    && d.outcome != Policy.Verify
    && d.requestHash == d.evaluation.request.requestHash
    && d.callId == d.evaluation.request.callId
    && d.tenantId == d.evaluation.request.document.scope.tenantId
    && d.createdAt <= now
    && d.expiresAt == d.createdAt + DECISION_LIFETIME
  }

  predicate ApprovalOk(d: Decision, a: Approval) {
    && d.outcome == Policy.Escalate
    && a.tenantId == d.tenantId
    && a.requiredRoles == {APPROVER_ROLE}
    && a.expiresAt == d.expiresAt
    && a.status != ApprovalExpired
    && (a.status == Pending <==> a.resolution.None?)
    && (a.resolution.Some? ==>
          var r := a.resolution.value;
          && r.tenantId == d.tenantId
          && r.at < d.expiresAt
          && APPROVER_ROLE in r.action.actorRoles
          && (a.status == Approved <==> r.action.approve))
  }

  /** The decision permits execution: the policy allowed it, or an approver did. */
  predicate Granted(s: State, id: nat) {
    && id < |s.decisions|
    && (s.decisions[id].outcome == Policy.Allow
        || (id in s.approvals && s.approvals[id].status == Approved))
  }

  predicate AuthorizationOk(s: State, i: nat, now: int)
    requires i < |s.authorizations|
  {
    var a := s.authorizations[i];
    && Granted(s, a.decisionId)
    && (var d := s.decisions[a.decisionId];
        && Matches(d, a.tenantId, a.callId, a.requestHash)
        && d.createdAt <= a.issuedAt < d.expiresAt)
    && a.issuedAt <= now
    && a.expiresAt == a.issuedAt + TOKEN_LIFETIME
    && a.token == Token(i, a.tenantId, a.callId, a.decisionId, a.requestHash,
                        WholeSeconds(a.issuedAt), WholeSeconds(a.expiresAt))
    && a.status != AuthorizationExpired
    && (a.status == Consumed <==> a.consumedAt.Some?)
    && (a.consumedAt.Some? ==> a.issuedAt <= a.consumedAt.value < a.expiresAt)
  }

  ghost predicate Inv(s: State, now: int) {
    && (forall i :: 0 <= i < |s.decisions| ==> DecisionOk(s.decisions[i], now))
    && (forall i: nat :: i in s.approvals ==> i < |s.decisions| && ApprovalOk(s.decisions[i], s.approvals[i]))
    && (forall i: nat :: i < |s.decisions| && s.decisions[i].outcome == Policy.Escalate ==> i in s.approvals)
    && (forall i: nat :: i < |s.authorizations| ==> AuthorizationOk(s, i, now))
  }

  /** What every transaction keeps of earlier records: nothing is erased, and a use is final. */
  ghost predicate Extends(s: State, s': State) {
    && |s.decisions| <= |s'.decisions| && s'.decisions[..|s.decisions|] == s.decisions
    && |s.authorizations| <= |s'.authorizations|
    && (forall i: nat :: i < |s.authorizations| ==>
          || s'.authorizations[i] == s.authorizations[i]
          || (&& s.authorizations[i].status == Active
              && s'.authorizations[i].status == Consumed
              && s'.authorizations[i] == s.authorizations[i].(status := Consumed,
                                                              consumedAt := s'.authorizations[i].consumedAt)))
    && (forall i: nat :: i in s.approvals ==>
          i in s'.approvals && (s.approvals[i].status != Pending ==> s'.approvals[i] == s.approvals[i]))
  }

  lemma IssueKeepsInv(s: State, id: nat, now: int)
    requires Inv(s, now) && Granted(s, id) && now < s.decisions[id].expiresAt
    ensures Inv(Issue(s, id, now).0, now) && Extends(s, Issue(s, id, now).0)
  {
    var s' := Issue(s, id, now).0;
    forall i: nat | i < |s'.authorizations| ensures AuthorizationOk(s', i, now) {
      if i < |s.authorizations| { assert AuthorizationOk(s, i, now); }
    }
  }

  lemma PolicyNeverVerifies(e: Evaluation)
    ensures Policy.Evaluate(e).outcome != Policy.Verify
  {
  }

  lemma DecideKeepsAuthorization(s: State, e: Evaluation, now: int, i: nat)
    requires i < |s.authorizations| && AuthorizationOk(s, i, now) && |s.decisions| !in s.approvals
    ensures AuthorizationOk(Decide(s, e, now), i, now)
  {
    hide Policy.Evaluate;
    var d := s.authorizations[i].decisionId;
    assert Decide(s, e, now).decisions[d] == s.decisions[d];
  }

  lemma DecideKeepsInv(s: State, e: Evaluation, now: int)
    requires Inv(s, now)
    ensures Inv(Decide(s, e, now), now) && Extends(s, Decide(s, e, now))
  {
    hide AuthorizationOk, Policy.Evaluate;
    var s' := Decide(s, e, now);
    PolicyNeverVerifies(e);
    forall i: nat | i < |s'.authorizations| ensures AuthorizationOk(s', i, now) {
      DecideKeepsAuthorization(s, e, now, i);
    }
  }

  lemma EvaluateKeepsInv(s: State, e: Evaluation, now: int, signing: bool)
    requires Inv(s, now)
    ensures var r := Evaluate(s, e, now, signing);
      r.Ok? ==> Inv(r.value.0, now) && Extends(s, r.value.0)
  {
    hide AuthorizationOk, DecisionOk, Policy.Evaluate, ApprovalOk;
    var q := e.request;
    var existing := LatestLive(s.decisions, q.document.scope.tenantId, q.callId, q.requestHash, now);
    if existing.Some? {
      if Granted(s, existing.value) { IssueKeepsInv(s, existing.value, now); }
    } else {
      DecideKeepsInv(s, e, now);
      var s' := Decide(s, e, now);
      if s'.decisions[|s.decisions|].outcome == Policy.Allow { IssueKeepsInv(s', |s.decisions|, now); }
    }
  }

  lemma ActKeepsAuthorization(s: State, s': State, i: nat, now: int)
    requires i < |s.authorizations| && AuthorizationOk(s, i, now)
    requires s'.decisions == s.decisions && s'.authorizations == s.authorizations
    requires forall id: nat :: id in s.approvals && s.approvals[id].status == Approved ==>
      id in s'.approvals && s'.approvals[id].status == Approved
    ensures AuthorizationOk(s', i, now)
  {
  }

  lemma ActKeepsInv(s: State, tenantId: nat, id: nat, action: ApprovalAction, now: int)
    requires Inv(s, now)
    ensures var r := ActOnApproval(s, tenantId, id, action, now);
      r.Ok? ==> Inv(r.value, now) && Extends(s, r.value)
  {
    hide AuthorizationOk, DecisionOk;
    var r := ActOnApproval(s, tenantId, id, action, now);
    if r.Ok? {
      assert APPROVER_ROLE in s.approvals[id].requiredRoles - action.actorRoles || APPROVER_ROLE in action.actorRoles;
      forall i: nat | i < |s.authorizations| ensures AuthorizationOk(r.value, i, now) {
        ActKeepsAuthorization(s, r.value, i, now);
      }
    }
  }

  lemma ConsumeKeepsInv(s: State, token: Token, callId: nat, hash: RequestHash, now: int)
    requires Inv(s, now)
    ensures var r := Consume(s, token, callId, hash, now);
      r.Ok? ==> Inv(r.value.0, now) && Extends(s, r.value.0)
  {
    var r := Consume(s, token, callId, hash, now);
    if r.Ok? {
      var s' := r.value.0;
      forall i: nat | i < |s'.authorizations| ensures AuthorizationOk(s', i, now) {
        assert AuthorizationOk(s, i, now);
      }
    }
  }

  lemma AuthorizeApprovedKeepsInv(s: State, tenantId: nat, callId: nat, hash: RequestHash, now: int, signing: bool)
    requires Inv(s, now)
    ensures var r := AuthorizeApproved(s, tenantId, callId, hash, now, signing);
      r.Ok? ==> Inv(r.value.0, now) && Extends(s, r.value.0)
  {
    var found := LatestApproved(s.decisions, s.approvals, tenantId, callId, hash);
    if found.Some? && now < s.decisions[found.value].expiresAt { IssueKeepsInv(s, found.value, now); }
  }

  lemma TickKeepsInv(s: State, now: int, later: int)
    requires Inv(s, now) && now <= later
    ensures Inv(s, later)
  {
    forall i: nat | i < |s.authorizations| ensures AuthorizationOk(s, i, later) {
      assert AuthorizationOk(s, i, now);
    }
  }
}
