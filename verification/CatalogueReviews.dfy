/** Whose word each catalogue row carries: the last accepted review of a version, of a server, and nothing else. */
module CatalogueReviews {
  import opened Contracts
  import opened Catalogue
  import opened CatalogueSafety
  import Protocol

  // ---------------------------------------------------- request by request

  /** The review names a version of the caller's own active server by its canonical name. */
  predicate Accepted(s: State, version: nat, review: Review, tenantId: Option<nat>) {
    && version < |s.versions| && s.versions[version].tool < |s.tools|
    && var tool := s.tools[s.versions[version].tool];
       && tool.canonicalName == review.canonicalName && tool.server < |s.servers|
       && s.servers[tool.server].tenantId == tenantId && s.servers[tool.server].status == Active
  }

  /** Version `v` and its policy carry what the review says. */
  predicate Carries(s: State, v: nat, review: Review) {
    && v < |s.versions| && v < |s.policies|
    && s.versions[v].riskClass == review.riskClass && s.versions[v].sideEffects == review.sideEffects
    && s.versions[v].idempotent == review.idempotent
    && s.policies[v].approvalMode == review.approvalMode
    && s.policies[v].access.requiredRoles == review.access.requiredRoles
    && s.policies[v].access.requiredPurposes == review.access.requiredPurposes
    && s.policies[v].access.requiredConsents == review.access.requiredConsents
    && s.policies[v].access.allowedAgents == review.access.allowedAgents
    && s.policies[v].access.maximumResultBytes == review.access.maximumResultBytes
  }

  /** Version `v` and its policy keep their classification. */
  predicate SameWord(s: State, s': State, v: nat) {
    && v < |s.versions| && v < |s.policies| && v < |s'.versions| && v < |s'.policies|
    && s'.versions[v] == s.versions[v].(status := s'.versions[v].status)
    && s'.policies[v] == s.policies[v].(status := s'.policies[v].status)
  }

  /** A review is accepted exactly as said, and classifies and activates its version in place of its siblings. */
  lemma ReviewsExactly(s: State, version: nat, review: Review, tenantId: Option<nat>)
    requires Inv(s)
    ensures var r := ReviewVersion(s, version, review, tenantId);
      && (r.Ok? <==> Accepted(s, version, review, tenantId))
      && (r.Ok? ==>
            var s', tool := r.value, s.versions[version].tool;
            && s'.servers == s.servers && |s'.tools| == |s.tools| && |s'.versions| == |s.versions|
            && Carries(s', version, review)
            && s'.versions[version].tool == tool && s'.versions[version].schema == s.versions[version].schema
            && s'.versions[version].status == VersionActive && s'.policies[version].status == PolicyActive
            && s'.tools[tool] == s.tools[tool].(status := ToolActive)
            && (forall t :: 0 <= t < |s.tools| && t != tool ==> s'.tools[t] == s.tools[t])
            && (forall v :: 0 <= v < |s.versions| && v != version ==>
                  && SameWord(s, s', v)
                  && s'.versions[v].status == (if s.versions[v].tool == tool then Superseded else s.versions[v].status)
                  && s'.policies[v].status == (if s.versions[v].tool == tool then Disabled else s.policies[v].status)))
  {
    if Accepted(s, version, review, tenantId) {
      forall v: nat | v < |s.versions| ensures s.policies[v].version == v { assert VersionOk(s, v); }
    }
  }

  /** A server is registered exactly under a well formed label its owner does not use yet. */
  lemma RegistersExactly(s: State, tenantId: Option<nat>, serverLabel: string)
    ensures var s' := Step(s, DoRegister(tenantId, serverLabel));
      && (s' != s <==>
            && 3 <= |serverLabel| <= 100 && 'a' <= serverLabel[0] <= 'z'
            && (forall c :: c in serverLabel[1..] ==> 'a' <= c <= 'z' || '0' <= c <= '9' || c == '_' || c == '-')
            && (forall row :: row in s.servers && row.tenantId == tenantId ==> row.serverLabel != serverLabel))
      && (s' != s ==>
            && s' == s.(servers := s'.servers)
            && s'.servers == s.servers + [Server(tenantId, serverLabel, PendingReview, false)])
  {
    if 3 <= |serverLabel| {
      if forall c :: c in serverLabel[1..] ==> LabelRest(c) {
        forall i | 1 <= i < |serverLabel| ensures LabelRest(serverLabel[i]) {
          assert serverLabel[i] == serverLabel[1..][i - 1];
        }
      }
    }
    var query := ByLabel(tenantId, serverLabel);
    if Find(s.servers, query) == |s.servers| {
      forall row | row in s.servers && row.tenantId == tenantId ensures row.serverLabel != serverLabel {
        assert !query(row);
      }
    } else {
      assert s.servers[Find(s.servers, query)] in s.servers;
    }
  }

  predicate NameFound(found: seq<Discovered>, name: string) {
    exists d :: d in found && d.name == name
  }

  /** The new rows are pending, unprivileged, and of what was found. */
  ghost predicate Adds(s: State, s': State, server: nat, found: seq<Discovered>) {
    && s'.servers == s.servers && s.tools <= s'.tools && s.versions <= s'.versions && s.policies <= s'.policies
    && |s'.versions| == |s'.policies|
    && (forall t :: |s.tools| <= t < |s'.tools| ==>
          && s'.tools[t].server == server && s'.tools[t].status == ToolPending
          && NameFound(found, s'.tools[t].originalName))
    && (forall v :: |s.versions| <= v < |s'.versions| ==> Pending(s', v, server, found))
  }

  ghost predicate Pending(s: State, v: nat, server: nat, found: seq<Discovered>)
    requires v < |s.versions| == |s.policies|
  {
    var row := s.versions[v];
    && row.status == VersionPending && row.riskClass == Read && !row.sideEffects && row.idempotent
    && s.policies[v].status == Draft && s.policies[v].approvalMode == ByPolicy
    && s.policies[v].access == Access({}, {}, {}, {}, 262_144)
    && row.tool < |s.tools| && s.tools[row.tool].server == server
    && exists d :: d in found && d.name == s.tools[row.tool].originalName && d.schema == row.schema
  }

  lemma UpsertAdds(s: State, server: nat, d: Discovered)
    requires |s.versions| == |s.policies| && server < |s.servers|
    ensures Adds(s, Upsert(s, server, d), server, [d])
  {
    ToolIsThere(s, server, d.name);
    assert d in [d];
  }

  lemma {:induction false} UpsertAllAdds(s: State, server: nat, found: seq<Discovered>)
    requires |s.versions| == |s.policies| && server < |s.servers|
    ensures Adds(s, UpsertAll(s, server, found), server, found)
  {
    hide Upsert;
    if found != [] {
      var n := |found| - 1;
      UpsertAllAdds(s, server, found[..n]);
      var before := UpsertAll(s, server, found[..n]);
      UpsertAdds(before, server, found[n]);
      AddsTwice(s, before, Upsert(before, server, found[n]), server, found[..n], found[n], found);
    }
  }

  lemma AddsTwice(
    s: State, s1: State, s2: State, server: nat, first: seq<Discovered>, d: Discovered, found: seq<Discovered>)
    requires |s.versions| == |s.policies|
    requires Adds(s, s1, server, first) && Adds(s1, s2, server, [d]) && found == first + [d]
    ensures Adds(s, s2, server, found)
  {
    forall t | |s.tools| <= t < |s2.tools|
      ensures s2.tools[t].server == server && s2.tools[t].status == ToolPending
      ensures NameFound(found, s2.tools[t].originalName)
    {
      if t < |s1.tools| {
        assert s2.tools[t] == s1.tools[t] && NameFound(first, s1.tools[t].originalName);
        var e :| e in first && e.name == s1.tools[t].originalName;
        assert e in found;
      } else {
        assert NameFound([d], s2.tools[t].originalName);
        assert d in found;
      }
    }
    forall v | |s.versions| <= v < |s2.versions| ensures Pending(s2, v, server, found) {
      if v < |s1.versions| {
        assert Pending(s1, v, server, first) && s2.versions[v] == s1.versions[v] && s2.policies[v] == s1.policies[v];
        var tool := s1.versions[v].tool;
        assert s2.tools[tool] == s1.tools[tool];
        var e :| e in first && e.name == s1.tools[tool].originalName && e.schema == s1.versions[v].schema;
        assert e in found;
      } else {
        assert Pending(s2, v, server, [d]);
        var e :| e in [d] && e.name == s2.tools[s2.versions[v].tool].originalName && e.schema == s2.versions[v].schema;
        assert e in found;
      }
    }
  }

  /** Discovery adds pending rows for what it found and was not known, finds all of it then, and changes no old row. */
  lemma DiscoversExactly(s: State, server: nat, found: seq<Discovered>)
    requires Inv(s)
    ensures var s' := Step(s, DoDiscover(server, found));
      && (server >= |s.servers| ==> s' == s)
      && (server < |s.servers| ==>
            && Adds(s, s'.(servers := s.servers), server, found)
            && s'.servers == s.servers[server := s.servers[server].(discovered := true)]
            && forall d :: d in found ==> HasVersion(s', server, d))
  {
    hide UpsertAll, Inv;
    if server < |s.servers| {
      SameLengths(s);
      UpsertAllAdds(s, server, found);
      UpsertAllKnows(s, server, found);
      var s' := Step(s, DoDiscover(server, found));
      assert s'.(servers := s.servers) == UpsertAll(s, server, found);
      forall d | d in found ensures HasVersion(s', server, d) {
        assert Known(UpsertAll(s, server, found), server, d);
        var t := Find(s'.tools, ByName(server, d.name));
        var v := Find(s'.versions, BySchema(t, d.schema));
        assert s'.versions[v].tool == t && s'.tools[t].originalName == d.name;
      }
    }
  }

  /** A version with this name and schema is on the server. */
  predicate HasVersion(s: State, server: nat, d: Discovered) {
    exists v :: 0 <= v < |s.versions| && s.versions[v].schema == d.schema && s.versions[v].tool < |s.tools|
      && s.tools[s.versions[v].tool].server == server && s.tools[s.versions[v].tool].originalName == d.name
  }

  lemma SameLengths(s: State)
    requires Inv(s)
    ensures |s.versions| == |s.policies|
  {
  }

  // ------------------------------------------------------------ last reviews

  /** The last accepted review of version `v` in a run from the empty catalogue. */
  ghost function LastReview(ops: seq<Op>, v: nat): Option<Review> {
    if ops == [] then None
    else
      var n := |ops| - 1;
      var op := ops[n];
      if op.DoReviewVersion? && op.version == v && Accepted(Run(EMPTY, ops[..n]), v, op.review, op.tenantId)
      then Some(op.review)
      else LastReview(ops[..n], v)
  }

  /** The version of tool `t` whose review was accepted last. */
  ghost function LastReviewed(ops: seq<Op>, t: nat): Option<nat> {
    if ops == [] then None
    else
      var n := |ops| - 1;
      var op, before := ops[n], Run(EMPTY, ops[..n]);
      if op.DoReviewVersion? && Accepted(before, op.version, op.review, op.tenantId)
         && before.versions[op.version].tool == t
      then Some(op.version)
      else LastReviewed(ops[..n], t)
  }

  /** Whether server `i` was last opened or closed by a review, and whether it was ever discovered. */
  ghost function LastDecision(ops: seq<Op>, i: nat): ServerStatus {
    if ops == [] then PendingReview
    else
      var n := |ops| - 1;
      var op, before := ops[n], Run(EMPTY, ops[..n]);
      if op.DoReviewServer? && op.server == i && i < |before.servers| && (op.activate ==> before.servers[i].discovered)
      then (if op.activate then Active else Suspended)
      else LastDecision(ops[..n], i)
  }

  ghost predicate WasDiscovered(ops: seq<Op>, i: nat) {
    exists k :: 0 <= k < |ops| && ops[k].DoDiscover? && ops[k].server == i && i < |Run(EMPTY, ops[..k]).servers|
  }

  lemma {:induction false} RunSnoc(s: State, ops: seq<Op>, op: Op)
    ensures Run(s, ops + [op]) == Step(Run(s, ops), op)
    decreases |ops|
  {
    hide Step;
    if ops == [] {
      assert [op][1..] == [] && Run(Step(s, op), []) == Step(s, op);
    } else {
      assert (ops + [op])[1..] == ops[1..] + [op];
      RunSnoc(Step(s, ops[0]), ops[1..], op);
    }
  }

  lemma LastStep(ops: seq<Op>)
    requires ops != []
    ensures Run(EMPTY, ops) == Step(Run(EMPTY, ops[..|ops| - 1]), ops[|ops| - 1]) && Inv(Run(EMPTY, ops[..|ops| - 1]))
  {
    hide Step, Inv;
    assert ops == ops[..|ops| - 1] + [ops[|ops| - 1]];
    RunSnoc(EMPTY, ops[..|ops| - 1], ops[|ops| - 1]);
    RunKeepsInv(EMPTY, ops[..|ops| - 1]);
  }

  /** What is not yet reviewed is unprivileged and closed. */
  predicate Unreviewed(s: State, v: nat) {
    && v < |s.versions| && v < |s.policies| && s.versions[v].status != VersionActive
    && s.policies[v].status != PolicyActive
    && s.versions[v].riskClass == Read && !s.versions[v].sideEffects && s.policies[v].approvalMode == ByPolicy
  }

  /** What version `v` carries when its last accepted review is `last`. */
  predicate WordOf(s: State, v: nat, last: Option<Review>) {
    match last
    case Some(review) => Carries(s, v, review)
    case None => Unreviewed(s, v)
  }

  /** No request but a review touches what an earlier row says. */
  lemma OthersKeepWords(s: State, op: Op, v: nat)
    requires Inv(s) && !op.DoReviewVersion? && v < |s.versions|
    ensures var s' := Step(s, op);
      && SameWord(s, s', v) && s'.versions[v] == s.versions[v] && s'.policies[v] == s.policies[v]
  {
    hide UpsertAll, ToolsOk, ServersOk;
    match op {
      case DoDiscover(server, found) => if server < |s.servers| { UpsertAllAdds(s, server, found); }
      case _ =>
    }
  }

  /** New versions come from discovery alone, and are pending. */
  lemma NewVersionsArePending(s: State, op: Op, v: nat)
    requires Inv(s) && |s.versions| <= v < |Step(s, op).versions|
    ensures !op.DoReviewVersion? && Unreviewed(Step(s, op), v) && Step(s, op).versions[v].status == VersionPending
  {
    hide UpsertAll, ToolsOk, ServersOk, Reviewed;
    match op {
      case DoDiscover(server, found) =>
        UpsertAllAdds(s, server, found);
        assert Pending(UpsertAll(s, server, found), v, server, found);
      case _ =>
    }
  }

  lemma ReviewKeepsWord(s: State, op: Op, v: nat, last: Option<Review>)
    requires Inv(s) && op.DoReviewVersion? && v < |s.versions| && WordOf(s, v, last)
    ensures WordOf(Step(s, op), v,
                   if op.version == v && Accepted(s, v, op.review, op.tenantId) then Some(op.review) else last)
  {
    hide Inv, Accepted, ReviewVersion;
    ReviewsExactly(s, op.version, op.review, op.tenantId);
  }

  /**
   After any run every version and its policy say what the last accepted review of that version said; one never
   reviewed is closed, READ and under the POLICY mode.
   */
  lemma {:induction false} VersionsCarryTheirLastReview(ops: seq<Op>, v: nat)
    requires v < |Run(EMPTY, ops).versions|
    ensures WordOf(Run(EMPTY, ops), v, LastReview(ops, v))
    decreases |ops|
  {
    hide Inv, Step, WordOf, Accepted, Run;
    if ops == [] {
      assert Run(EMPTY, []) == EMPTY by { EmptyRun(); }
      assert false;
    } else {
      var n := |ops| - 1;
      var before := Run(EMPTY, ops[..n]);
      LastStep(ops);
      if v < |before.versions| {
        VersionsCarryTheirLastReview(ops[..n], v);
        if ops[n].DoReviewVersion? { ReviewKeepsWord(before, ops[n], v, LastReview(ops[..n], v)); }
        else {
          OthersKeepWords(before, ops[n], v);
          SameRowsSameWord(before, Step(before, ops[n]), v, LastReview(ops[..n], v));
        }
      } else {
        NewVersionsArePending(before, ops[n], v);
        NoReviewBefore(ops[..n], v);
        assert WordOf(Step(before, ops[n]), v, None) by { UnreviewedWord(Step(before, ops[n]), v); }
      }
    }
  }

  lemma EmptyRun()
    ensures Run(EMPTY, []) == EMPTY
  {
  }

  lemma UnreviewedWord(s: State, v: nat)
    requires Unreviewed(s, v)
    ensures WordOf(s, v, None)
  {
  }

  lemma SameRowsSameWord(s: State, s': State, v: nat, last: Option<Review>)
    requires v < |s.versions| && v < |s.policies| && v < |s'.versions| && v < |s'.policies| && WordOf(s, v, last)
    requires s'.versions[v] == s.versions[v] && s'.policies[v] == s.policies[v]
    ensures WordOf(s', v, last)
  {
  }

  lemma {:induction false} NoReviewBefore(ops: seq<Op>, v: nat)
    requires v >= |Run(EMPTY, ops).versions|
    ensures LastReview(ops, v) == None
    decreases |ops|
  {
    hide Inv, Step;
    if ops != [] {
      var n := |ops| - 1;
      LastStep(ops);
      StepGrows(Run(EMPTY, ops[..n]), ops[n]);
      NoReviewBefore(ops[..n], v);
    }
  }

  // ------------------------------------------------------- what is active

  predicate ActiveIs(s: State, t: nat, last: Option<nat>) {
    forall v :: 0 <= v < |s.versions| && s.versions[v].tool == t ==>
      (s.versions[v].status == VersionActive <==> last == Some(v))
  }

  lemma ReviewActivates(s: State, op: Op, t: nat, last: Option<nat>)
    requires Inv(s) && op.DoReviewVersion? && ActiveIs(s, t, last)
    ensures ActiveIs(Step(s, op), t,
                     if Accepted(s, op.version, op.review, op.tenantId) && s.versions[op.version].tool == t
                     then Some(op.version) else last)
  {
    hide Inv, ReviewVersion;
    ReviewsExactly(s, op.version, op.review, op.tenantId);
  }

  lemma OthersActivateNothing(s: State, op: Op, t: nat, last: Option<nat>)
    requires Inv(s) && !op.DoReviewVersion? && ActiveIs(s, t, last) && (last.Some? ==> last.value < |s.versions|)
    ensures ActiveIs(Step(s, op), t, last)
  {
    hide Inv, Step;
    var s' := Step(s, op);
    forall v: nat | v < |s'.versions| && s'.versions[v].tool == t
      ensures s'.versions[v].status == VersionActive <==> last == Some(v)
    {
      if v < |s.versions| { OthersKeepWords(s, op, v); } else { NewVersionsArePending(s, op, v); }
    }
  }

  lemma {:induction false} LastReviewedExists(ops: seq<Op>, t: nat)
    ensures LastReviewed(ops, t).Some? ==> LastReviewed(ops, t).value < |Run(EMPTY, ops).versions|
    decreases |ops|
  {
    hide Inv, Step;
    if ops != [] {
      var n := |ops| - 1;
      LastStep(ops);
      StepGrows(Run(EMPTY, ops[..n]), ops[n]);
      LastReviewedExists(ops[..n], t);
    }
  }

  /** After any run the ACTIVE version of a tool is the one whose review was accepted last, if any was. */
  lemma {:induction false} ActiveIsTheLastReviewed(ops: seq<Op>, t: nat)
    ensures ActiveIs(Run(EMPTY, ops), t, LastReviewed(ops, t))
    decreases |ops|
  {
    hide Inv, Step, ActiveIs, Accepted;
    if ops == [] {
      assert ActiveIs(EMPTY, t, None) by { NothingIsActive(t); }
    } else {
      var n := |ops| - 1;
      LastStep(ops);
      ActiveIsTheLastReviewed(ops[..n], t);
      LastReviewedExists(ops[..n], t);
      var before := Run(EMPTY, ops[..n]);
      if ops[n].DoReviewVersion? { ReviewActivates(before, ops[n], t, LastReviewed(ops[..n], t)); }
      else { OthersActivateNothing(before, ops[n], t, LastReviewed(ops[..n], t)); }
    }
  }

  lemma NothingIsActive(t: nat)
    ensures ActiveIs(EMPTY, t, None)
  {
  }

  /** A server's status follows the last decision on it. */
  lemma StepDecides(s: State, op: Op, i: nat)
    requires i < |Step(s, op).servers|
    ensures var s' := Step(s, op);
      && (if i < |s.servers| && op.DoReviewServer? && op.server == i && (op.activate ==> s.servers[i].discovered)
          then s'.servers[i].status == (if op.activate then Active else Suspended)
          else if i < |s.servers| then s'.servers[i].status == s.servers[i].status
          else s'.servers[i].status == PendingReview && !s'.servers[i].discovered)
      && (i < |s.servers| ==>
            (s'.servers[i].discovered <==> s.servers[i].discovered || (op.DoDiscover? && op.server == i)))
  {
    hide UpsertAll, Find;
  }

  lemma ServersGrow(s: State, op: Op)
    ensures |s.servers| <= |Step(s, op).servers|
  {
    StepGrows(s, op);
  }

  lemma {:induction false} NoDecisionBefore(ops: seq<Op>, i: nat)
    requires i >= |Run(EMPTY, ops).servers|
    ensures LastDecision(ops, i) == PendingReview && !WasDiscovered(ops, i)
    decreases |ops|
  {
    hide Inv, Step;
    if ops != [] {
      var n := |ops| - 1;
      LastStep(ops);
      ServersGrow(Run(EMPTY, ops[..n]), ops[n]);
      NoDecisionBefore(ops[..n], i);
      DiscoveredSnoc(ops, i);
    }
  }

  lemma DiscoveredSnoc(ops: seq<Op>, i: nat)
    requires ops != []
    ensures var n := |ops| - 1;
      WasDiscovered(ops, i) <==>
        WasDiscovered(ops[..n], i) || (ops[n].DoDiscover? && ops[n].server == i && i < |Run(EMPTY, ops[..n]).servers|)
  {
    hide Run, EMPTY;
    var n := |ops| - 1;
    if WasDiscovered(ops, i) {
      var k :| 0 <= k < |ops| && ops[k].DoDiscover? && ops[k].server == i && i < |Run(EMPTY, ops[..k]).servers|;
      if k < n { assert ops[..n][..k] == ops[..k] && ops[..n][k] == ops[k]; }
    }
    if WasDiscovered(ops[..n], i) {
      var k :| 0 <= k < n && ops[..n][k].DoDiscover? && ops[..n][k].server == i
        && i < |Run(EMPTY, ops[..n][..k]).servers|;
      assert ops[..n][..k] == ops[..k];
    }
  }

  /** After any run a server is as the last admissible decision left it, and opened only once discovered. */
  lemma {:induction false} ServersFollowTheirReviews(ops: seq<Op>, i: nat)
    requires i < |Run(EMPTY, ops).servers|
    ensures var server := Run(EMPTY, ops).servers[i];
      && server.status == LastDecision(ops, i) && (server.discovered <==> WasDiscovered(ops, i))
      && (server.status == Active ==> server.discovered)
    decreases |ops|
  {
    hide Inv, Step, Run, WasDiscovered;
    if ops == [] {
      EmptyRun();
      assert false;
    } else {
      var n := |ops| - 1;
      var before := Run(EMPTY, ops[..n]);
      LastStep(ops);
      DiscoveredSnoc(ops, i);
      StepDecides(before, ops[n], i);
      if i < |before.servers| { ServersFollowTheirReviews(ops[..n], i); } else { NoDecisionBefore(ops[..n], i); }
    }
  }

  // ------------------------------------------------------- what the broker gets

  /** The broker works with this row of the join. */
  predicate Joins(s: State, p: nat, row: Protocol.ToolRow)
    requires p < |s.policies| && s.policies[p].version < |s.versions|
  {
    var policy, version := s.policies[p], s.versions[s.policies[p].version];
    && row.versionId == policy.version && row.riskClass == version.riskClass
    && row.sideEffects == version.sideEffects && row.idempotent == version.idempotent
    && row.approvalMode == policy.approvalMode && row.requiredRoles == policy.access.requiredRoles
    && row.requiredPurposes == policy.access.requiredPurposes && row.requiredConsents == policy.access.requiredConsents
    && row.allowedAgents == policy.access.allowedAgents && row.maximumResultBytes == policy.access.maximumResultBytes
  }

  /**
   Whatever a tenant's name resolves to was reviewed, and the broker asks Guardian about it unless its last review
   said READ and NEVER.
   */
  lemma ResolvedToolsAreReviewed(ops: seq<Op>, tenantId: nat, name: string, p: nat, row: Protocol.ToolRow)
    requires Candidate(Run(EMPTY, ops), tenantId, name, p) && Joins(Run(EMPTY, ops), p, row)
    ensures var last := LastReview(ops, p);
      && last.Some? && Carries(Run(EMPTY, ops), p, last.value)
      && last.value.canonicalName == name
      && (Protocol.Protected(row) <==> last.value.riskClass != Read || last.value.approvalMode != Never)
      && row.sideEffects == last.value.sideEffects
      && row.requiredRoles == last.value.access.requiredRoles
      && row.requiredPurposes == last.value.access.requiredPurposes
      && row.requiredConsents == last.value.access.requiredConsents
      && row.allowedAgents == last.value.access.allowedAgents
  {
    hide Run;
    RunKeepsInv(EMPTY, ops);
    var s := Run(EMPTY, ops);
    assert VersionOk(s, p);
    VersionsCarryTheirLastReview(ops, p);
    LastReviewNames(ops, p);
  }

  /** The last accepted review of a version named its tool. */
  lemma {:induction false} LastReviewNames(ops: seq<Op>, v: nat)
    requires LastReview(ops, v).Some?
    ensures var s := Run(EMPTY, ops);
      && v < |s.versions| && s.versions[v].tool < |s.tools|
      && s.tools[s.versions[v].tool].canonicalName == LastReview(ops, v).value.canonicalName
    decreases |ops|
  {
    hide Inv, Step;
    if ops != [] {
      var n := |ops| - 1;
      var before := Run(EMPTY, ops[..n]);
      LastStep(ops);
      if LastReview(ops[..n], v).Some? { LastReviewNames(ops[..n], v); }
      NamesStay(before, ops[n], v);
    }
  }

  lemma NamesStay(s: State, op: Op, v: nat)
    requires Inv(s)
    ensures var s' := Step(s, op);
      v < |s.versions| ==>
        && v < |s'.versions| && s'.versions[v].tool == s.versions[v].tool < |s.tools| <= |s'.tools|
        && s'.tools[s.versions[v].tool].canonicalName == s.tools[s.versions[v].tool].canonicalName
  {
    if v < |s.versions| {
      assert VersionOk(s, v);
      hide Inv, UpsertAll, Find;
      match op {
        case DoDiscover(server, found) =>
          if server < |s.servers| {
            SameLengths(s);
            UpsertAllAdds(s, server, found);
          }
        case _ =>
      }
    }
  }

  /**
   A name resolves to a version exactly if that is its tool's name, its review was the last accepted one of the tool,
   and the tool's server, the tenant's own or a global one, was last opened.
   */
  lemma CandidatesAreTheLastReviewed(ops: seq<Op>, tenantId: nat, name: string, p: nat)
    requires p < |Run(EMPTY, ops).versions|
    ensures var s := Run(EMPTY, ops);
      && s.versions[p].tool < |s.tools| && s.tools[s.versions[p].tool].server < |s.servers|
      && var t := s.versions[p].tool;
         var i := s.tools[t].server;
         Candidate(s, tenantId, name, p) <==>
           && s.tools[t].canonicalName == name && LastReviewed(ops, t) == Some(p) && LastDecision(ops, i) == Active
           && (s.servers[i].tenantId == Some(tenantId) || s.servers[i].tenantId == None)
  {
    hide Run;
    RunKeepsInv(EMPTY, ops);
    var s := Run(EMPTY, ops);
    assert VersionOk(s, p);
    ActiveIsTheLastReviewed(ops, s.versions[p].tool);
    ServersFollowTheirReviews(ops, s.tools[s.versions[p].tool].server);
  }
}
