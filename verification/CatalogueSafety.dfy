/** Active rows, stable rediscovery and unique resolution, over whole runs of the catalogue. */
module CatalogueSafety {
  import opened Contracts
  import opened Catalogue

  // -------------------------------------------------------------- invariant

  predicate ToolOk(s: State, t: nat)
    requires t < |s.tools|
  {
    var tool := s.tools[t];
    tool.server < |s.servers| && tool.canonicalName == Canonical(s.servers[tool.server].serverLabel, tool.originalName)
  }

  /** Version, policy and owner agree row by row. */
  predicate VersionOk(s: State, v: nat)
    requires v < |s.versions| == |s.policies|
  {
    var version, policy := s.versions[v], s.policies[v];
    && policy.version == v
    && version.tool < |s.tools|
    && (version.status == VersionActive <==> policy.status == PolicyActive)
    && (version.status == VersionActive ==> s.tools[version.tool].status == ToolActive)
    && s.tools[version.tool].server < |s.servers|
    && policy.tenantId == s.servers[s.tools[version.tool].server].tenantId
  }

  predicate HasActive(versions: seq<Version>, t: nat) {
    exists v :: 0 <= v < |versions| && versions[v].tool == t && versions[v].status == VersionActive
  }

  predicate SameServer(a: Server, b: Server) { a.tenantId == b.tenantId && a.serverLabel == b.serverLabel }

  predicate SameTool(a: Tool, b: Tool) { a.server == b.server && a.originalName == b.originalName }

  predicate SameSchema(a: Version, b: Version) { a.tool == b.tool && a.schema == b.schema }

  predicate BothActive(a: Version, b: Version) {
    a.tool == b.tool && a.status == VersionActive && b.status == VersionActive
  }

  ghost predicate ServersOk(s: State) {
    && (forall i :: 0 <= i < |s.servers| ==> ValidLabel(s.servers[i].serverLabel))
    && (forall i, j :: 0 <= i < j < |s.servers| ==> !SameServer(s.servers[i], s.servers[j]))
  }

  ghost predicate ToolsOk(s: State) {
    && (forall t: nat :: t < |s.tools| ==> ToolOk(s, t))
    && (forall i, j :: 0 <= i < j < |s.tools| ==> !SameTool(s.tools[i], s.tools[j]))
    && (forall t: nat :: t < |s.tools| && s.tools[t].status == ToolActive ==> HasActive(s.versions, t))
  }

  ghost predicate VersionsOk(s: State) {
    && |s.versions| == |s.policies|
    && (forall v: nat :: v < |s.versions| ==> VersionOk(s, v))
    && (forall i, j :: 0 <= i < j < |s.versions| ==> !SameSchema(s.versions[i], s.versions[j]))
    && (forall i, j :: 0 <= i < j < |s.versions| ==> !BothActive(s.versions[i], s.versions[j]))
  }

  ghost predicate Inv(s: State) {
    ServersOk(s) && ToolsOk(s) && VersionsOk(s)
  }

  // ------------------------------------------------------------------ steps

  /** Servers keep their owner and serverLabel; new ones may come. */
  ghost predicate SameOwners(s: State, s': State) {
    && |s.servers| <= |s'.servers|
    && (forall i :: 0 <= i < |s.servers| ==> SameServer(s.servers[i], s'.servers[i]))
  }

  lemma OwnersFrame(s: State, s': State)
    requires ToolsOk(s) && VersionsOk(s) && SameOwners(s, s')
    requires s'.tools == s.tools && s'.versions == s.versions && s'.policies == s.policies
    ensures ToolsOk(s') && VersionsOk(s')
  {
    forall t: nat | t < |s'.tools| ensures ToolOk(s', t) { assert ToolOk(s, t); }
    forall v: nat | v < |s'.versions| ensures VersionOk(s', v) {
      assert VersionOk(s, v);
      assert ToolOk(s, s.versions[v].tool);
    }
  }

  lemma RegisterKeepsInv(s: State, tenantId: Option<nat>, serverLabel: string)
    requires Inv(s)
    ensures var r := Register(s, tenantId, serverLabel); r.Ok? ==> Inv(r.value)
  {
    var r := Register(s, tenantId, serverLabel);
    if r.Ok? {
      forall i | 0 <= i < |s.servers| ensures !SameServer(s.servers[i], r.value.servers[|s.servers|]) {
        assert !ByLabel(tenantId, serverLabel)(s.servers[i]);
      }
      OwnersFrame(s, r.value);
    }
  }

  lemma WithToolKeepsInv(s: State, server: nat, name: string)
    requires Inv(s) && server < |s.servers|
    ensures Inv(WithTool(s, server, name))
  {
    var s' := WithTool(s, server, name);
    if s' != s {
      var last := s'.tools[|s.tools|];
      forall t: nat | t < |s'.tools| ensures ToolOk(s', t) {
        if t < |s.tools| { assert ToolOk(s, t); }
      }
      forall i | 0 <= i < |s.tools| ensures !SameTool(s.tools[i], last) { assert !ByName(server, name)(s.tools[i]); }
      forall v: nat | v < |s'.versions| ensures VersionOk(s', v) { assert VersionOk(s, v); }
    }
  }

  lemma WithVersionKeepsInv(s: State, server: nat, tool: nat, schema: string)
    requires Inv(s) && server < |s.servers| && tool < |s.tools| && s.tools[tool].server == server
    ensures Inv(WithVersion(s, server, tool, schema))
  {
    var s' := WithVersion(s, server, tool, schema);
    if s' != s {
      var last := s'.versions[|s.versions|];
      forall i | 0 <= i < |s.versions| ensures !SameSchema(s.versions[i], last) {
        assert !BySchema(tool, schema)(s.versions[i]);
      }
      forall t: nat | t < |s'.tools| ensures ToolOk(s', t) { assert ToolOk(s, t); }
      forall t: nat | t < |s'.tools| && s'.tools[t].status == ToolActive ensures HasActive(s'.versions, t) {
        var v :| 0 <= v < |s.versions| && s.versions[v].tool == t && s.versions[v].status == VersionActive;
        assert s'.versions[v] == s.versions[v];
      }
      forall v: nat | v < |s'.versions| ensures VersionOk(s', v) {
        if v < |s.versions| { assert VersionOk(s, v); }
      }
    }
  }

  lemma UpsertKeepsInv(s: State, server: nat, d: Discovered)
    requires Inv(s) && server < |s.servers|
    ensures Inv(Upsert(s, server, d))
  {
    hide Inv;
    WithToolKeepsInv(s, server, d.name);
    ToolIsThere(s, server, d.name);
    var s1 := WithTool(s, server, d.name);
    WithVersionKeepsInv(s1, server, Find(s1.tools, ByName(server, d.name)), d.schema);
  }

  lemma ToolIsThere(s: State, server: nat, name: string)
    requires server < |s.servers|
    ensures var s' := WithTool(s, server, name); Find(s'.tools, ByName(server, name)) < |s'.tools|
  {
    var s' := WithTool(s, server, name);
    if s' != s { assert ByName(server, name)(s'.tools[|s.tools|]); }
  }

  lemma {:induction false} UpsertAllKeepsInv(s: State, server: nat, found: seq<Discovered>)
    requires Inv(s) && server < |s.servers|
    ensures Inv(UpsertAll(s, server, found))
  {
    hide Inv, Upsert;
    if found != [] {
      UpsertAllKeepsInv(s, server, found[..|found| - 1]);
      UpsertKeepsInv(UpsertAll(s, server, found[..|found| - 1]), server, found[|found| - 1]);
    }
  }

  lemma ServerChangeKeepsInv(s: State, server: nat, row: Server)
    requires Inv(s) && server < |s.servers| && SameServer(s.servers[server], row)
    ensures Inv(s.(servers := s.servers[server := row]))
  {
    var s' := s.(servers := s.servers[server := row]);
    forall i, j | 0 <= i < j < |s'.servers| ensures !SameServer(s'.servers[i], s'.servers[j]) {
      assert !SameServer(s.servers[i], s.servers[j]);
    }
    OwnersFrame(s, s');
  }

  lemma ReviewedVersions(s: State, version: nat, review: Review)
    requires ToolsOk(s) && VersionsOk(s) && version < |s.versions| && s.versions[version].tool < |s.tools|
    ensures VersionsOk(Reviewed(s, version, review))
  {
    var s' := Reviewed(s, version, review);
    forall v: nat | v < |s'.versions| ensures VersionOk(s', v) { assert VersionOk(s, v); }
    forall i, j | 0 <= i < j < |s'.versions|
      ensures !SameSchema(s'.versions[i], s'.versions[j]) && !BothActive(s'.versions[i], s'.versions[j])
    {
      assert !SameSchema(s.versions[i], s.versions[j]) && !BothActive(s.versions[i], s.versions[j]);
    }
  }

  lemma ReviewedTools(s: State, version: nat, review: Review)
    requires ToolsOk(s) && version < |s.versions| && s.versions[version].tool < |s.tools|
    ensures ToolsOk(Reviewed(s, version, review))
  {
    var s' := Reviewed(s, version, review);
    forall t: nat | t < |s'.tools| ensures ToolOk(s', t) { assert ToolOk(s, t); }
    forall i, j | 0 <= i < j < |s'.tools| ensures !SameTool(s'.tools[i], s'.tools[j]) {
      assert !SameTool(s.tools[i], s.tools[j]);
    }
    forall t: nat | t < |s'.tools| && s'.tools[t].status == ToolActive ensures HasActive(s'.versions, t) {
      if t == s.versions[version].tool {
        assert s'.versions[version].status == VersionActive && s'.versions[version].tool == t;
      } else {
        var v :| 0 <= v < |s.versions| && s.versions[v].tool == t && s.versions[v].status == VersionActive;
        assert s'.versions[v] == s.versions[v];
      }
    }
  }

  lemma StepKeepsInv(s: State, op: Op)
    requires Inv(s)
    ensures Inv(Step(s, op))
  {
    hide UpsertAll, Reviewed;
    match op {
      case DoRegister(tenantId, serverLabel) => RegisterKeepsInv(s, tenantId, serverLabel);
      case DoDiscover(server, found) =>
        if server < |s.servers| {
          UpsertAllKeepsInv(s, server, found);
          ServerChangeKeepsInv(UpsertAll(s, server, found), server, s.servers[server].(discovered := true));
        }
      case DoReviewServer(server, activate) =>
        if server < |s.servers| {
          ServerChangeKeepsInv(s, server, s.servers[server].(status := if activate then Active else Suspended));
        }
      case DoReviewVersion(version, review, tenantId) =>
        if ReviewVersion(s, version, review, tenantId).Ok? {
          ReviewedVersions(s, version, review);
          ReviewedTools(s, version, review);
          ReviewedServers(s, version, review);
        }
    }
  }

  lemma ReviewedServers(s: State, version: nat, review: Review)
    requires ServersOk(s) && version < |s.versions| && s.versions[version].tool < |s.tools|
    ensures ServersOk(Reviewed(s, version, review))
  {
  }

  lemma {:induction false} RunKeepsInv(s: State, ops: seq<Op>)
    requires Inv(s)
    ensures Inv(Run(s, ops))
    decreases |ops|
  {
    if ops != [] {
      StepKeepsInv(s, ops[0]);
      RunKeepsInv(Step(s, ops[0]), ops[1..]);
    }
  }

  // --------------------------------------------------------------- theorems

  /** A tool is ACTIVE exactly when it has an ACTIVE version, never two, and a version exactly when its policy is. */
  lemma ActiveRowsAgree(ops: seq<Op>, t: nat, v: nat)
    requires var s := Run(EMPTY, ops); t < |s.tools| && v < |s.versions|
    ensures var s := Run(EMPTY, ops);
      && (s.tools[t].status == ToolActive <==> HasActive(s.versions, t))
      && (forall i, j :: 0 <= i < j < |s.versions| ==> !BothActive(s.versions[i], s.versions[j]))
      && |s.policies| == |s.versions| && s.policies[v].version == v
      && (s.versions[v].status == VersionActive <==> s.policies[v].status == PolicyActive)
  {
    RunKeepsInv(EMPTY, ops);
    var s := Run(EMPTY, ops);
    assert VersionOk(s, v);
    if HasActive(s.versions, t) {
      var w :| 0 <= w < |s.versions| && s.versions[w].tool == t && s.versions[w].status == VersionActive;
      assert VersionOk(s, w);
    }
  }

  /** A canonical name can be read back: labels hold no dot, so the first dot ends the label. */
  lemma CanonicalIsInjective(serverLabel: string, name: string, serverLabel': string, name': string)
    requires ValidLabel(serverLabel) && ValidLabel(serverLabel')
    requires Canonical(serverLabel, name) == Canonical(serverLabel', name')
    ensures serverLabel == serverLabel' && name == name'
  {
    var c := Canonical(serverLabel, name);
    FirstDot(serverLabel, name);
    FirstDot(serverLabel', name');
    assert |serverLabel| == |serverLabel'|;
    assert serverLabel == c[..|serverLabel|] == serverLabel';
    assert name == c[|serverLabel| + 1..] == name';
  }

  lemma FirstDot(serverLabel: string, name: string)
    requires ValidLabel(serverLabel)
    ensures var c := Canonical(serverLabel, name);
      |serverLabel| < |c| && c[|serverLabel|] == '.' && forall i :: 0 <= i < |serverLabel| ==> c[i] != '.'
  {
    var c := Canonical(serverLabel, name);
    forall i | 0 <= i < |serverLabel| ensures c[i] != '.' {
      assert c[i] == serverLabel[i];
    }
  }

  /** Under one name a tenant has at most one candidate of its own, and one global one. */
  lemma CandidatesAreUnique(ops: seq<Op>, tenantId: nat, name: string, p: nat, q: nat)
    requires var s := Run(EMPTY, ops);
      && Candidate(s, tenantId, name, p) && Candidate(s, tenantId, name, q)
      && s.policies[p].tenantId == s.policies[q].tenantId
    ensures p == q
  {
    RunKeepsInv(EMPTY, ops);
    var s := Run(EMPTY, ops);
    assert VersionOk(s, p) && VersionOk(s, q);
    var t, u := s.versions[p].tool, s.versions[q].tool;
    assert ToolOk(s, t) && ToolOk(s, u);
    var a, b := s.tools[t].server, s.tools[u].server;
    CanonicalIsInjective(s.servers[a].serverLabel, s.tools[t].originalName, s.servers[b].serverLabel,
                         s.tools[u].originalName);
    assert SameServer(s.servers[a], s.servers[b]) && SameServer(s.servers[b], s.servers[a]);
    assert SameTool(s.tools[t], s.tools[u]) && SameTool(s.tools[u], s.tools[t]);
    assert BothActive(s.versions[p], s.versions[q]) && BothActive(s.versions[q], s.versions[p]);
  }

  /** So the answer of a resolution is determined by the rows alone, whatever order the database returns. */
  lemma ResolutionIsAFunction(ops: seq<Op>, tenantId: nat, name: string, r: Option<nat>, r': Option<nat>)
    requires Resolves(Run(EMPTY, ops), tenantId, name, r) && Resolves(Run(EMPTY, ops), tenantId, name, r')
    ensures r == r'
  {
    if r.Some? && r'.Some? {
      CandidatesAreUnique(ops, tenantId, name, r.value, r'.value);
    }
  }

  // ------------------------------------------------------------ rediscovery

  /** Discovery of this item would find its tool and its version already there. */
  predicate Known(s: State, server: nat, d: Discovered) {
    var t := Find(s.tools, ByName(server, d.name));
    t < |s.tools| && Find(s.versions, BySchema(t, d.schema)) < |s.versions|
  }

  /** Rows are added behind the old ones, and old ones keep what discovery looks at. */
  ghost predicate Grows(s: State, s': State) {
    && |s.servers| <= |s'.servers| && |s.tools| <= |s'.tools| && |s.versions| <= |s'.versions|
    && (forall t :: 0 <= t < |s.tools| ==> SameTool(s.tools[t], s'.tools[t]))
    && (forall v :: 0 <= v < |s.versions| ==> SameSchema(s.versions[v], s'.versions[v]))
  }

  lemma FindGrows<T>(rows: seq<T>, rows': seq<T>, query: T -> bool)
    requires |rows| <= |rows'| && forall i :: 0 <= i < |rows| ==> query(rows[i]) == query(rows'[i])
    requires Find(rows, query) < |rows|
    ensures Find(rows', query) == Find(rows, query)
  {
    var i := Find(rows, query);
    assert query(rows'[i]) && forall k :: 0 <= k < i ==> !query(rows'[k]);
  }

  lemma KnownStays(s: State, s': State, server: nat, d: Discovered)
    requires Grows(s, s') && Known(s, server, d)
    ensures Known(s', server, d)
  {
    FindGrows(s.tools, s'.tools, ByName(server, d.name));
    FindGrows(s.versions, s'.versions, BySchema(Find(s.tools, ByName(server, d.name)), d.schema));
  }

  lemma UpsertKnows(s: State, server: nat, d: Discovered)
    requires server < |s.servers|
    ensures var s' := Upsert(s, server, d); Known(s', server, d) && Grows(s, s') && (Known(s, server, d) ==> s' == s)
  {
    ToolIsThere(s, server, d.name);
    var s1 := WithTool(s, server, d.name);
    var t := Find(s1.tools, ByName(server, d.name));
    var s' := WithVersion(s1, server, t, d.schema);
    if s' != s1 { assert BySchema(t, d.schema)(s'.versions[|s1.versions|]); }
  }

  lemma {:induction false} UpsertAllKnows(s: State, server: nat, found: seq<Discovered>)
    requires server < |s.servers|
    ensures var s' := UpsertAll(s, server, found);
      && Grows(s, s')
      && (forall d :: d in found ==> Known(s', server, d))
      && ((forall d :: d in found ==> Known(s, server, d)) ==> s' == s)
  {
    hide Known, Upsert;
    if found != [] {
      var n := |found| - 1;
      var before := UpsertAll(s, server, found[..n]);
      UpsertAllKnows(s, server, found[..n]);
      UpsertKnows(before, server, found[n]);
      var s' := Upsert(before, server, found[n]);
      forall d | d in found ensures Known(s', server, d) {
        if d in found[..n] { KnownStays(before, s', server, d); }
      }
    }
  }

  lemma StepGrows(s: State, op: Op)
    ensures Grows(s, Step(s, op))
  {
    hide Known, UpsertAll, Find;
    match op {
      case DoDiscover(server, found) => if server < |s.servers| { UpsertAllKnows(s, server, found); }
      case DoReviewVersion(version, review, tenantId) =>
        if ReviewVersion(s, version, review, tenantId).Ok? { ReviewGrows(s, version, review); }
      case _ =>
    }
  }

  lemma ReviewGrows(s: State, version: nat, review: Review)
    requires version < |s.versions| && s.versions[version].tool < |s.tools|
    ensures Grows(s, Reviewed(s, version, review))
  {
  }

  lemma {:induction false} RunKnows(s: State, ops: seq<Op>, server: nat, found: seq<Discovered>)
    requires server < |s.servers| && forall d :: d in found ==> Known(s, server, d)
    ensures var s' := Run(s, ops); server < |s'.servers| && forall d :: d in found ==> Known(s', server, d)
    decreases |ops|
  {
    hide Known, Step;
    if ops != [] {
      StepGrows(s, ops[0]);
      forall d | d in found ensures Known(Step(s, ops[0]), server, d) { KnownStays(s, Step(s, ops[0]), server, d); }
      RunKnows(Step(s, ops[0]), ops[1..], server, found);
    }
  }

  /** Discovering the same catalogue again, whatever came between, adds no tool, version or policy. */
  lemma RediscoveryAddsNothing(s: State, server: nat, found: seq<Discovered>, between: seq<Op>)
    requires server < |s.servers|
    ensures var s1 := Run(Step(s, DoDiscover(server, found)), between);
      var s2 := Step(s1, DoDiscover(server, found));
      s2.tools == s1.tools && s2.versions == s1.versions && s2.policies == s1.policies
  {
    UpsertAllKnows(s, server, found);
    var s0 := Step(s, DoDiscover(server, found));
    forall d | d in found ensures Known(s0, server, d) {
      KnownStays(UpsertAll(s, server, found), s0, server, d);
    }
    RunKnows(s0, between, server, found);
    var s1 := Run(s0, between);
    UpsertAllKnows(s1, server, found);
  }
}
