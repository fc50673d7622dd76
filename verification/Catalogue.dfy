/** The tool catalogue: servers, discovered tools, their versions and policies, and name resolution. */
module Catalogue {
  import opened Contracts

  datatype ServerStatus = PendingReview | Active | Suspended

  datatype Server = Server(tenantId: Option<nat>, serverLabel: string, status: ServerStatus, discovered: bool)

  datatype ToolStatus = ToolPending | ToolActive

  datatype Tool = Tool(server: nat, canonicalName: string, originalName: string, status: ToolStatus)

  datatype VersionStatus = VersionPending | VersionActive | Superseded

  /** A schema hash, taken as injective, is the schema document. */
  datatype Version = Version(
    tool: nat, schema: string, status: VersionStatus, riskClass: RiskClass, sideEffects: bool, idempotent: bool)

  datatype PolicyStatus = Draft | PolicyActive | Disabled

  /** Who may use a tool, for what, and how much it may answer. */
  datatype Access = Access(
    requiredRoles: set<string>, requiredPurposes: set<string>, requiredConsents: set<string>,
    allowedAgents: set<string>, maximumResultBytes: nat)

  datatype Policy = Policy(
    version: nat, tenantId: Option<nat>, status: PolicyStatus, approvalMode: ApprovalMode, access: Access)

  /** Row ids are positions. */
  datatype State = State(servers: seq<Server>, tools: seq<Tool>, versions: seq<Version>, policies: seq<Policy>)

  datatype Discovered = Discovered(name: string, schema: string)

  datatype Review = Review(
    canonicalName: string, riskClass: RiskClass, sideEffects: bool, idempotent: bool, approvalMode: ApprovalMode,
    access: Access)

  datatype Error = LabelInvalid | LabelTaken | NotDiscovered | NotFound | ServerNotActive | NameMismatch

  // The policy of a version that was only discovered, in bytes.
  const DEFAULT_RESULT_BYTES: nat := 262_144
  const OPEN_ACCESS: Access := Access({}, {}, {}, {}, DEFAULT_RESULT_BYTES)

  // ------------------------------------------------------------------ labels

  predicate LabelStart(c: char) { 'a' <= c <= 'z' }

  predicate LabelRest(c: char) { 'a' <= c <= 'z' || '0' <= c <= '9' || c == '_' || c == '-' }

  predicate ValidLabel(serverLabel: string) {
    3 <= |serverLabel| <= 100 && LabelStart(serverLabel[0]) && forall i :: 1 <= i < |serverLabel| ==>
        LabelRest(serverLabel[i])
  }

  function Canonical(serverLabel: string, name: string): string {
    serverLabel + "." + name
  }

  // ----------------------------------------------------------------- queries

  /** The first row that satisfies a query, `|rows|` if none. */
  function Find<T>(rows: seq<T>, query: T -> bool): (i: nat)
    ensures i <= |rows|
    ensures i < |rows| ==> query(rows[i])
    ensures forall k :: 0 <= k < i ==> !query(rows[k])
  {
    if rows == [] then 0 else if query(rows[0]) then 0 else 1 + Find(rows[1..], query)
  }

  function ByLabel(tenantId: Option<nat>, serverLabel: string): Server -> bool {
    (s: Server) => s.tenantId == tenantId && s.serverLabel == serverLabel
  }

  function ByName(server: nat, name: string): Tool -> bool {
    (t: Tool) => t.server == server && t.originalName == name
  }

  function BySchema(tool: nat, schema: string): Version -> bool {
    (v: Version) => v.tool == tool && v.schema == schema
  }

  // --------------------------------------------------- requests as functions

  function Register(s: State, tenantId: Option<nat>, serverLabel: string): Result<State, Error> {
    if !ValidLabel(serverLabel) then Err(LabelInvalid)
    else if Find(s.servers, ByLabel(tenantId, serverLabel)) < |s.servers| then Err(LabelTaken)
    else Ok(s.(servers := s.servers + [Server(tenantId, serverLabel, PendingReview, false)]))
  }

  /** The tool of that name, added if the server has none yet. */
  function WithTool(s: State, server: nat, name: string): State
    requires server < |s.servers|
  {
    if Find(s.tools, ByName(server, name)) < |s.tools| then s
    else s.(tools := s.tools + [Tool(server, Canonical(s.servers[server].serverLabel, name), name, ToolPending)])
  }

  function WithVersion(s: State, server: nat, tool: nat, schema: string): State
    requires server < |s.servers|
  {
    if Find(s.versions, BySchema(tool, schema)) < |s.versions| then s
    else s.(versions := s.versions + [Version(tool, schema, VersionPending, Read, false, true)],
            policies := s.policies + [Policy(|s.versions|, s.servers[server].tenantId, Draft, ByPolicy, OPEN_ACCESS)])
  }

  function Upsert(s: State, server: nat, d: Discovered): (s': State)
    requires server < |s.servers|
    ensures s'.servers == s.servers
  {
    var s1 := WithTool(s, server, d.name);
    WithVersion(s1, server, Find(s1.tools, ByName(server, d.name)), d.schema)
  }

  function UpsertAll(s: State, server: nat, found: seq<Discovered>): (s': State)
    requires server < |s.servers|
    ensures s'.servers == s.servers
  {
    if found == [] then s else Upsert(UpsertAll(s, server, found[..|found| - 1]), server, found[|found| - 1])
  }

  function Discover(s: State, server: nat, found: seq<Discovered>): Result<State, Error> {
    if server >= |s.servers| then Err(NotFound)
    else
      var s' := UpsertAll(s, server, found);
      Ok(s'.(servers := s'.servers[server := s'.servers[server].(discovered := true)]))
  }

  function ReviewServer(s: State, server: nat, activate: bool): Result<State, Error> {
    if server >= |s.servers| then Err(NotFound)
    else if activate && !s.servers[server].discovered then Err(NotDiscovered)
    else Ok(s.(servers := s.servers[server := s.servers[server].(status := if activate then Active else Suspended)]))
  }

  function ReviewedVersion(row: Version, mine: bool, tool: nat, review: Review): Version {
    if mine then
      row.(status := VersionActive, riskClass := review.riskClass, sideEffects := review.sideEffects,
           idempotent := review.idempotent)
    else if row.tool == tool then row.(status := Superseded)
    else row
  }

  function ReviewedPolicy(row: Policy, versions: seq<Version>, version: nat, tool: nat, review: Review): Policy {
    if row.version == version then
      row.(status := PolicyActive, approvalMode := review.approvalMode, access := review.access)
    else if row.version < |versions| && versions[row.version].tool == tool then row.(status := Disabled)
    else row
  }

  function Reviewed(s: State, version: nat, review: Review): (s': State)
    requires version < |s.versions| && s.versions[version].tool < |s.tools|
    ensures |s'.versions| == |s.versions| && |s'.policies| == |s.policies|
  {
    var tool := s.versions[version].tool;
    s.(tools := s.tools[tool := s.tools[tool].(status := ToolActive)],
       versions := seq(|s.versions|, i requires 0 <= i < |s.versions| => ReviewedVersion(s.versions[i], i == version,
           tool, review)),
       policies := seq(|s.policies|, i requires 0 <= i < |s.policies| =>
                         ReviewedPolicy(s.policies[i], s.versions, version, tool, review)))
  }

  function ReviewVersion(s: State, version: nat, review: Review, tenantId: Option<nat>): Result<State, Error> {
    if || version >= |s.versions| || s.versions[version].tool >= |s.tools|
       || s.tools[s.versions[version].tool].server >= |s.servers|
       || s.servers[s.tools[s.versions[version].tool].server].tenantId != tenantId
    then Err(NotFound)
    else
      var tool := s.tools[s.versions[version].tool];
      if s.servers[tool.server].status != Active then Err(ServerNotActive)
      else if tool.canonicalName != review.canonicalName then Err(NameMismatch)
      else Ok(Reviewed(s, version, review))
  }

  // ------------------------------------------------------------- whole runs

  datatype Op =
    | DoRegister(tenantId: Option<nat>, serverLabel: string)
    | DoDiscover(server: nat, found: seq<Discovered>)
    | DoReviewServer(server: nat, activate: bool)
    | DoReviewVersion(version: nat, review: Review, tenantId: Option<nat>)

  function Request(s: State, op: Op): Result<State, Error> {
    match op
    case DoRegister(tenantId, serverLabel) => Register(s, tenantId, serverLabel)
    case DoDiscover(server, found) => Discover(s, server, found)
    case DoReviewServer(server, activate) => ReviewServer(s, server, activate)
    case DoReviewVersion(version, review, tenantId) => ReviewVersion(s, version, review, tenantId)
  }

  function Step(s: State, op: Op): State {
    var r := Request(s, op);
    if r.Ok? then r.value else s
  }

  function Run(s: State, ops: seq<Op>): State
    decreases |ops|
  {
    if ops == [] then s else Run(Step(s, ops[0]), ops[1..])
  }

  const EMPTY: State := State([], [], [], [])

  // --------------------------------------------------------------- resolution

  /** A fully active row of the four-way join that a tenant may use under this name. */
  predicate Candidate(s: State, tenantId: nat, name: string, p: nat) {
    && p < |s.policies| && s.policies[p].status == PolicyActive
    && (s.policies[p].tenantId == Some(tenantId) || s.policies[p].tenantId == None)
    && s.policies[p].version < |s.versions|
    && var v := s.versions[s.policies[p].version];
       && v.status == VersionActive && v.tool < |s.tools|
       && var t := s.tools[v.tool];
          && t.canonicalName == name && t.status == ToolActive && t.server < |s.servers|
          && var server := s.servers[t.server];
             server.status == Active && (server.tenantId == Some(tenantId) || server.tenantId == None)
  }

  /** A candidate of the tenant's own if there is one, else a global one, else nothing. */
  ghost predicate Resolves(s: State, tenantId: nat, name: string, r: Option<nat>) {
    match r
    case None => forall p: nat :: !Candidate(s, tenantId, name, p)
    case Some(best) =>
      && Candidate(s, tenantId, name, best)
      && (s.policies[best].tenantId == None ==>
            forall p: nat :: Candidate(s, tenantId, name, p) ==> s.policies[p].tenantId == None)
  }

  /** `_resolve`: a tenant's own policy sorts before a global one; the first row wins. */
  method Resolve(s: State, tenantId: nat, name: string) returns (r: Option<nat>)
    ensures Resolves(s, tenantId, name, r)
  {
    r := None;
    for p := 0 to |s.policies|
      invariant r.Some? ==> r.value < p && Candidate(s, tenantId, name, r.value)
      invariant r.None? ==> forall k: nat :: k < p ==> !Candidate(s, tenantId, name, k)
      invariant r.Some? && s.policies[r.value].tenantId == None ==>
        forall k: nat :: k < p && Candidate(s, tenantId, name, k) ==> s.policies[k].tenantId == None
    {
      if && Candidate(s, tenantId, name, p)
         && (r.None? || (s.policies[p].tenantId.Some? && s.policies[r.value].tenantId.None?))
      {
        r := Some(p);
      }
    }
  }
}
