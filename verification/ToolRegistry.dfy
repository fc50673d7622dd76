/** The registry service over the catalogue's tables. */
module ToolRegistry {
  import opened Contracts
  import opened Catalogue
  import CatalogueSafety

  class Registry {
    var servers: seq<Server>
    var tools: seq<Tool>
    var versions: seq<Version>
    var policies: seq<Policy>

    constructor ()
      ensures Model() == EMPTY
    {
      servers, tools, versions, policies := [], [], [], [];
    }

    function Model(): State
      reads this
    {
      State(servers, tools, versions, policies)
    }

    /** The tables are what request function `specified` makes of the tables before. */
    ghost predicate Answers(r: Result<(), Error>, before: State, specified: Result<State, Error>)
      reads this
    {
      specified == (if r.Ok? then Ok(Model()) else Err(r.error)) && (r.Err? ==> Model() == before)
    }

    method RegisterServer(tenantId: Option<nat>, serverLabel: string) returns (r: Result<(), Error>)
      modifies this`servers
      ensures Answers(r, old(Model()), Register(old(Model()), tenantId, serverLabel))
    {
      if !ValidLabel(serverLabel) { return Err(LabelInvalid); }
      var existing := Find(servers, ByLabel(tenantId, serverLabel));
      if existing < |servers| { return Err(LabelTaken); }
      servers := servers + [Server(tenantId, serverLabel, PendingReview, false)];
      return Ok(());
    }

    method UpsertDiscoveredTool(server: nat, d: Discovered)
      requires server < |servers|
      modifies this`tools, this`versions, this`policies
      ensures Model() == Upsert(old(Model()), server, d)
    {
      var tool := Find(tools, ByName(server, d.name));
      if tool == |tools| {
        tools := tools + [Tool(server, Canonical(servers[server].serverLabel, d.name), d.name, ToolPending)];
        LastFound(old(tools), tools[tool], ByName(server, d.name));
      }
      var version := Find(versions, BySchema(tool, d.schema));
      if version == |versions| {
        versions := versions + [Version(tool, d.schema, VersionPending, Read, false, true)];
        policies := policies + [Policy(version, servers[server].tenantId, Draft, ByPolicy, OPEN_ACCESS)];
      }
    }

    method DiscoverTools(server: nat, found: seq<Discovered>) returns (r: Result<(), Error>)
      modifies this
      ensures Answers(r, old(Model()), Discover(old(Model()), server, found))
    {
      if server >= |servers| { return Err(NotFound); }
      for k := 0 to |found|
        invariant servers == old(servers)
        invariant Model() == UpsertAll(old(Model()), server, found[..k])
      {
        UpsertDiscoveredTool(server, found[k]);
        assert found[..k + 1][..k] == found[..k];
      }
      assert found[..|found|] == found;
      servers := servers[server := servers[server].(discovered := true)];
      return Ok(());
    }

    method Review(server: nat, activate: bool) returns (r: Result<(), Error>)
      modifies this`servers
      ensures Answers(r, old(Model()), ReviewServer(old(Model()), server, activate))
    {
      if server >= |servers| { return Err(NotFound); }
      if activate && !servers[server].discovered { return Err(NotDiscovered); }
      servers := servers[server := servers[server].(status := if activate then Active else Suspended)];
      return Ok(());
    }

    method ReviewToolVersion(version: nat, review: Catalogue.Review, tenantId: Option<nat>) returns (r: Result<(),
        Error>)
      modifies this`tools, this`versions, this`policies
      ensures Answers(r, old(Model()), ReviewVersion(old(Model()), version, review, tenantId))
    {
      if version >= |versions| || versions[version].tool >= |tools| { return Err(NotFound); }
      var tool := versions[version].tool;
      var server := tools[tool].server;
      if server >= |servers| || servers[server].tenantId != tenantId { return Err(NotFound); }
      if servers[server].status != Active { return Err(ServerNotActive); }
      if tools[tool].canonicalName != review.canonicalName { return Err(NameMismatch); }
      SupersedeSiblings(version, tool);
      DisableSiblings(version, tool);
      var row := versions[version];
      row := row.(riskClass := review.riskClass);
      row := row.(sideEffects := review.sideEffects);
      row := row.(idempotent := review.idempotent);
      versions := versions[version := row.(status := VersionActive)];
      tools := tools[tool := tools[tool].(status := ToolActive)];
      ActivatePolicies(version, review);
      assert Model() == Reviewed(old(Model()), version, review);
      return Ok(());
    }

    /** Any request is one step of the catalogue's runs, and keeps what every run keeps. */
    method Handle(op: Op) returns (r: Result<(), Error>)
      requires CatalogueSafety.Inv(Model())
      modifies this
      ensures Answers(r, old(Model()), Request(old(Model()), op))
      ensures Model() == Step(old(Model()), op) && CatalogueSafety.Inv(Model())
    {
      hide CatalogueSafety.Inv, Register, Discover, ReviewServer, ReviewVersion;
      CatalogueSafety.StepKeepsInv(Model(), op);
      match op {
        case DoRegister(tenantId, serverLabel) => r := RegisterServer(tenantId, serverLabel);
        case DoDiscover(server, found) => r := DiscoverTools(server, found);
        case DoReviewServer(server, activate) => r := Review(server, activate);
        case DoReviewVersion(version, review, tenantId) => r := ReviewToolVersion(version, review, tenantId);
      }
    }

    method SupersedeSiblings(version: nat, tool: nat)
      modifies this`versions
      ensures |versions| == |old(versions)|
      ensures forall i :: 0 <= i < |versions| ==>
        versions[i] == if i != version && old(versions)[i].tool == tool then old(versions)[i].(status := Superseded)
                       else old(versions)[i]
    {
      for i := 0 to |versions|
        invariant |versions| == |old(versions)|
        invariant forall k :: i <= k < |versions| ==> versions[k] == old(versions)[k]
        invariant forall k :: 0 <= k < i ==>
          versions[k] == if k != version && old(versions)[k].tool == tool then old(versions)[k].(status := Superseded)
                         else old(versions)[k]
      {
        if i != version && versions[i].tool == tool {
          versions := versions[i := versions[i].(status := Superseded)];
        }
      }
    }

    method DisableSiblings(version: nat, tool: nat)
      modifies this`policies
      ensures |policies| == |old(policies)|
      ensures forall i :: 0 <= i < |policies| ==>
        policies[i] ==
          if Sibling(old(policies)[i], version, tool) then old(policies)[i].(status := Disabled)
          else old(policies)[i]
    {
      for i := 0 to |policies|
        invariant |policies| == |old(policies)|
        invariant forall k :: i <= k < |policies| ==> policies[k] == old(policies)[k]
        invariant forall k :: 0 <= k < i ==>
          policies[k] ==
            if Sibling(old(policies)[k], version, tool) then old(policies)[k].(status := Disabled)
            else old(policies)[k]
      {
        if Sibling(policies[i], version, tool) {
          policies := policies[i := policies[i].(status := Disabled)];
        }
      }
    }

    /** The policy belongs to another version of the tool. */
    predicate Sibling(row: Policy, version: nat, tool: nat)
      reads this`versions
    {
      row.version != version && row.version < |versions| && versions[row.version].tool == tool
    }

    static function Activated(row: Policy, review: Catalogue.Review): Policy {
      row.(status := PolicyActive, approvalMode := review.approvalMode, access := review.access)
    }

    method ActivatePolicies(version: nat, review: Catalogue.Review)
      modifies this`policies
      ensures |policies| == |old(policies)|
      ensures forall i :: 0 <= i < |policies| ==>
        policies[i] == if old(policies)[i].version == version
                       then Activated(old(policies)[i], review)
                       else old(policies)[i]
    {
      for i := 0 to |policies|
        invariant |policies| == |old(policies)|
        invariant forall k :: i <= k < |policies| ==> policies[k] == old(policies)[k]
        invariant forall k :: 0 <= k < i ==>
          policies[k] == if old(policies)[k].version == version
                         then Activated(old(policies)[k], review)
                         else old(policies)[k]
      {
        if policies[i].version == version {
          var row := policies[i].(approvalMode := review.approvalMode);
          row := row.(access := review.access);
          policies := policies[i := row.(status := PolicyActive)];
        }
      }
    }
  }

  lemma LastFound<T>(rows: seq<T>, row: T, query: T -> bool)
    requires Find(rows, query) == |rows| && query(row)
    ensures Find(rows + [row], query) == |rows|
  {
    var i := Find(rows + [row], query);
    assert query((rows + [row])[|rows|]);
    assert forall k :: 0 <= k < |rows| ==> (rows + [row])[k] == rows[k];
  }
}
