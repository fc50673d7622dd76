/** Field by field: what each request writes into a record, and where the value of each field comes from. */
module RegistryFields {
  import opened Contracts
  import opened Registry
  import opened RegistrySafety

  // ----------------------------------------------------------- last writers

  /** The event is an approved change of business `id`. */
  predicate Updates(e: AuditEvent, changes: seq<Change>, id: nat) {
    e.aggregate == BusinessRow(id) && e.kind.Updated? && e.kind.change < |changes|
  }

  /** The value the newest approved change that proposed the field gave it, else its first value. */
  function LastText(
    audit: seq<AuditEvent>, changes: seq<Change>, id: nat, f: Field, first: Option<string>): Option<string>
  {
    if audit == [] then first
    else
      var e := audit[|audit| - 1];
      if Updates(e, changes, id) && Proposed(changes[e.kind.change].patch, f).Some?
      then Proposed(changes[e.kind.change].patch, f)
      else LastText(audit[..|audit| - 1], changes, id, f, first)
  }

  function LastAddress(audit: seq<AuditEvent>, changes: seq<Change>, id: nat, first: Address): Address {
    if audit == [] then first
    else
      var e := audit[|audit| - 1];
      if Updates(e, changes, id) && changes[e.kind.change].patch.address.Some?
      then changes[e.kind.change].patch.address.value
      else LastAddress(audit[..|audit| - 1], changes, id, first)
  }

  /** The status the newest move led to, else that of a new record. */
  function LastStatus(audit: seq<AuditEvent>, id: nat): Status {
    if audit == [] then PendingReview
    else
      var e := audit[|audit| - 1];
      if e.aggregate == BusinessRow(id) && e.kind.Moved? then e.kind.next
      else LastStatus(audit[..|audit| - 1], id)
  }

  /** The record was once moved to this status. */
  predicate WasMoved(audit: seq<AuditEvent>, id: nat, status: Status) {
    exists e :: e in audit && e.aggregate == BusinessRow(id) && e.kind.Moved? && e.kind.next == status
  }

  /** What only creation writes. */
  predicate SameOrigin(a: Record, b: Record) {
    && a.id == b.id && a.tenantId == b.tenantId && a.businessId == b.businessId
    && a.registryNumber == b.registryNumber && a.businessType == b.businessType && a.incorporatedOn == b.incorporatedOn
  }

  lemma {:induction false} ReplayedFields(first: Record, changes: seq<Change>, audit: seq<AuditEvent>, id: nat)
    ensures var r := Replayed(first, changes, audit, id);
      && SameOrigin(first, r)
      && (forall f :: Get(r, f) == LastText(audit, changes, id, f, Get(first, f)))
      && r.address == LastAddress(audit, changes, id, first.address)
      && (first.status == PendingReview ==> r.status == LastStatus(audit, id))
  {
    if audit != [] {
      ReplayedFields(first, changes, audit[..|audit| - 1], id);
    }
  }

  lemma {:induction false} ReplayedFlags(first: Record, changes: seq<Change>, audit: seq<AuditEvent>, id: nat)
    requires first.riskFlags == {"PENDING_IDENTITY_REVIEW"}
    ensures var flags := Replayed(first, changes, audit, id).riskFlags;
      && ("REGISTRY_SUSPENDED" in flags <==> WasMoved(audit, id, Suspended))
      && ("REGISTRY_DISSOLVED" in flags <==> WasMoved(audit, id, Dissolved))
      && ("REGISTRY_REJECTED" in flags <==> WasMoved(audit, id, Rejected))
      && flags <= {"PENDING_IDENTITY_REVIEW", "REGISTRY_SUSPENDED", "REGISTRY_DISSOLVED", "REGISTRY_REJECTED"}
  {
    if audit != [] {
      var n := |audit| - 1;
      ReplayedFlags(first, changes, audit[..n], id);
      forall status ensures WasMoved(audit, id, status) <==>
        WasMoved(audit[..n], id, status) || (audit[n].aggregate == BusinessRow(id) && audit[n].kind.Moved?
                                             && audit[n].kind.next == status)
      {
        assert audit == audit[..n] + [audit[n]];
        if audit[n].aggregate == BusinessRow(id) && audit[n].kind.Moved? { assert audit[n] in audit; }
      }
    }
  }

  // ------------------------------------------------------------- state codes

  predicate Located(r: Record) {
    STATE_CODE in r.address && r.stateCode == r.address[STATE_CODE]
  }

  ghost predicate LocatedOk(s: State) {
    forall i :: 0 <= i < |s.businesses| ==> Located(s.businesses[i].record)
  }

  lemma StepKeepsLocated(s: State, op: Op)
    requires Inv(s) && LocatedOk(s)
    ensures LocatedOk(Step(s, op))
  {
    hide HistoriesOk, RowsOk, UniqueOk, EventsOk, BusinessesOk;
    if op.DoDecide? && op.changeId < |s.changes| {
      assert ChangeOk(s, s.changes[op.changeId], s.proposedOn[op.changeId]);
    }
  }

  lemma {:induction false} RunKeepsLocated(s: State, ops: seq<Op>)
    requires Inv(s) && LocatedOk(s)
    ensures Inv(Run(s, ops)) && LocatedOk(Run(s, ops))
    decreases |ops|
  {
    hide Inv, LocatedOk, Step;
    if ops != [] {
      StepKeepsInv(s, ops[0]);
      StepKeepsLocated(s, ops[0]);
      RunKeepsLocated(Step(s, ops[0]), ops[1..]);
    }
  }

  // -------------------------------------------------------------- whole runs

  function Requested(q: Create, f: Field): Option<string> {
    match f
    case LegalName => Some(q.legalName)
    case TradeName => q.tradeName
    case IndustryCode => q.industryCode
    case Msme => q.msme
    case Gstin => q.gstin
  }

  /** The address a request begins with, its country filled in. */
  predicate FirstPlace(a: Address, q: Create) {
    a == map["line1" := q.line1, "city" := q.city, "state_code" := q.stateCode, "postal_code" := q.postalCode,
             "country" := "IN"]
  }

  /**
   After any run, every field of a record is what the newest approved change that proposed it says, or what its
   creation said; the state code is that of the address; and the status is the one the newest move led to.
   */
  lemma FieldsAreTheLastApproved(ops: seq<Op>, id: nat)
    requires id < |Run(EMPTY, ops).businesses|
    ensures var s := Run(EMPTY, ops);
      && |s.created| == |s.businesses|
      && var r, q := s.businesses[id].record, s.created[id];
         && r.id == id && r.businessId == q.businessId && r.registryNumber == q.registryNumber
         && r.businessType == q.businessType && r.incorporatedOn == q.incorporatedOn
         && (forall f :: Get(r, f) == LastText(s.audit, s.changes, id, f, Requested(q, f)))
         && (exists first :: FirstPlace(first, q) && r.address == LastAddress(s.audit, s.changes, id, first))
         && STATE_CODE in r.address && r.stateCode == r.address["state_code"]
         && r.status == LastStatus(s.audit, id)
  {
    hide Run;
    RunKeepsLocated(EMPTY, ops);
    var s := Run(EMPTY, ops);
    var q := s.created[id];
    assert HistoryOk(s, id) && Located(s.businesses[id].record);
    var first := FirstRecord(id, s.businesses[id].record.tenantId, q);
    ReplayedFields(first, s.changes, s.audit, id);
    assert FirstPlace(first.address, q);
    forall f ensures Get(first, f) == Requested(q, f) {}
  }

  /** The risk flags are those of the review and of every status the record was ever moved to; none is ever lifted. */
  lemma FlagsTellTheMoves(ops: seq<Op>, id: nat)
    requires id < |Run(EMPTY, ops).businesses|
    ensures var s := Run(EMPTY, ops);
      var flags := s.businesses[id].record.riskFlags;
      && ("PENDING_IDENTITY_REVIEW" in flags <==> s.businesses[id].record.status == PendingReview)
      && ("REGISTRY_SUSPENDED" in flags <==> WasMoved(s.audit, id, Suspended))
      && ("REGISTRY_DISSOLVED" in flags <==> WasMoved(s.audit, id, Dissolved))
      && ("REGISTRY_REJECTED" in flags <==> WasMoved(s.audit, id, Rejected))
      && flags <= {"PENDING_IDENTITY_REVIEW", "REGISTRY_SUSPENDED", "REGISTRY_DISSOLVED", "REGISTRY_REJECTED"}
  {
    hide Run;
    RunKeepsInv(EMPTY, ops);
    var s := Run(EMPTY, ops);
    assert HistoryOk(s, id) && BusinessOk(s.businesses[id], id, s.created[id]);
    ReplayedFlags(FirstRecord(id, s.businesses[id].record.tenantId, s.created[id]), s.changes, s.audit, id);
  }

  // ---------------------------------------------------- request by request

  /** Another business of the tenant carries one of the identifiers a request brings. */
  predicate Clashes(s: State, tenantId: nat, q: Create) {
    exists i :: 0 <= i < |s.businesses| && s.businesses[i].record.tenantId == tenantId
      && (|| s.businesses[i].record.registryNumber == q.registryNumber
          || s.businesses[i].record.businessId == q.businessId
          || (q.gstin.Some? && s.businesses[i].record.gstin == q.gstin))
  }

  /** A record is added exactly for an operator's request that clashes with none; it says what was requested. */
  lemma CreatesExactly(s: State, tenantId: nat, roles: set<string>, q: Create, today: int)
    ensures var s' := Step(s, DoCreate(tenantId, roles, q, today));
      && (s' != s <==> "REGISTRY_OPERATOR" in roles && q.incorporatedOn <= today && !Clashes(s, tenantId, q))
      && (s' != s ==>
            && s'.changes == s.changes && |s'.businesses| == |s.businesses| + 1
            && s'.businesses[..|s.businesses|] == s.businesses
            && var r := s'.businesses[|s.businesses|].record;
               && r.tenantId == tenantId && r.businessId == q.businessId && r.registryNumber == q.registryNumber
               && r.businessType == q.businessType && r.incorporatedOn == q.incorporatedOn
               && (forall f :: Get(r, f) == Requested(q, f)) && FirstPlace(r.address, q) && r.stateCode == q.stateCode
               && r.status == PendingReview && r.version == 1 && r.riskFlags == {"PENDING_IDENTITY_REVIEW"})
  {
    if NameTaken(s, tenantId, q) {
      var i :| 0 <= i < |s.businesses| && SameNumber(s.businesses[i].record, tenantId, q);
      assert Clashes(s, tenantId, q);
    }
    if Clashes(s, tenantId, q) {
      var i :| 0 <= i < |s.businesses| && s.businesses[i].record.tenantId == tenantId
        && (|| s.businesses[i].record.registryNumber == q.registryNumber
            || s.businesses[i].record.businessId == q.businessId
            || (q.gstin.Some? && s.businesses[i].record.gstin == q.gstin));
      assert SameNumber(s.businesses[i].record, tenantId, q) || GstinTaken(s, tenantId, q.gstin, |s.businesses|);
    }
  }

  /** The moves a reviewer may make. */
  predicate MayMove(from: Status, to: Status) {
    || (from == PendingReview && (to == Active || to == Rejected))
    || (from == Active && (to == Suspended || to == Dissolved))
    || (from == Suspended && (to == Active || to == Dissolved))
  }

  /** The five copied fields, the address with its state code, and what creation wrote are as they were. */
  predicate SameDetails(a: Record, b: Record) {
    SameOrigin(a, b) && (forall f :: Get(a, f) == Get(b, f)) && a.address == b.address && a.stateCode == b.stateCode
  }

  /** A status moves exactly by a reviewer, from the expected version, along the table; no detail changes. */
  lemma MovesExactly(s: State, tenantId: nat, roles: set<string>, id: nat, target: Status, expectedVersion: int)
    ensures var s' := Step(s, DoTransition(tenantId, roles, id, target, expectedVersion));
      && (s' != s <==>
            && "REGISTRY_REVIEWER" in roles && id < |s.businesses| && s.businesses[id].record.tenantId == tenantId
            && s.businesses[id].record.version == expectedVersion && MayMove(s.businesses[id].record.status, target))
      && (s' != s ==>
            && s' == s.(businesses := s'.businesses, audit := s'.audit) && |s'.businesses| == |s.businesses|
            && (forall i :: 0 <= i < |s.businesses| && i != id ==> s'.businesses[i] == s.businesses[i])
            && var r, r' := s.businesses[id].record, s'.businesses[id].record;
               SameDetails(r, r') && r'.status == target && r'.version == r.version + 1)
  {
  }

  /** A change is proposed exactly by an operator against the current version of an active or suspended record. */
  lemma ProposesExactly(s: State, tenantId: nat, roles: set<string>, id: nat, target: int, patch: Patch)
    ensures var s' := Step(s, DoPropose(tenantId, roles, id, target, patch));
      && (s' != s <==>
            && "REGISTRY_OPERATOR" in roles && id < |s.businesses| && s.businesses[id].record.tenantId == tenantId
            && s.businesses[id].record.status in {Active, Suspended} && s.businesses[id].record.version == target
            && (patch.address.Some? || exists f :: Proposed(patch, f).Some?)
            && (patch.address.Some? ==>
                  {"line1", "city", "state_code", "postal_code", "country"} <= patch.address.value.Keys))
      && (s' != s ==>
            && s'.businesses == s.businesses && s'.names == s.names && s'.addresses == s.addresses
            && s'.changes == s.changes
                 + [Change(tenantId, id, s.businesses[id].record.version, patch, Submitted, None)])
  {
    if patch.address.Some? && ADDRESS_KEYS - patch.address.value.Keys == {} {
      NothingMissing(ADDRESS_KEYS, patch.address.value.Keys);
    }
    if !EmptyPatch(patch) && patch.address.None? {
      assert Proposed(patch, LegalName).Some? || Proposed(patch, TradeName).Some? || Proposed(patch, IndustryCode).Some?
          || Proposed(patch, Msme).Some? || Proposed(patch, Gstin).Some?;
    }
  }

  /** Every proposed field has its proposed value, every other one its old value, and nothing else moved. */
  predicate Takes(r: Record, p: Patch, r': Record) {
    && SameOrigin(r, r') && r'.status == r.status && r'.riskFlags == r.riskFlags && r'.version == r.version + 1
    && (forall f :: Get(r', f) == if Proposed(p, f).Some? then Proposed(p, f) else Get(r, f))
    && (p.address.None? ==> r'.address == r.address && r'.stateCode == r.stateCode)
    && (p.address.Some? ==>
          && r'.address == p.address.value && "state_code" in r'.address && r'.stateCode == r'.address["state_code"])
  }

  /** The GSTIN a change proposes is carried by another business of the tenant. */
  predicate GstinElsewhere(s: State, c: Change) {
    && c.patch.gstin.Some?
    && (exists i :: 0 <= i < |s.businesses| && i != c.business
                    && s.businesses[i].record.tenantId == c.tenantId && s.businesses[i].record.gstin == c.patch.gstin)
  }

  /** An approval succeeds exactly for a submitted change at its version; the record then takes what was proposed. */
  lemma ApprovesExactly(s: State, tenantId: nat, roles: set<string>, changeId: nat)
    requires Inv(s)
    ensures var s' := Step(s, DoDecide(tenantId, roles, changeId, true));
      && (s' != s <==>
            && "REGISTRY_REVIEWER" in roles && changeId < |s.changes| && s.changes[changeId].tenantId == tenantId
            && s.changes[changeId].status == Submitted && s.changes[changeId].business < |s.businesses|
            && s.businesses[s.changes[changeId].business].record.version == s.changes[changeId].target
            && !GstinElsewhere(s, s.changes[changeId]))
      && (s' != s ==>
            var c := s.changes[changeId];
            && |s'.businesses| == |s.businesses| && |s'.changes| == |s.changes|
            && Takes(s.businesses[c.business].record, c.patch, s'.businesses[c.business].record)
            && (forall i :: 0 <= i < |s.businesses| && i != c.business ==> s'.businesses[i] == s.businesses[i])
            && s'.changes[changeId] == c.(status := ChangeApproved, applied := Some(c.target + 1))
            && (forall i :: 0 <= i < |s.changes| && i != changeId ==> s'.changes[i] == s.changes[i]))
  {
    hide HistoriesOk, RowsOk, UniqueOk, EventsOk, BusinessesOk;
    if changeId < |s.changes| { assert ChangeOk(s, s.changes[changeId], s.proposedOn[changeId]); }
  }

  /** A rejection takes a reviewer and a submitted change; no record is touched. */
  lemma RejectsExactly(s: State, tenantId: nat, roles: set<string>, changeId: nat)
    requires Inv(s)
    ensures var s' := Step(s, DoDecide(tenantId, roles, changeId, false));
      && (s' != s <==>
            && "REGISTRY_REVIEWER" in roles && changeId < |s.changes| && s.changes[changeId].tenantId == tenantId
            && s.changes[changeId].status == Submitted)
      && s'.businesses == s.businesses && s'.names == s.names && s'.addresses == s.addresses
      && (s' != s ==> s'.changes == s.changes[changeId := s.changes[changeId].(status := ChangeRejected)])
  {
    hide HistoriesOk, RowsOk, UniqueOk, EventsOk, BusinessesOk;
    if changeId < |s.changes| { assert ChangeOk(s, s.changes[changeId], s.proposedOn[changeId]); }
  }
}
