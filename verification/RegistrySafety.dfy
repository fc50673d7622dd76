/** The version guard, replay of a record from its history, and the side tables, over whole runs. */
module RegistrySafety {
  import opened Contracts
  import opened Registry

  // ------------------------------------------------------- what history says

  /** What one audit event did to business `id`. */
  function Effect(r: Record, changes: seq<Change>, e: AuditEvent, id: nat): Record {
    if e.aggregate != BusinessRow(id) then r
    else
      match e.kind
      case Moved(_, next) => MovedTo(r, next)
      case Updated(c) => if c < |changes| then Patched(r, changes[c].patch) else r
      case _ => r
  }

  /** A record rebuilt from its creation values by its audit events and the patches they name. */
  function Replayed(first: Record, changes: seq<Change>, audit: seq<AuditEvent>, id: nat): Record {
    if audit == [] then first
    else
      var n := |audit| - 1;
      Effect(Replayed(first, changes, audit[..n], id), changes, audit[n], id)
  }

  predicate Versioned(e: AuditEvent, id: nat) {
    e.aggregate == BusinessRow(id) && !e.kind.ChangeDeclined?
  }

  /** The versions of a business's events, rejections of changes left out, in order. */
  function Versions(audit: seq<AuditEvent>, id: nat): seq<nat> {
    if audit == [] then []
    else
      var n := |audit| - 1;
      Versions(audit[..n], id) + (if Versioned(audit[n], id) then [audit[n].version] else [])
  }

  function UpTo(n: nat): seq<nat> {
    if n == 0 then [] else UpTo(n - 1) + [n]
  }

  /** Row `k` is the newest of its business. */
  predicate NewestName(names: seq<NameRow>, id: nat, k: nat) {
    && k < |names| && names[k].business == id
    && forall j :: 0 <= j < |names| && j != k && names[j].business == id ==>
        names[j].recordVersion < names[k].recordVersion
  }

  predicate NewestAddress(rows: seq<AddressRow>, id: nat, k: nat) {
    && k < |rows| && rows[k].business == id
    && forall j :: 0 <= j < |rows| && j != k && rows[j].business == id ==> rows[j].recordVersion < rows[k].recordVersion
  }

  // -------------------------------------------------------------- invariant

  /** Status and version as the flags tell them. */
  predicate StatusOk(r: Record) {
    && r.version >= 1
    && (r.status == PendingReview <==> r.version == 1)
    && (REVIEW_FLAG in r.riskFlags <==> r.status == PendingReview)
    && ("REGISTRY_DISSOLVED" in r.riskFlags <==> r.status == Dissolved)
    && ("REGISTRY_REJECTED" in r.riskFlags <==> r.status == Rejected)
    && (r.status == Suspended ==> "REGISTRY_SUSPENDED" in r.riskFlags)
  }

  predicate BusinessOk(b: Business, id: nat, q: Create) {
    && b.record.id == id
    && StatusOk(b.record)
    && b.sourceHash == (if b.record.version > 1 then IdentityHash(b.record) else RequestHash(q))
  }

  predicate ChangeOk(s: State, c: Change, on: Record) {
    && c.business < |s.businesses|
    && var r := s.businesses[c.business].record;
       && c.tenantId == r.tenantId
       && on.version == c.target <= r.version
       && (on.status == Active || on.status == Suspended)
       && (r.version == c.target ==> r == on)
       && (c.status == ChangeApproved <==> c.applied.Some?)
       && (c.applied.Some? ==> c.applied == Some(c.target + 1) && c.target < r.version)
       && (c.patch.address.Some? ==> ADDRESS_KEYS <= c.patch.address.value.Keys)
  }

  predicate Clash(c: Change, d: Change) {
    c.business == d.business && c.target == d.target && c.status == ChangeApproved && d.status == ChangeApproved
  }

  predicate SameIdentity(a: Record, b: Record) {
    && a.tenantId == b.tenantId
    && (a.registryNumber == b.registryNumber || a.businessId == b.businessId || (a.gstin.Some? && a.gstin == b.gstin))
  }

  ghost predicate BusinessesOk(s: State) {
    && |s.created| == |s.businesses|
    && forall i :: 0 <= i < |s.businesses| ==> BusinessOk(s.businesses[i], i, s.created[i])
  }

  ghost predicate UniqueOk(s: State) {
    forall i, j :: 0 <= i < j < |s.businesses| ==> !SameIdentity(s.businesses[i].record, s.businesses[j].record)
  }

  ghost predicate ChangesOk(s: State) {
    && |s.proposedOn| == |s.changes|
    && (forall c :: 0 <= c < |s.changes| ==> ChangeOk(s, s.changes[c], s.proposedOn[c]))
    && (forall c, d :: 0 <= c < d < |s.changes| ==> !Clash(s.changes[c], s.changes[d]))
  }

  ghost predicate EventsOk(s: State) {
    forall e :: e in s.audit ==>
      && (e.aggregate.BusinessRow? ==> e.aggregate.id < |s.businesses|)
      && (e.kind.Updated? ==> e.kind.change < |s.changes|)
  }

  predicate HistoryOk(s: State, id: nat)
    requires id < |s.businesses| && |s.created| == |s.businesses|
  {
    var r := s.businesses[id].record;
    && Versions(s.audit, id) == UpTo(r.version)
    && Replayed(FirstRecord(id, r.tenantId, s.created[id]), s.changes, s.audit, id) == r
  }

  ghost predicate HistoriesOk(s: State)
    requires |s.created| == |s.businesses|
  {
    forall id: nat :: id < |s.businesses| ==> HistoryOk(s, id)
  }

  ghost predicate NameOk(s: State, id: nat)
    requires id < |s.businesses|
  {
    var r := s.businesses[id].record;
    exists k: nat ::
      NewestName(s.names, id, k) && s.names[k].name == r.legalName && s.names[k].recordVersion <= r.version
  }

  ghost predicate AddressOk(s: State, id: nat)
    requires id < |s.businesses|
  {
    var r := s.businesses[id].record;
    exists k: nat :: NewestAddress(s.addresses, id, k) && s.addresses[k].address == r.address
      && s.addresses[k].recordVersion <= r.version
  }

  ghost predicate RowsOk(s: State) {
    && (forall k :: 0 <= k < |s.names| ==> s.names[k].business < |s.businesses|)
    && (forall k :: 0 <= k < |s.addresses| ==> s.addresses[k].business < |s.businesses|)
    && (forall id: nat :: id < |s.businesses| ==> NameOk(s, id))
    && (forall id: nat :: id < |s.businesses| ==> AddressOk(s, id))
  }

  ghost predicate Inv(s: State) {
    BusinessesOk(s) && UniqueOk(s) && ChangesOk(s) && EventsOk(s) && HistoriesOk(s) && RowsOk(s)
  }

  // ---------------------------------------------------------------- history

  lemma VersionsAppend(audit: seq<AuditEvent>, e: AuditEvent, id: nat)
    ensures Versions(audit + [e], id) == Versions(audit, id) + (if Versioned(e, id) then [e.version] else [])
  {
    assert (audit + [e])[..|audit|] == audit;
  }

  lemma ReplayedAppend(first: Record, changes: seq<Change>, audit: seq<AuditEvent>, e: AuditEvent, id: nat)
    ensures Replayed(first, changes, audit + [e], id) == Effect(Replayed(first, changes, audit, id), changes, e, id)
  {
    assert (audit + [e])[..|audit|] == audit;
  }

  ghost predicate SamePatches(changes: seq<Change>, changes': seq<Change>) {
    |changes| <= |changes'| && forall c :: 0 <= c < |changes| ==> changes'[c].patch == changes[c].patch
  }

  /** Deciding or adding changes rewrites no past event. */
  lemma {:induction false} ReplayedSame(first: Record, changes: seq<Change>, changes': seq<Change>,
                                        audit: seq<AuditEvent>, id: nat)
    requires SamePatches(changes, changes')
    requires forall e :: e in audit && e.kind.Updated? ==> e.kind.change < |changes|
    ensures Replayed(first, changes', audit, id) == Replayed(first, changes, audit, id)
  {
    if audit != [] {
      assert audit[|audit| - 1] in audit;
      ReplayedSame(first, changes, changes', audit[..|audit| - 1], id);
    }
  }

  lemma {:induction false} Untouched(first: Record, changes: seq<Change>, audit: seq<AuditEvent>, id: nat)
    requires forall e :: e in audit ==> e.aggregate != BusinessRow(id)
    ensures Versions(audit, id) == [] && Replayed(first, changes, audit, id) == first
  {
    if audit != [] {
      assert audit[|audit| - 1] in audit;
      Untouched(first, changes, audit[..|audit| - 1], id);
    }
  }

  /** One event is appended; only the business it names, if any, has a new version. */
  lemma HistoryStep(s: State, s': State, e: AuditEvent, id: nat)
    requires id < |s.businesses| <= |s'.businesses| && |s.created| == |s.businesses| && |s'.created| == |s'.businesses|
    requires HistoryOk(s, id) && EventsOk(s)
    requires s'.audit == s.audit + [e] && SamePatches(s.changes, s'.changes)
    requires s'.created[id] == s.created[id]
    requires s'.businesses[id].record.tenantId == s.businesses[id].record.tenantId
    requires s'.businesses[id].record == Effect(s.businesses[id].record, s'.changes, e, id)
    requires Versioned(e, id) <==> s'.businesses[id].record.version == s.businesses[id].record.version + 1
    requires Versioned(e, id) ==> e.version == s'.businesses[id].record.version
    requires !Versioned(e, id) ==> s'.businesses[id].record == s.businesses[id].record
    ensures HistoryOk(s', id)
  {
    var first := FirstRecord(id, s.businesses[id].record.tenantId, s.created[id]);
    VersionsAppend(s.audit, e, id);
    ReplayedSame(first, s.changes, s'.changes, s.audit, id);
    ReplayedAppend(first, s'.changes, s.audit, e, id);
  }

  // ----------------------------------------------------------- side tables

  lemma NameStays(s: State, s': State, id: nat)
    requires id < |s.businesses| <= |s'.businesses| && NameOk(s, id)
    requires s.names <= s'.names
    requires forall k :: |s.names| <= k < |s'.names| ==> s'.names[k].business != id
    requires s'.businesses[id].record.legalName == s.businesses[id].record.legalName
    requires s'.businesses[id].record.version >= s.businesses[id].record.version
    ensures NameOk(s', id)
  {
    var k: nat :| NewestName(s.names, id, k) && s.names[k].name == s.businesses[id].record.legalName
      && s.names[k].recordVersion <= s.businesses[id].record.version;
    assert NewestName(s'.names, id, k);
  }

  lemma AddressStays(s: State, s': State, id: nat)
    requires id < |s.businesses| <= |s'.businesses| && AddressOk(s, id)
    requires s.addresses <= s'.addresses
    requires forall k :: |s.addresses| <= k < |s'.addresses| ==> s'.addresses[k].business != id
    requires s'.businesses[id].record.address == s.businesses[id].record.address
    requires s'.businesses[id].record.version >= s.businesses[id].record.version
    ensures AddressOk(s', id)
  {
    var k: nat :| NewestAddress(s.addresses, id, k) && s.addresses[k].address == s.businesses[id].record.address
      && s.addresses[k].recordVersion <= s.businesses[id].record.version;
    assert NewestAddress(s'.addresses, id, k);
  }

  /** A row at the business's new version is its newest. */
  lemma NameAdded(s: State, s': State, id: nat)
    requires id < |s'.businesses|
    requires s'.names == s.names + [NameRow(id, s'.businesses[id].record.legalName, s'.businesses[id].record.version)]
    requires forall k :: 0 <= k < |s.names| && s.names[k].business == id ==>
      s.names[k].recordVersion < s'.businesses[id].record.version
    ensures NameOk(s', id)
  {
    assert NewestName(s'.names, id, |s.names|);
  }

  lemma AddressAdded(s: State, s': State, id: nat, verified: bool)
    requires id < |s'.businesses|
    requires var r := s'.businesses[id].record;
      s'.addresses == s.addresses + [AddressRow(id, r.address, verified, r.version)]
    requires forall k :: 0 <= k < |s.addresses| && s.addresses[k].business == id ==>
      s.addresses[k].recordVersion < s'.businesses[id].record.version
    ensures AddressOk(s', id)
  {
    assert NewestAddress(s'.addresses, id, |s.addresses|);
  }

  lemma RowVersions(s: State, id: nat)
    requires id < |s.businesses| && NameOk(s, id) && AddressOk(s, id)
    ensures forall k :: 0 <= k < |s.names| && s.names[k].business == id ==>
        s.names[k].recordVersion <= s.businesses[id].record.version
    ensures forall k :: 0 <= k < |s.addresses| && s.addresses[k].business == id ==>
      s.addresses[k].recordVersion <= s.businesses[id].record.version
  {
  }

  // ------------------------------------------------------------ requests

  /** Other businesses keep their records, changes and rows. */
  lemma CreateKeepsInv(s: State, tenantId: nat, roles: set<string>, q: Create, today: int)
    requires Inv(s)
    ensures var r := CreateBusiness(s, tenantId, roles, q, today); r.Ok? ==> Inv(r.value)
  {
    hide Versions, Replayed, NameOk, AddressOk, StatusOk, UpTo;
    var r := CreateBusiness(s, tenantId, roles, q, today);
    if r.Ok? {
      var s' := r.value;
      CreatedBusiness(s, s', tenantId, q);
      CreatedHistory(s, s', q);
      CreatedRows(s, s', q);
      forall c | 0 <= c < |s'.changes| ensures ChangeOk(s', s'.changes[c], s'.proposedOn[c]) {
        assert ChangeOk(s, s.changes[c], s.proposedOn[c]);
      }
    }
  }

  ghost predicate Creates(s: State, s': State, tenantId: nat, q: Create) {
    var id := |s.businesses|;
    && !NameTaken(s, tenantId, q) && !GstinTaken(s, tenantId, q.gstin, id)
    && s' == s.(
        businesses := s.businesses + [Business(FirstRecord(id, tenantId, q), RequestHash(q))],
        names := s.names + [NameRow(id, q.legalName, 1)],
        addresses := s.addresses + [AddressRow(id, FirstAddress(q), false, 1)],
        audit := s.audit + [AuditEvent(BusinessRow(id), 1, Created)],
        created := s.created + [q])
  }

  lemma CreatedBusiness(s: State, s': State, tenantId: nat, q: Create)
    requires BusinessesOk(s) && UniqueOk(s) && EventsOk(s) && Creates(s, s', tenantId, q)
    ensures BusinessesOk(s') && UniqueOk(s') && EventsOk(s')
  {
    forall i, j | 0 <= i < j < |s'.businesses| ensures !SameIdentity(s'.businesses[i].record, s'.businesses[j].record) {
      if j < |s.businesses| {
        assert !SameIdentity(s.businesses[i].record, s.businesses[j].record);
      } else {
        assert !SameNumber(s.businesses[i].record, tenantId, q);
      }
    }
  }

  lemma CreatedHistory(s: State, s': State, q: Create)
    requires BusinessesOk(s) && EventsOk(s) && HistoriesOk(s)
    requires |s'.businesses| == |s.businesses| + 1 && s'.created == s.created + [q] && s'.changes == s.changes
    requires s'.businesses[..|s.businesses|] == s.businesses
    requires var id := |s.businesses|;
      var r := s'.businesses[id].record;
      r == FirstRecord(id, r.tenantId, q) && s'.audit == s.audit + [AuditEvent(BusinessRow(id), 1, Created)]
    ensures HistoriesOk(s')
  {
    var added := |s.businesses|;
    var e := AuditEvent(BusinessRow(added), 1, Created);
    forall id: nat | id < |s'.businesses| ensures HistoryOk(s', id) {
      if id < added {
        assert HistoryOk(s, id) && s'.businesses[id] == s.businesses[id];
        HistoryStep(s, s', e, id);
      } else {
        var first := s'.businesses[added].record;
        Untouched(first, s.changes, s.audit, added);
        VersionsAppend(s.audit, e, added);
        ReplayedAppend(first, s.changes, s.audit, e, added);
        assert UpTo(1) == UpTo(0) + [1];
      }
    }
  }

  lemma CreatedRows(s: State, s': State, q: Create)
    requires RowsOk(s) && |s'.businesses| == |s.businesses| + 1 && s'.businesses[..|s.businesses|] == s.businesses
    requires var id := |s.businesses|;
      && s'.names == s.names + [NameRow(id, q.legalName, 1)]
      && s'.addresses == s.addresses + [AddressRow(id, FirstAddress(q), false, 1)]
      && var r := s'.businesses[id].record;
         r.legalName == q.legalName && r.address == FirstAddress(q) && r.version == 1
    ensures RowsOk(s')
  {
    forall id: nat | id < |s'.businesses| ensures NameOk(s', id) && AddressOk(s', id) {
      if id < |s.businesses| {
        assert NameOk(s, id) && AddressOk(s, id) && s'.businesses[id] == s.businesses[id];
        NameStays(s, s', id);
        AddressStays(s, s', id);
      } else {
        NameAdded(s, s', id);
        AddressAdded(s, s', id, false);
      }
    }
  }

  /** What a rewrite of business `id` has in common, be it a status move or a patch. */
  ghost predicate Rewrites(s: State, s': State, id: nat, e: AuditEvent) {
    && id < |s.businesses|
    && |s'.businesses| == |s.businesses| && s'.businesses == s.businesses[id := s'.businesses[id]]
    && s'.created == s.created && s'.proposedOn == s.proposedOn && |s'.proposedOn| == |s.changes|
    && s'.audit == s.audit + [e] && e.aggregate == BusinessRow(id) && !e.kind.ChangeDeclined?
    && (e.kind.Updated? ==> e.kind.change < |s.changes|)
    && |s'.changes| == |s.changes| && SamePatches(s.changes, s'.changes)
    && var r, r' := s.businesses[id].record, s'.businesses[id].record;
       && r'.version == r.version + 1 == e.version
       && s'.businesses[id].sourceHash == IdentityHash(r')
       && r' == Effect(r, s'.changes, e, id)
       && r'.tenantId == r.tenantId && r'.id == r.id && StatusOk(r')
  }

  lemma RewriteHistory(s: State, s': State, id: nat, e: AuditEvent)
    requires BusinessesOk(s) && EventsOk(s) && HistoriesOk(s) && Rewrites(s, s', id, e)
    ensures BusinessesOk(s') && EventsOk(s') && HistoriesOk(s')
  {
    forall i: nat | i < |s'.businesses| ensures HistoryOk(s', i) {
      assert HistoryOk(s, i);
      HistoryStep(s, s', e, i);
    }
  }

  /** Changes other than those being decided stay behind the record's new version. */
  lemma RewriteChange(s: State, s': State, id: nat, e: AuditEvent, c: nat)
    requires Rewrites(s, s', id, e) && c < |s.changes| && ChangeOk(s, s.changes[c], s.proposedOn[c])
    requires s'.changes[c] == s.changes[c]
      || (s.changes[c].business == id
          && s'.changes[c] == s.changes[c].(status := ChangeApproved, applied := Some(s.changes[c].target + 1)))
    ensures ChangeOk(s', s'.changes[c], s'.proposedOn[c])
  {
  }

  lemma RewriteRows(s: State, s': State, id: nat, e: AuditEvent)
    requires RowsOk(s) && Rewrites(s, s', id, e)
    requires var r, r' := s.businesses[id].record, s'.businesses[id].record;
      && s'.names ==
           (if r'.legalName != r.legalName then s.names + [NameRow(id, r'.legalName, r'.version)] else s.names)
      && (s'.addresses == s.addresses + [AddressRow(id, r'.address, true, r'.version)]
          || (s'.addresses == s.addresses && r'.address == r.address))
    ensures RowsOk(s')
  {
    assert NameOk(s, id) && AddressOk(s, id);
    RowVersions(s, id);
    forall i: nat | i < |s'.businesses| ensures NameOk(s', i) && AddressOk(s', i) {
      assert NameOk(s, i) && AddressOk(s, i);
      if i == id && s'.names != s.names { NameAdded(s, s', i); } else { NameStays(s, s', i); }
      if i == id && s'.addresses != s.addresses { AddressAdded(s, s', i, true); } else { AddressStays(s, s', i); }
    }
  }

  lemma MovedStatus(r: Record, target: Status)
    requires StatusOk(r) && target in Allowed(r.status)
    ensures StatusOk(MovedTo(r, target))
  {
  }

  lemma TransitionKeepsInv(s: State, tenantId: nat, roles: set<string>, id: nat, target: Status, expectedVersion: int)
    requires Inv(s)
    ensures var r := TransitionStatus(s, tenantId, roles, id, target, expectedVersion); r.Ok? ==> Inv(r.value)
  {
    hide Versions, Replayed, NameOk, AddressOk, HistoryOk, StatusOk, UpTo;
    var r := TransitionStatus(s, tenantId, roles, id, target, expectedVersion);
    if r.Ok? {
      var s' := r.value;
      var e := s'.audit[|s.audit|];
      assert BusinessOk(s.businesses[id], id, s.created[id]);
      MovedStatus(s.businesses[id].record, target);
      assert Rewrites(s, s', id, e);
      RewriteHistory(s, s', id, e);
      RewriteRows(s, s', id, e);
      RewriteUnique(s, s', id);
      forall c: nat | c < |s'.changes| ensures ChangeOk(s', s'.changes[c], s'.proposedOn[c]) {
        RewriteChange(s, s', id, e, c);
      }
    }
  }

  lemma RewriteUnique(s: State, s': State, id: nat)
    requires UniqueOk(s) && id < |s.businesses| == |s'.businesses|
    requires s'.businesses == s.businesses[id := s'.businesses[id]]
    requires var r, r' := s.businesses[id].record, s'.businesses[id].record;
      && r'.tenantId == r.tenantId && r'.registryNumber == r.registryNumber && r'.businessId == r.businessId
      && (r'.gstin == r.gstin || !GstinTaken(s, r.tenantId, r'.gstin, id))
    ensures UniqueOk(s')
  {
    forall i, j | 0 <= i < j < |s'.businesses| ensures !SameIdentity(s'.businesses[i].record, s'.businesses[j].record) {
      assert !SameIdentity(s.businesses[i].record, s.businesses[j].record);
    }
  }

  lemma NothingMissing(wanted: set<string>, given: set<string>)
    requires wanted - given == {}
    ensures wanted <= given
  {
    forall k | k in wanted ensures k in given {
      assert k in given || k in wanted - given;
    }
  }

  lemma ProposeKeepsInv(s: State, tenantId: nat, roles: set<string>, id: nat, target: int, patch: Patch)
    requires Inv(s)
    ensures var r := ProposeChange(s, tenantId, roles, id, target, patch); r.Ok? ==> Inv(r.value)
  {
    hide Versions, Replayed, NameOk, AddressOk, StatusOk, UpTo;
    var r := ProposeChange(s, tenantId, roles, id, target, patch);
    if r.Ok? {
      var s' := r.value;
      AppendedEvent(s, s', s'.audit[|s.audit|]);
      if patch.address.Some? { NothingMissing(ADDRESS_KEYS, patch.address.value.Keys); }
      assert BusinessOk(s.businesses[id], id, s.created[id]);
      forall c: nat | c < |s'.changes| ensures ChangeOk(s', s'.changes[c], s'.proposedOn[c]) {
        if c < |s.changes| { assert ChangeOk(s, s.changes[c], s.proposedOn[c]); }
      }
    }
  }

  /** An event that gives no business a new version. */
  lemma AppendedEvent(s: State, s': State, e: AuditEvent)
    requires BusinessesOk(s) && EventsOk(s) && HistoriesOk(s) && RowsOk(s)
    requires s' == s.(audit := s.audit + [e], changes := s'.changes, proposedOn := s'.proposedOn)
    requires SamePatches(s.changes, s'.changes)
    requires e.kind.ChangeDeclined? || (e.kind.ChangeSubmitted? && e.aggregate.ChangeRow?)
    requires e.aggregate.BusinessRow? ==> e.aggregate.id < |s.businesses|
    ensures BusinessesOk(s') && EventsOk(s') && HistoriesOk(s') && RowsOk(s')
  {
    hide Versions, Replayed, UpTo;
    forall i: nat | i < |s'.businesses| ensures HistoryOk(s', i) {
      assert HistoryOk(s, i);
      HistoryStep(s, s', e, i);
    }
    forall i: nat | i < |s'.businesses| ensures NameOk(s', i) && AddressOk(s', i) {
      assert NameOk(s, i) && AddressOk(s, i);
      NameStays(s, s', i);
      AddressStays(s, s', i);
    }
  }

  lemma DeclineKeepsInv(s: State, changeId: nat)
    requires Inv(s) && changeId < |s.changes| && s.changes[changeId].status == Submitted
    requires s.changes[changeId].business < |s.businesses|
    ensures var c := s.changes[changeId];
      Inv(s.(changes := s.changes[changeId := c.(status := ChangeRejected)],
             audit := s.audit + [
               AuditEvent(BusinessRow(c.business), s.businesses[c.business].record.version, ChangeDeclined(changeId))]))
  {
    hide Versions, Replayed, NameOk, AddressOk, StatusOk, UpTo;
    var c := s.changes[changeId];
    var e := AuditEvent(BusinessRow(c.business), s.businesses[c.business].record.version, ChangeDeclined(changeId));
    var s' := s.(changes := s.changes[changeId := c.(status := ChangeRejected)], audit := s.audit + [e]);
    AppendedEvent(s, s', e);
    forall i: nat | i < |s'.changes| ensures ChangeOk(s', s'.changes[i], s'.proposedOn[i]) {
      assert ChangeOk(s, s.changes[i], s.proposedOn[i]);
    }
    forall i, j | 0 <= i < j < |s'.changes| ensures !Clash(s'.changes[i], s'.changes[j]) {
      assert !Clash(s.changes[i], s.changes[j]);
    }
  }

  lemma ApplyRewrites(s: State, changeId: nat)
    requires Inv(s) && changeId < |s.changes| && s.changes[changeId].status == Submitted
    requires var c := s.changes[changeId];
      c.business < |s.businesses| && s.businesses[c.business].record.version == c.target
    ensures var s' := Apply(s, changeId);
      && |s'.audit| == |s.audit| + 1 && Rewrites(s, s', s.changes[changeId].business, s'.audit[|s.audit|])
  {
    var c := s.changes[changeId];
    assert ChangeOk(s, c, s.proposedOn[changeId]);
    assert BusinessOk(s.businesses[c.business], c.business, s.created[c.business]);
    var s' := Apply(s, changeId);
    assert s'.audit[|s.audit|].kind == Updated(changeId);
  }

  lemma ApplyKeepsInv(s: State, changeId: nat)
    requires Inv(s) && changeId < |s.changes| && s.changes[changeId].status == Submitted
    requires s.changes[changeId].business < |s.businesses|
    requires var c := s.changes[changeId]; var r := s.businesses[c.business].record;
      r.version == c.target && !GstinTaken(s, r.tenantId, c.patch.gstin, c.business)
    ensures Inv(Apply(s, changeId))
  {
    hide Versions, Replayed, NameOk, AddressOk, HistoryOk, StatusOk, UpTo;
    ApplyRewrites(s, changeId);
    var c := s.changes[changeId];
    var s' := Apply(s, changeId);
    var e := s'.audit[|s.audit|];
    RewriteHistory(s, s', c.business, e);
    RewriteRows(s, s', c.business, e);
    RewriteUnique(s, s', c.business);
    forall i: nat | i < |s'.changes| ensures ChangeOk(s', s'.changes[i], s'.proposedOn[i]) {
      RewriteChange(s, s', c.business, e, i);
    }
    ApprovedTargets(s, changeId);
  }

  /** Earlier approvals of the business aimed below its current version. */
  lemma ApprovedTargets(s: State, changeId: nat)
    requires ChangesOk(s) && changeId < |s.changes|
    requires var c := s.changes[changeId];
      c.business < |s.businesses| && s.businesses[c.business].record.version == c.target
    ensures var changes := Apply(s, changeId).changes;
      forall i, j :: 0 <= i < j < |changes| ==> !Clash(changes[i], changes[j])
  {
    var changes := Apply(s, changeId).changes;
    forall i, j | 0 <= i < j < |changes| ensures !Clash(changes[i], changes[j]) {
      assert !Clash(s.changes[i], s.changes[j]);
      assert ChangeOk(s, s.changes[i], s.proposedOn[i]) && ChangeOk(s, s.changes[j], s.proposedOn[j]);
    }
  }

  lemma DecideKeepsInv(s: State, tenantId: nat, roles: set<string>, changeId: nat, approve: bool)
    requires Inv(s)
    ensures var r := DecideChange(s, tenantId, roles, changeId, approve); r.Ok? ==> Inv(r.value)
  {
    hide Inv, Apply;
    var r := DecideChange(s, tenantId, roles, changeId, approve);
    if r.Ok? {
      if approve { ApplyKeepsInv(s, changeId); } else { DeclineKeepsInv(s, changeId); }
    }
  }

  lemma StepKeepsInv(s: State, op: Op)
    requires Inv(s)
    ensures Inv(Step(s, op))
  {
    hide Inv;
    match op {
      case DoCreate(tenantId, roles, request, today) => CreateKeepsInv(s, tenantId, roles, request, today);
      case DoTransition(tenantId, roles, id, target, expected) => TransitionKeepsInv(s, tenantId, roles, id, target,
          expected);
      case DoPropose(tenantId, roles, id, target, patch) => ProposeKeepsInv(s, tenantId, roles, id, target, patch);
      case DoDecide(tenantId, roles, changeId, approve) => DecideKeepsInv(s, tenantId, roles, changeId, approve);
    }
  }

  lemma {:induction false} RunKeepsInv(s: State, ops: seq<Op>)
    requires Inv(s)
    ensures Inv(Run(s, ops))
    decreases |ops|
  {
    if ops != [] {
      StepKeepsInv(s, ops[0]);
      RunKeepsInv(Step(s, ops[0]), ops[1..]);
    }
  }

  // -------------------------------------------------------------- theorems

  /**
   Approval never looks at the status, and need not: a submitted change whose target is still the record's
   version finds the record exactly as it was when the change was proposed, active or suspended. So no patch
   reaches a record under review, rejected or dissolved.
   */
  lemma VersionGuardsStatus(ops: seq<Op>, tenantId: nat, roles: set<string>, changeId: nat)
    ensures var s := Run(EMPTY, ops);
      DecideChange(s, tenantId, roles, changeId, true).Ok? ==>
        && changeId < |s.changes| == |s.proposedOn| && s.changes[changeId].business < |s.businesses|
        && var r := s.businesses[s.changes[changeId].business].record;
           r == s.proposedOn[changeId] && (r.status == Active || r.status == Suspended)
  {
    RunKeepsInv(EMPTY, ops);
    var s := Run(EMPTY, ops);
    if DecideChange(s, tenantId, roles, changeId, true).Ok? {
      assert ChangeOk(s, s.changes[changeId], s.proposedOn[changeId]);
    }
  }

  /** Approved changes of one business aimed at different versions, and each produced the next one. */
  lemma ApprovalsAreSerial(ops: seq<Op>, c: nat, d: nat)
    requires var s := Run(EMPTY, ops);
      c < d < |s.changes| && s.changes[c].status == s.changes[d].status == ChangeApproved
      && s.changes[c].business == s.changes[d].business
    ensures var s := Run(EMPTY, ops);
      && s.changes[c].target != s.changes[d].target
      && s.changes[c].applied == Some(s.changes[c].target + 1)
      && s.changes[d].applied == Some(s.changes[d].target + 1)
  {
    RunKeepsInv(EMPTY, ops);
    var s := Run(EMPTY, ops);
    assert ChangeOk(s, s.changes[c], s.proposedOn[c]) && ChangeOk(s, s.changes[d], s.proposedOn[d]);
    assert !Clash(s.changes[c], s.changes[d]);
  }

  /** The record is its creation values with every status move and approved patch applied in version order. */
  lemma RecordsReplay(ops: seq<Op>, id: nat)
    requires id < |Run(EMPTY, ops).businesses|
    ensures var s := Run(EMPTY, ops);
      var r := s.businesses[id].record;
      && |s.created| == |s.businesses|
      && Replayed(FirstRecord(id, r.tenantId, s.created[id]), s.changes, s.audit, id) == r
      && Versions(s.audit, id) == UpTo(r.version)
      && s.businesses[id].sourceHash == (if r.version > 1 then IdentityHash(r) else RequestHash(s.created[id]))
  {
    RunKeepsInv(EMPTY, ops);
    var s := Run(EMPTY, ops);
    assert HistoryOk(s, id) && BusinessOk(s.businesses[id], id, s.created[id]);
  }

  /** The newest legal name row and registered address row say what the record says. */
  lemma NewestRowsAgree(ops: seq<Op>, id: nat)
    requires id < |Run(EMPTY, ops).businesses|
    ensures var s := Run(EMPTY, ops);
      && (exists k: nat :: NewestName(s.names, id, k))
      && (forall k: nat :: NewestName(s.names, id, k) ==> s.names[k].name == s.businesses[id].record.legalName)
      && (exists k: nat :: NewestAddress(s.addresses, id, k))
      && (forall k: nat :: NewestAddress(s.addresses, id, k) ==>
            s.addresses[k].address == s.businesses[id].record.address)
  {
    RunKeepsInv(EMPTY, ops);
    assert NameOk(Run(EMPTY, ops), id) && AddressOk(Run(EMPTY, ops), id);
  }

  /** No two businesses of a tenant share a registry number, a business id or a GSTIN. */
  lemma IdentifiersAreUnique(ops: seq<Op>, i: nat, j: nat)
    requires var s := Run(EMPTY, ops);
      i < j < |s.businesses| && s.businesses[i].record.tenantId == s.businesses[j].record.tenantId
    ensures var s := Run(EMPTY, ops);
      var a, b := s.businesses[i].record, s.businesses[j].record;
      a.registryNumber != b.registryNumber && a.businessId != b.businessId && (a.gstin.Some? ==> a.gstin != b.gstin)
  {
    RunKeepsInv(EMPTY, ops);
    var s := Run(EMPTY, ops);
    assert !SameIdentity(s.businesses[i].record, s.businesses[j].record);
  }

  /** Review is over exactly when the version has left 1, and the flags name the end states. */
  lemma StatusFollowsVersion(ops: seq<Op>, id: nat)
    requires id < |Run(EMPTY, ops).businesses|
    ensures var r := Run(EMPTY, ops).businesses[id].record;
      && (r.status == PendingReview <==> r.version == 1)
      && (REVIEW_FLAG in r.riskFlags <==> r.status == PendingReview)
      && ("REGISTRY_DISSOLVED" in r.riskFlags <==> r.status == Dissolved)
      && ("REGISTRY_REJECTED" in r.riskFlags <==> r.status == Rejected)
  {
    RunKeepsInv(EMPTY, ops);
    var s := Run(EMPTY, ops);
    assert BusinessOk(s.businesses[id], id, s.created[id]);
  }
}
