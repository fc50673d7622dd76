/** The business registry: versioned records, guarded status moves and reviewed change requests. */
module Registry {
  import opened Contracts

  datatype Status = PendingReview | Active | Suspended | Dissolved | Rejected

  type Address = map<string, string>

  const OPERATOR: string := "REGISTRY_OPERATOR"
  const REVIEWER: string := "REGISTRY_REVIEWER"
  const REVIEW_FLAG: string := "PENDING_IDENTITY_REVIEW"
  const STATE_CODE: string := "state_code"
  const ADDRESS_KEYS: set<string> := {"line1", "city", STATE_CODE, "postal_code", "country"}

  datatype Create = Create(
    businessId: string, registryNumber: string, businessType: string, legalName: string,
    tradeName: Option<string>, incorporatedOn: int, stateCode: string, line1: string, city: string,
    postalCode: string, industryCode: Option<string>, msme: Option<string>, gstin: Option<string>)

  /** Everything the identity hash covers. */
  datatype Record = Record(
    id: nat, tenantId: nat, businessId: string, registryNumber: string, businessType: string,
    legalName: string, tradeName: Option<string>, incorporatedOn: int, status: Status, stateCode: string,
    address: Address, industryCode: Option<string>, msme: Option<string>, gstin: Option<string>,
    riskFlags: set<string>, version: nat)

  /** Canonical hashes, taken as injective: a hash is the document it was taken of. */
  datatype SourceHash = RequestHash(request: Create) | IdentityHash(record: Record)

  datatype Business = Business(record: Record, sourceHash: SourceHash)

  /** Proposed fields; an absent field is not part of the patch. */
  datatype Patch = Patch(
    legalName: Option<string>, tradeName: Option<string>, address: Option<Address>,
    industryCode: Option<string>, msme: Option<string>, gstin: Option<string>)

  datatype ChangeStatus = Submitted | ChangeApproved | ChangeRejected

  datatype Change = Change(
    tenantId: nat, business: nat, target: nat, patch: Patch, status: ChangeStatus, applied: Option<nat>)

  datatype NameRow = NameRow(business: nat, name: string, recordVersion: nat)

  datatype AddressRow = AddressRow(business: nat, address: Address, verified: bool, recordVersion: nat)

  datatype Aggregate = BusinessRow(id: nat) | ChangeRow(id: nat)

  datatype EventKind =
    | Created | Moved(prior: Status, next: Status) | ChangeSubmitted(business: nat)
    | Updated(change: nat) | ChangeDeclined(change: nat)

  datatype AuditEvent = AuditEvent(aggregate: Aggregate, version: nat, kind: EventKind)

  /** Row ids are positions. `created` and `proposedOn` are history the service does not keep. */
  datatype State = State(
    businesses: seq<Business>, names: seq<NameRow>, addresses: seq<AddressRow>, changes: seq<Change>,
    audit: seq<AuditEvent>, created: seq<Create>, proposedOn: seq<Record>)

  datatype Error = Forbidden | NotFound | Conflict | DomainError | IntegrityError

  // --------------------------------------------------------------- fields

  /** The fields a patch copies by name. */
  datatype Field = LegalName | TradeName | IndustryCode | Msme | Gstin

  function Proposed(p: Patch, f: Field): Option<string> {
    match f
    case LegalName => p.legalName
    case TradeName => p.tradeName
    case IndustryCode => p.industryCode
    case Msme => p.msme
    case Gstin => p.gstin
  }

  function Get(r: Record, f: Field): Option<string> {
    match f
    case LegalName => Some(r.legalName)
    case TradeName => r.tradeName
    case IndustryCode => r.industryCode
    case Msme => r.msme
    case Gstin => r.gstin
  }

  function Or<T>(proposed: Option<T>, current: T): T {
    if proposed.Some? then proposed.value else current
  }

  function FirstAddress(request: Create): Address {
    map["line1" := request.line1, "city" := request.city, STATE_CODE := request.stateCode,
        "postal_code" := request.postalCode, "country" := "IN"]
  }

  function FirstRecord(id: nat, tenantId: nat, q: Create): Record {
    Record(id, tenantId, q.businessId, q.registryNumber, q.businessType, q.legalName, q.tradeName, q.incorporatedOn,
           PendingReview, q.stateCode, FirstAddress(q), q.industryCode, q.msme, q.gstin, {REVIEW_FLAG}, 1)
  }

  function Patched(r: Record, p: Patch): Record {
    r.(legalName := Or(p.legalName, r.legalName),
       tradeName := if p.tradeName.Some? then p.tradeName else r.tradeName,
       industryCode := if p.industryCode.Some? then p.industryCode else r.industryCode,
       msme := if p.msme.Some? then p.msme else r.msme,
       gstin := if p.gstin.Some? then p.gstin else r.gstin,
       address := Or(p.address, r.address),
       stateCode := if p.address.Some? && STATE_CODE in p.address.value then p.address.value[STATE_CODE]
                    else r.stateCode,
       version := r.version + 1)
  }

  function FlagOf(status: Status): set<string> {
    match status
    case Suspended => {"REGISTRY_SUSPENDED"}
    case Dissolved => {"REGISTRY_DISSOLVED"}
    case Rejected => {"REGISTRY_REJECTED"}
    case _ => {}
  }

  function MovedTo(r: Record, target: Status): Record {
    r.(status := target, version := r.version + 1, riskFlags := r.riskFlags - {REVIEW_FLAG} + FlagOf(target))
  }

  function Allowed(status: Status): set<Status> {
    match status
    case PendingReview => {Active, Rejected}
    case Active => {Suspended, Dissolved}
    case Suspended => {Active, Dissolved}
    case _ => {}
  }

  predicate EmptyPatch(p: Patch) {
    p == Patch(None, None, None, None, None, None)
  }

  // -------------------------------------------------------------- queries

  predicate Owned(s: State, tenantId: nat, id: nat) {
    id < |s.businesses| && s.businesses[id].record.tenantId == tenantId
  }

  predicate SameNumber(r: Record, tenantId: nat, q: Create) {
    r.tenantId == tenantId && (r.registryNumber == q.registryNumber || r.businessId == q.businessId)
  }

  predicate NameTaken(s: State, tenantId: nat, q: Create) {
    exists i :: 0 <= i < |s.businesses| && SameNumber(s.businesses[i].record, tenantId, q)
  }

  /** Another business of the tenant carries this GSTIN. */
  predicate GstinTaken(s: State, tenantId: nat, gstin: Option<string>, except: nat) {
    && gstin.Some?
    && exists i :: 0 <= i < |s.businesses| && i != except && s.businesses[i].record.tenantId == tenantId
                   && s.businesses[i].record.gstin == gstin
  }

  // --------------------------------------------------- requests as functions

  function CreateBusiness(s: State, tenantId: nat, roles: set<string>, q: Create, today: int): Result<State, Error> {
    if OPERATOR !in roles then Err(Forbidden)
    else if q.incorporatedOn > today then Err(DomainError)
    else if NameTaken(s, tenantId, q) then Err(Conflict)
    else
      var id := |s.businesses|;
      if GstinTaken(s, tenantId, q.gstin, id) then Err(IntegrityError)
      else Ok(s.(
        businesses := s.businesses + [Business(FirstRecord(id, tenantId, q), RequestHash(q))],
        names := s.names + [NameRow(id, q.legalName, 1)],
        addresses := s.addresses + [AddressRow(id, FirstAddress(q), false, 1)],
        audit := s.audit + [AuditEvent(BusinessRow(id), 1, Created)],
        created := s.created + [q]))
  }

  /** The record of business `id` becomes `r`, rehashed, with one audit event. */
  function Rewrite(s: State, id: nat, r: Record, kind: EventKind): State
    requires id < |s.businesses|
  {
    s.(businesses := s.businesses[id := Business(r, IdentityHash(r))],
       audit := s.audit + [AuditEvent(BusinessRow(id), r.version, kind)])
  }

  function TransitionStatus(
    s: State, tenantId: nat, roles: set<string>, id: nat, target: Status, expectedVersion: int): Result<State, Error>
  {
    if REVIEWER !in roles then Err(Forbidden)
    else if !Owned(s, tenantId, id) then Err(NotFound)
    else
      var r := s.businesses[id].record;
      if r.version != expectedVersion || target !in Allowed(r.status) then Err(Conflict)
      else Ok(Rewrite(s, id, MovedTo(r, target), Moved(r.status, target)))
  }

  function ProposeChange(
    s: State, tenantId: nat, roles: set<string>, id: nat, target: int, patch: Patch): Result<State, Error>
  {
    if OPERATOR !in roles then Err(Forbidden)
    else if !Owned(s, tenantId, id) then Err(NotFound)
    else
      var r := s.businesses[id].record;
      if (r.status != Active && r.status != Suspended) || target != r.version then Err(Conflict)
      else if EmptyPatch(patch) || (patch.address.Some? && ADDRESS_KEYS - patch.address.value.Keys != {})
      then Err(DomainError)
      else
        Ok(s.(changes := s.changes + [Change(tenantId, id, r.version, patch, Submitted, None)],
              audit := s.audit + [AuditEvent(ChangeRow(|s.changes|), 1, ChangeSubmitted(id))],
              proposedOn := s.proposedOn + [r]))
  }

  function DecideChange(
    s: State, tenantId: nat, roles: set<string>, changeId: nat, approve: bool): Result<State, Error>
  {
    if REVIEWER !in roles then Err(Forbidden)
    else if changeId >= |s.changes| || s.changes[changeId].tenantId != tenantId then Err(NotFound)
    else
      var c := s.changes[changeId];
      if c.status != Submitted then Err(Conflict)
      else if !Owned(s, tenantId, c.business) then Err(NotFound)
      else
        var r := s.businesses[c.business].record;
        if !approve then
          Ok(s.(changes := s.changes[changeId := c.(status := ChangeRejected)],
                audit := s.audit + [AuditEvent(BusinessRow(c.business), r.version, ChangeDeclined(changeId))]))
        else if r.version != c.target || GstinTaken(s, tenantId, c.patch.gstin, c.business) then Err(Conflict)
        else Ok(Apply(s, changeId))
  }

  /** The approved change `changeId` reaches its record. */
  function Apply(s: State, changeId: nat): State
    requires changeId < |s.changes| && s.changes[changeId].business < |s.businesses|
  {
    var c := s.changes[changeId];
    var r := s.businesses[c.business].record;
    var r' := Patched(r, c.patch);
    Rewrite(s, c.business, r', Updated(changeId)).(
      changes := s.changes[changeId := c.(status := ChangeApproved, applied := Some(r'.version))],
      names := if r'.legalName == r.legalName then s.names
               else s.names + [NameRow(c.business, r'.legalName, r'.version)],
      addresses := if c.patch.address.Some? then s.addresses + [AddressRow(c.business, r'.address, true, r'.version)]
                   else s.addresses)
  }

  // ------------------------------------------------------------- whole runs

  datatype Op =
    | DoCreate(tenantId: nat, roles: set<string>, request: Create, today: int)
    | DoTransition(tenantId: nat, roles: set<string>, id: nat, target: Status, expectedVersion: int)
    | DoPropose(tenantId: nat, roles: set<string>, id: nat, targetVersion: int, patch: Patch)
    | DoDecide(tenantId: nat, roles: set<string>, changeId: nat, approve: bool)

  function Request(s: State, op: Op): Result<State, Error> {
    match op
    case DoCreate(tenantId, roles, request, today) => CreateBusiness(s, tenantId, roles, request, today)
    case DoTransition(tenantId, roles, id, target, expected) => TransitionStatus(s, tenantId, roles, id, target,
        expected)
    case DoPropose(tenantId, roles, id, target, patch) => ProposeChange(s, tenantId, roles, id, target, patch)
    case DoDecide(tenantId, roles, changeId, approve) => DecideChange(s, tenantId, roles, changeId, approve)
  }

  function Step(s: State, op: Op): State {
    var r := Request(s, op);
    if r.Ok? then r.value else s
  }

  function Run(s: State, ops: seq<Op>): State
    decreases |ops|
  {
    if ops == [] then s else Run(Step(s, ops[0]), ops[1..])
  }

  const EMPTY: State := State([], [], [], [], [], [], [])
}
