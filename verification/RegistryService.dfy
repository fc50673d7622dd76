/** The registry service: its tables as fields, each request one transaction. */
module RegistryService {
  import opened Contracts
  import opened Registry
  import RegistrySafety

  function Set(r: Record, f: Field, value: string): (r': Record)
    ensures Get(r', f) == Some(value)
    ensures forall g :: g != f ==> Get(r', g) == Get(r, g)
    ensures SameRest(r, r')
  {
    match f
    case LegalName => r.(legalName := value)
    case TradeName => r.(tradeName := Some(value))
    case IndustryCode => r.(industryCode := Some(value))
    case Msme => r.(msme := Some(value))
    case Gstin => r.(gstin := Some(value))
  }

  /** The records differ at most in the five named fields. */
  predicate SameRest(r: Record, r': Record) {
    r' == r.(legalName := r'.legalName, tradeName := r'.tradeName, industryCode := r'.industryCode, msme := r'.msme,
             gstin := r'.gstin)
  }

  const FIELDS: seq<Field> := [LegalName, TradeName, IndustryCode, Msme, Gstin]

  method CopyFields(record: Record, patch: Patch) returns (r: Record)
    ensures SameRest(record, r)
    ensures forall f :: Get(r, f) == if Proposed(patch, f).Some? then Proposed(patch, f) else Get(record, f)
  {
    r := record;
    for k := 0 to |FIELDS|
      invariant SameRest(record, r)
      invariant forall f :: f in FIELDS[..k] && Proposed(patch, f).Some? ==> Get(r, f) == Proposed(patch, f)
      invariant forall f :: f !in FIELDS[..k] || Proposed(patch, f).None? ==> Get(r, f) == Get(record, f)
    {
      var field := FIELDS[k];
      if Proposed(patch, field).Some? {
        r := Set(r, field, Proposed(patch, field).value);
      }
      assert FIELDS[..k + 1] == FIELDS[..k] + [field];
    }
    assert FIELDS[..|FIELDS|] == FIELDS;
    forall f ensures f in FIELDS { Listed(f); }
  }

  lemma Listed(f: Field)
    ensures f in FIELDS
  {
    assert FIELDS[0] == LegalName;
    assert FIELDS[1] == TradeName;
    assert FIELDS[2] == IndustryCode;
    assert FIELDS[3] == Msme;
    assert FIELDS[4] == Gstin;
  }

  class Service {
    var businesses: seq<Business>
    var names: seq<NameRow>
    var addresses: seq<AddressRow>
    var changes: seq<Change>
    var audit: seq<AuditEvent>
    ghost var created: seq<Create>
    ghost var proposedOn: seq<Record>

    constructor ()
      ensures Model() == EMPTY
    {
      businesses, names, addresses, changes, audit, created, proposedOn := [], [], [], [], [], [], [];
    }

    ghost function Model(): State
      reads this
    {
      State(businesses, names, addresses, changes, audit, created, proposedOn)
    }

    /** The tables are what request function `specified` makes of the tables before. */
    ghost predicate Answers(r: Result<(), Error>, before: State, specified: Result<State, Error>)
      reads this
    {
      specified == (if r.Ok? then Ok(Model()) else Err(r.error)) && (r.Err? ==> Model() == before)
    }

    method NumberExists(tenantId: nat, q: Create) returns (found: bool)
      ensures found == NameTaken(Model(), tenantId, q)
    {
      found := false;
      for i := 0 to |businesses|
        invariant found <==> exists j :: 0 <= j < i && SameNumber(businesses[j].record, tenantId, q)
      {
        if SameNumber(businesses[i].record, tenantId, q) { found := true; }
      }
    }

    method GstinExists(tenantId: nat, gstin: Option<string>, except: nat) returns (found: bool)
      ensures found == GstinTaken(Model(), tenantId, gstin, except)
    {
      found := false;
      if gstin.None? { return; }
      for i := 0 to |businesses|
        invariant found <==> exists j :: 0 <= j < i && j != except && businesses[j].record.tenantId == tenantId
                                         && businesses[j].record.gstin == gstin
      {
        if i != except && businesses[i].record.tenantId == tenantId && businesses[i].record.gstin == gstin {
          found := true;
        }
      }
    }

    method Create(tenantId: nat, roles: set<string>, q: Create, today: int) returns (r: Result<(), Error>)
      modifies this
      ensures Answers(r, old(Model()), CreateBusiness(old(Model()), tenantId, roles, q, today))
    {
      if OPERATOR !in roles { return Err(Forbidden); }
      if q.incorporatedOn > today { return Err(DomainError); }
      var taken := NumberExists(tenantId, q);
      if taken { return Err(Conflict); }
      var id := |businesses|;
      var duplicate := GstinExists(tenantId, q.gstin, id);
      if duplicate { return Err(IntegrityError); }
      businesses := businesses + [Business(FirstRecord(id, tenantId, q), RequestHash(q))];
      names := names + [NameRow(id, q.legalName, 1)];
      addresses := addresses + [AddressRow(id, FirstAddress(q), false, 1)];
      audit := audit + [AuditEvent(BusinessRow(id), 1, Created)];
      created := created + [q];
      return Ok(());
    }

    method Transition(tenantId: nat, roles: set<string>, id: nat, target: Status, expectedVersion: int)
      returns (r: Result<(), Error>)
      modifies this`businesses, this`audit
      ensures Answers(r, old(Model()), TransitionStatus(old(Model()), tenantId, roles, id, target, expectedVersion))
    {
      if REVIEWER !in roles { return Err(Forbidden); }
      if id >= |businesses| || businesses[id].record.tenantId != tenantId { return Err(NotFound); }
      var business := businesses[id].record;
      if business.version != expectedVersion { return Err(Conflict); }
      if target !in Allowed(business.status) { return Err(Conflict); }
      var prior := business.status;
      business := business.(status := target);
      business := business.(version := business.version + 1);
      business := business.(riskFlags := business.riskFlags - {REVIEW_FLAG});
      if target in {Suspended, Dissolved, Rejected} {
        business := business.(riskFlags := business.riskFlags + FlagOf(target));
      }
      assert business == MovedTo(businesses[id].record, target);
      businesses := businesses[id := Business(business, IdentityHash(business))];
      audit := audit + [AuditEvent(BusinessRow(id), business.version, Moved(prior, target))];
      return Ok(());
    }

    method Propose(tenantId: nat, roles: set<string>, id: nat, targetVersion: int, patch: Patch)
      returns (r: Result<(), Error>)
      modifies this`changes, this`audit, this`proposedOn
      ensures Answers(r, old(Model()), ProposeChange(old(Model()), tenantId, roles, id, targetVersion, patch))
    {
      if OPERATOR !in roles { return Err(Forbidden); }
      if id >= |businesses| || businesses[id].record.tenantId != tenantId { return Err(NotFound); }
      var business := businesses[id].record;
      if business.status !in {Active, Suspended} { return Err(Conflict); }
      if targetVersion != business.version { return Err(Conflict); }
      if EmptyPatch(patch) { return Err(DomainError); }
      if patch.address.Some? && ADDRESS_KEYS - patch.address.value.Keys != {} { return Err(DomainError); }
      var changeId := |changes|;
      changes := changes + [Change(tenantId, id, business.version, patch, Submitted, None)];
      audit := audit + [AuditEvent(ChangeRow(changeId), 1, ChangeSubmitted(id))];
      proposedOn := proposedOn + [business];
      return Ok(());
    }

    // The change is marked before the GSTIN check; a conflict rolls the mark back.
    method Decide(tenantId: nat, roles: set<string>, changeId: nat, approve: bool) returns (r: Result<(), Error>)
      modifies this`businesses, this`names, this`addresses, this`changes, this`audit
      ensures Answers(r, old(Model()), DecideChange(old(Model()), tenantId, roles, changeId, approve))
    {
      if REVIEWER !in roles { return Err(Forbidden); }
      if changeId >= |changes| || changes[changeId].tenantId != tenantId { return Err(NotFound); }
      var change := changes[changeId];
      if change.status != Submitted { return Err(Conflict); }
      var id := change.business;
      if id >= |businesses| || businesses[id].record.tenantId != tenantId { return Err(NotFound); }
      var business := businesses[id].record;
      if approve && business.version != change.target { return Err(Conflict); }
      var before := changes;
      change := change.(status := if approve then ChangeApproved else ChangeRejected);
      changes := changes[changeId := change];
      if approve {
        var duplicate := GstinExists(tenantId, change.patch.gstin, id);
        if duplicate {
          changes := before;
          return Err(Conflict);
        }
        ghost var applied := change.(applied := Some(business.version + 1));
        assert changes[changeId := applied] == before[changeId := applied];
        ApplyPatch(id, changeId);
      } else {
        audit := audit + [AuditEvent(BusinessRow(id), business.version, ChangeDeclined(changeId))];
      }
      return Ok(());
    }

    method ApplyPatch(id: nat, changeId: nat)
      requires changeId < |changes| && id < |businesses| && id == changes[changeId].business
      requires changes[changeId].status == ChangeApproved
      modifies this`businesses, this`names, this`addresses, this`changes, this`audit
      ensures Model() == Apply(old(Model()), changeId)
    {
      var change, business := changes[changeId], businesses[id].record;
      var patch, priorName := change.patch, business.legalName;
      business := CopyFields(business, patch);
      ghost var copied := business;
      if patch.address.Some? {
        business := business.(address := patch.address.value);
        if STATE_CODE in patch.address.value {
          business := business.(stateCode := patch.address.value[STATE_CODE]);
        }
      }
      business := business.(version := business.version + 1);
      assert business == Patched(businesses[id].record, patch) by {
        assert forall f ::
          Get(copied, f) == if Proposed(patch, f).Some? then Proposed(patch, f) else Get(businesses[id].record, f);
        assert Get(copied, LegalName) == Some(Or(patch.legalName, businesses[id].record.legalName));
        assert Get(copied, TradeName) == copied.tradeName && Get(copied, IndustryCode) == copied.industryCode;
        assert Get(copied, Msme) == copied.msme && Get(copied, Gstin) == copied.gstin;
      }
      businesses := businesses[id := Business(business, IdentityHash(business))];
      changes := changes[changeId := change.(applied := Some(business.version))];
      if business.legalName != priorName {
        names := names + [NameRow(id, business.legalName, business.version)];
      }
      if patch.address.Some? {
        addresses := addresses + [AddressRow(id, business.address, true, business.version)];
      }
      audit := audit + [AuditEvent(BusinessRow(id), business.version, Updated(changeId))];
    }

    /** Any request is one step of the registry's runs, and keeps what every run keeps. */
    method Handle(op: Op) returns (r: Result<(), Error>)
      requires RegistrySafety.Inv(Model())
      modifies this
      ensures Answers(r, old(Model()), Request(old(Model()), op))
      ensures Model() == Step(old(Model()), op) && RegistrySafety.Inv(Model())
    {
      hide RegistrySafety.Inv, CreateBusiness, TransitionStatus, ProposeChange, DecideChange;
      RegistrySafety.StepKeepsInv(Model(), op);
      match op {
        case DoCreate(tenantId, roles, request, today) => r := Create(tenantId, roles, request, today);
        case DoTransition(tenantId, roles, id, target, expected) => r := Transition(tenantId, roles, id, target,
            expected);
        case DoPropose(tenantId, roles, id, target, patch) => r := Propose(tenantId, roles, id, target, patch);
        case DoDecide(tenantId, roles, changeId, approve) => r := Decide(tenantId, roles, changeId, approve);
      }
    }
  }
}
