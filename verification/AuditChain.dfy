/** The audit log: one hash-linked chain of events for each tenant. */
module AuditChain {
  import opened Contracts

  datatype Entry = Entry(
    actorType: string, actorId: string, eventType: string, subjectType: string, subjectId: nat,
    correlationId: nat, payload: map<string, string>)

  /** What is hashed; the row id is not. */
  datatype Document<D> = Document(
    tenantId: nat, sequence: nat, entry: Entry, previousHash: Option<D>, occurredAt: int)

  datatype Event<D> = Event(id: nat, document: Document<D>, eventHash: D)

  /** The row with the highest sequence of a tenant. */
  function Newest<D>(log: seq<Event<D>>, tenantId: nat): (r: Option<nat>)
    ensures r.Some? ==> r.value < |log| && log[r.value].document.tenantId == tenantId
    ensures r.Some? ==> forall i :: 0 <= i < |log| && log[i].document.tenantId == tenantId ==>
      log[i].document.sequence <= log[r.value].document.sequence
    ensures r.None? ==> forall i :: 0 <= i < |log| ==> log[i].document.tenantId != tenantId
  {
    if log == [] then None
    else
      var last := |log| - 1;
      var before := Newest(log[..last], tenantId);
      if log[last].document.tenantId == tenantId
         && (before.None? || log[before.value].document.sequence < log[last].document.sequence)
      then Some(last) else before
  }

  function NextEvent<D>(
    log: seq<Event<D>>, tenantId: nat, id: nat, entry: Entry, now: int, h: Document<D> -> D): Event<D>
  {
    var last := Newest(log, tenantId);
    var document := Document.Document(
      tenantId, if last.Some? then log[last.value].document.sequence + 1 else 1, entry,
      if last.Some? then Some(log[last.value].eventHash) else None, now);
    Event(id, document, h(document))
  }

  class Log<D> {
    const h: Document<D> -> D
    var events: seq<Event<D>>

    constructor (h: Document<D> -> D)
      ensures events == [] && this.h == h
    {
      this.h, events := h, [];
    }

    method LastEvent(tenantId: nat) returns (r: Option<nat>)
      ensures r == Newest(events, tenantId)
    {
      r := None;
      for i := 0 to |events|
        invariant r == Newest(events[..i], tenantId)
      {
        assert events[..i + 1][..i] == events[..i];
        if events[i].document.tenantId == tenantId
           && (r.None? || events[r.value].document.sequence < events[i].document.sequence)
        {
          r := Some(i);
        }
      }
      assert events[..|events|] == events;
    }

    method Append(tenantId: nat, id: nat, entry: Entry, now: int) returns (e: Event<D>)
      modifies this
      ensures e == NextEvent(old(events), tenantId, id, entry, now, h)
      ensures events == old(events) + [e]
    {
      var last := LastEvent(tenantId);
      var sequence, previousHash := 1, None;
      if last.Some? {
        sequence := events[last.value].document.sequence + 1;
        previousHash := Some(events[last.value].eventHash);
      }
      var document := Document.Document(tenantId, sequence, entry, previousHash, now);
      e := Event(id, document, h(document));
      events := events + [e];
    }
  }

  // ------------------------------------------------------------------ chains

  /** One tenant's events, in table order. */
  function ChainOf<D>(log: seq<Event<D>>, tenantId: nat): seq<Event<D>> {
    if log == [] then []
    else
      var last := |log| - 1;
      ChainOf(log[..last], tenantId) + (if log[last].document.tenantId == tenantId then [log[last]] else [])
  }

  /** Sequences 1..n, each event linked to the one before it and carrying its own document's hash. */
  ghost predicate Chained<D(!new)>(chain: seq<Event<D>>, tenantId: nat, h: Document<D> -> D) {
    forall k :: 0 <= k < |chain| ==> Link(chain, k, tenantId, h)
  }

  ghost predicate Link<D>(chain: seq<Event<D>>, k: nat, tenantId: nat, h: Document<D> -> D)
    requires k < |chain|
  {
    var d := chain[k].document;
    && d.tenantId == tenantId && d.sequence == k + 1
    && d.previousHash == (if k == 0 then None else Some(chain[k - 1].eventHash))
    && chain[k].eventHash == h(d)
  }

  ghost predicate Injective<D(!new)>(h: Document<D> -> D) {
    forall a, b :: h(a) == h(b) ==> a == b
  }

  datatype Append = Append(tenantId: nat, id: nat, entry: Entry, now: int)

  function Run<D>(log: seq<Event<D>>, appends: seq<Append>, h: Document<D> -> D): seq<Event<D>> {
    if appends == [] then log
    else
      var before := Run(log, appends[..|appends| - 1], h);
      var a := appends[|appends| - 1];
      before + [NextEvent(before, a.tenantId, a.id, a.entry, a.now, h)]
  }

  lemma ChainAppend<D>(log: seq<Event<D>>, e: Event<D>, tenantId: nat)
    ensures ChainOf(log + [e], tenantId) ==
      ChainOf(log, tenantId) + (if e.document.tenantId == tenantId then [e] else [])
  {
    assert (log + [e])[..|log|] == log;
  }

  /** The newest event of a tenant closes its chain. */
  lemma {:induction false} NewestIsLast<D(!new)>(log: seq<Event<D>>, tenantId: nat, h: Document<D> -> D)
    requires Chained(ChainOf(log, tenantId), tenantId, h)
    ensures var chain := ChainOf(log, tenantId);
      && (Newest(log, tenantId).None? <==> chain == [])
      && (chain != [] ==> log[Newest(log, tenantId).value] == chain[|chain| - 1])
  {
    if log != [] {
      var rest := log[..|log| - 1];
      var before, chain := ChainOf(rest, tenantId), ChainOf(log, tenantId);
      assert before == chain[..|before|];
      forall k | 0 <= k < |before| ensures Link(before, k, tenantId, h) { assert Link(chain, k, tenantId, h); }
      NewestIsLast(rest, tenantId, h);
      if chain != [] { assert Link(chain, |chain| - 1, tenantId, h); }
      if before != [] { assert Link(before, |before| - 1, tenantId, h); }
    }
  }

  lemma NothingLogged<D>(tenantId: nat)
    ensures ChainOf<D>([], tenantId) == []
  {
  }

  /** Every tenant's log is a chain, after any appends for any tenants. */
  lemma {:induction false} AppendsChain<D(!new)>(appends: seq<Append>, tenantId: nat, h: Document<D> -> D)
    ensures Chained(ChainOf(Run([], appends, h), tenantId), tenantId, h)
  {
    hide Newest, ChainOf;
    if appends == [] {
      assert ChainOf<D>([], tenantId) == [] by { NothingLogged<D>(tenantId); }
    } else {
      var n := |appends| - 1;
      var a := appends[n];
      var before := Run([], appends[..n], h);
      AppendsChain(appends[..n], tenantId, h);
      var e := NextEvent(before, a.tenantId, a.id, a.entry, a.now, h);
      ChainAppend(before, e, tenantId);
      var chain, chain' := ChainOf(before, tenantId), ChainOf(before + [e], tenantId);
      NewestIsLast(before, tenantId, h);
      forall k | 0 <= k < |chain'| ensures Link(chain', k, tenantId, h) {
        if k > 0 { assert Link(chain, k - 1, tenantId, h); }
        if k < |chain| { assert Link(chain, k, tenantId, h); }
      }
    }
  }

  /** Two chains with one head hash agree on every hashed document, from the first event on. */
  lemma {:induction false} HeadFixesChain<D(!new)>(
    a: seq<Event<D>>, b: seq<Event<D>>, tenantId: nat, h: Document<D> -> D)
    requires Injective(h) && Chained(a, tenantId, h) && Chained(b, tenantId, h)
    requires a != [] && b != [] && a[|a| - 1].eventHash == b[|b| - 1].eventHash
    ensures |a| == |b|
    ensures forall k :: 0 <= k < |a| ==> a[k].document == b[k].document && a[k].eventHash == b[k].eventHash
  {
    var n := |a| - 1;
    assert Link(a, n, tenantId, h) && Link(b, |b| - 1, tenantId, h);
    assert a[n].document == b[|b| - 1].document;
    if n > 0 {
      var a', b' := a[..n], b[..n];
      forall k | 0 <= k < n ensures Link(a', k, tenantId, h) && Link(b', k, tenantId, h) {
        assert Link(a, k, tenantId, h) && Link(b, k, tenantId, h);
      }
      HeadFixesChain(a', b', tenantId, h);
    }
  }

  /**
   Whoever keeps only the head hash of a tenant's log notices any alteration, loss or reordering of its
   events: what is presented instead either fails the link check or has another head.
   */
  lemma TamperingShows<D(!new)>(appends: seq<Append>, tenantId: nat, h: Document<D> -> D, presented: seq<Event<D>>)
    requires Injective(h)
    requires var chain := ChainOf(Run([], appends, h), tenantId);
      && chain != [] && presented != []
      && (|presented| != |chain| || exists k :: 0 <= k < |chain| && presented[k].document != chain[k].document)
    ensures var chain := ChainOf(Run([], appends, h), tenantId);
      !Chained(presented, tenantId, h) || presented[|presented| - 1].eventHash != chain[|chain| - 1].eventHash
  {
    var chain := ChainOf(Run([], appends, h), tenantId);
    AppendsChain(appends, tenantId, h);
    if Chained(presented, tenantId, h) && presented[|presented| - 1].eventHash == chain[|chain| - 1].eventHash {
      HeadFixesChain(chain, presented, tenantId, h);
    }
  }

  /** What was asked to be logged for one tenant, in order. */
  function AskedFor(appends: seq<Append>, tenantId: nat): seq<Append> {
    if appends == [] then []
    else
      var last := appends[|appends| - 1];
      AskedFor(appends[..|appends| - 1], tenantId) + (if last.tenantId == tenantId then [last] else [])
  }

  /** A tenant's chain records exactly what was logged for it: every entry once, in order, with its id and time. */
  lemma {:induction false} ChainsRecordTheirAppends<D(!new)>(
    appends: seq<Append>, tenantId: nat, h: Document<D> -> D)
    ensures var chain, asked := ChainOf(Run([], appends, h), tenantId), AskedFor(appends, tenantId);
      && |chain| == |asked|
      && forall k :: 0 <= k < |chain| ==>
           && chain[k].id == asked[k].id && chain[k].document.entry == asked[k].entry
           && chain[k].document.occurredAt == asked[k].now
  {
    if appends != [] {
      var n := |appends| - 1;
      var a, before := appends[n], Run([], appends[..n], h);
      ChainsRecordTheirAppends(appends[..n], tenantId, h);
      ChainAppend(before, NextEvent(before, a.tenantId, a.id, a.entry, a.now, h), tenantId);
    }
  }
}
