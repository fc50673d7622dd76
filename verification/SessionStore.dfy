/** The agent session store: sequence-numbered rows that stand for one list per conversation. */
module SessionStore {
  import opened Contracts

  /** Conversations of one session share its sequence numbers. */
  datatype Session = Session(tenantId: nat, sessionId: nat)

  datatype Key = Key(session: Session, conversationId: nat)

  datatype Row = Row(key: Key, sequence: nat, item: string)

  // ------------------------------------------------- requests as functions

  /** `max(sequence)` over the whole session, 0 without rows. */
  function Highest(rows: seq<Row>, session: Session): (n: nat)
    ensures forall i :: 0 <= i < |rows| && rows[i].key.session == session ==> rows[i].sequence <= n
  {
    if rows == [] then 0
    else
      var last := |rows| - 1;
      var before := Highest(rows[..last], session);
      if rows[last].key.session == session && rows[last].sequence > before then rows[last].sequence else before
  }

  function Numbered(key: Key, from: nat, items: seq<string>): seq<Row> {
    if items == [] then [] else Numbered(key, from, items[..|items| - 1]) + [Row(key, from + |items|,
        items[|items| - 1])]
  }

  function Add(rows: seq<Row>, key: Key, items: seq<string>): seq<Row> {
    rows + Numbered(key, Highest(rows, key.session), items)
  }

  /** The row of a conversation with the highest sequence. */
  function Newest(rows: seq<Row>, key: Key): (r: Option<nat>)
    ensures r.Some? ==> r.value < |rows| && rows[r.value].key == key
    ensures r.Some? ==> forall i :: 0 <= i < |rows| && rows[i].key == key ==> rows[i].sequence <= rows[r.value].sequence
    ensures r.None? ==> forall i :: 0 <= i < |rows| ==> rows[i].key != key
  {
    if rows == [] then None
    else
      var last := |rows| - 1;
      var before := Newest(rows[..last], key);
      if rows[last].key == key && (before.None? || rows[before.value].sequence < rows[last].sequence) then Some(last)
      else before
  }

  function Without(rows: seq<Row>, i: nat): seq<Row>
    requires i < |rows|
  {
    rows[..i] + rows[i + 1..]
  }

  function Pop(rows: seq<Row>, key: Key): (seq<Row>, Option<string>) {
    var newest := Newest(rows, key);
    if newest.None? then (rows, None) else (Without(rows, newest.value), Some(rows[newest.value].item))
  }

  function Clear(rows: seq<Row>, key: Key): seq<Row> {
    if rows == [] then []
    else
      var last := |rows| - 1;
      Clear(rows[..last], key) + (if rows[last].key == key then [] else [rows[last]])
  }

  /** The conversation's list: its items as the table holds them. */
  function Items(rows: seq<Row>, key: Key): seq<string> {
    if rows == [] then []
    else
      var last := |rows| - 1;
      Items(rows[..last], key) + (if rows[last].key == key then [rows[last].item] else [])
  }

  /** Up to `k` items by descending sequence. */
  function Latest(rows: seq<Row>, key: Key, k: nat): seq<string>
    decreases k
  {
    var newest := Newest(rows, key);
    if k == 0 || newest.None? then []
    else [rows[newest.value].item] + Latest(Without(rows, newest.value), key, k - 1)
  }

  function Reversed<T>(s: seq<T>): seq<T> {
    if s == [] then [] else Reversed(s[1..]) + [s[0]]
  }

  /** What `get_items` returns: a negative limit counts as zero. */
  function Get(rows: seq<Row>, key: Key, limit: Option<int>): seq<string> {
    match limit
    case Some(k) => Reversed(Latest(rows, key, if k < 0 then 0 else k))
    case None => Reversed(Latest(rows, key, |rows|))
  }

  // ---------------------------------------------------------------- invariant

  predicate Before(a: Row, b: Row) {
    a.key.session == b.key.session ==> a.sequence < b.sequence
  }

  /** Table order is sequence order in every session, so sequences are unique there. */
  ghost predicate Ascending(rows: seq<Row>) {
    && (forall i, j :: 0 <= i < j < |rows| ==> Before(rows[i], rows[j]))
    && (forall i :: 0 <= i < |rows| ==> rows[i].sequence >= 1)
  }

  lemma {:induction false} NumberedRows(key: Key, from: nat, items: seq<string>)
    ensures |Numbered(key, from, items)| == |items|
    ensures forall i :: 0 <= i < |items| ==> Numbered(key, from, items)[i] == Row(key, from + i + 1, items[i])
  {
    if items != [] { NumberedRows(key, from, items[..|items| - 1]); }
  }

  lemma AddKeepsAscending(rows: seq<Row>, key: Key, items: seq<string>)
    requires Ascending(rows)
    ensures Ascending(Add(rows, key, items))
  {
    NumberedRows(key, Highest(rows, key.session), items);
  }

  lemma WithoutKeepsAscending(rows: seq<Row>, i: nat)
    requires Ascending(rows) && i < |rows|
    ensures Ascending(Without(rows, i))
  {
    var rest := Without(rows, i);
    forall a, b | 0 <= a < b < |rest| ensures Before(rest[a], rest[b]) {
      assert Before(rows[if a < i then a else a + 1], rows[if b < i then b else b + 1]);
    }
  }

  lemma {:induction false} ClearKeepsAscending(rows: seq<Row>, key: Key)
    requires Ascending(rows)
    ensures Ascending(Clear(rows, key))
    ensures forall r :: r in Clear(rows, key) ==> r in rows
  {
    if rows != [] {
      var last := |rows| - 1;
      ClearKeepsAscending(rows[..last], key);
      var before := Clear(rows[..last], key);
      forall i | 0 <= i < |before| ensures Before(before[i], rows[last]) {
        assert before[i] in rows[..last];
        var k :| 0 <= k < last && rows[k] == before[i];
      }
    }
  }

  // ----------------------------------------------------------- list refinement

  lemma {:induction false} ItemsAppend(rows: seq<Row>, more: seq<Row>, key: Key)
    ensures Items(rows + more, key) == Items(rows, key) + Items(more, key)
  {
    if more == [] {
      assert rows + more == rows;
    } else {
      var n := |more| - 1;
      assert (rows + more)[..|rows| + n] == rows + more[..n];
      ItemsAppend(rows, more[..n], key);
    }
  }

  lemma ItemsSnoc(rows: seq<Row>, row: Row, key: Key)
    ensures Items(rows + [row], key) == Items(rows, key) + (if row.key == key then [row.item] else [])
  {
    assert (rows + [row])[..|rows|] == rows;
  }

  lemma NumberedSnoc(key: Key, from: nat, items: seq<string>)
    requires items != []
    ensures Numbered(key, from, items) ==
      Numbered(key, from, items[..|items| - 1]) + [Row(key, from + |items|, items[|items| - 1])]
  {
  }

  lemma {:induction false} NumberedItems(key: Key, from: nat, items: seq<string>, other: Key)
    ensures Items(Numbered(key, from, items), other) == if other == key then items else []
  {
    if items == [] {
      assert Numbered(key, from, items) == [];
    } else {
      hide Items, Numbered;
      var n := |items| - 1;
      NumberedItems(key, from, items[..n], other);
      NumberedSnoc(key, from, items);
      ItemsSnoc(Numbered(key, from, items[..n]), Row(key, from + |items|, items[n]), other);
      assert items == items[..n] + [items[n]];
    }
  }

  lemma ItemsOne(row: Row, key: Key)
    ensures Items([row], key) == if row.key == key then [row.item] else []
  {
    assert [row][..0] == [];
    assert Items([row][..0], key) == [];
  }

  /** `add_items` appends to its conversation's list and leaves every other list alone. */
  lemma AddAppends(rows: seq<Row>, key: Key, items: seq<string>, other: Key)
    ensures Items(Add(rows, key, items), other) == Items(rows, other) + if other == key then items else []
  {
    ItemsAppend(rows, Numbered(key, Highest(rows, key.session), items), other);
    NumberedItems(key, Highest(rows, key.session), items, other);
  }

  /** No later row belongs to the conversation whose newest row this is. */
  lemma NewestIsLast(rows: seq<Row>, key: Key)
    requires Ascending(rows) && Newest(rows, key).Some?
    ensures forall j :: Newest(rows, key).value < j < |rows| ==> rows[j].key != key
  {
    var i := Newest(rows, key).value;
    forall j | i < j < |rows| ensures rows[j].key != key {
      assert Before(rows[i], rows[j]);
    }
  }

  lemma {:induction false} NoItems(rows: seq<Row>, key: Key)
    requires forall j :: 0 <= j < |rows| ==> rows[j].key != key
    ensures Items(rows, key) == []
  {
    if rows != [] { NoItems(rows[..|rows| - 1], key); }
  }

  lemma SplitItems(rows: seq<Row>, i: nat, key: Key)
    requires i < |rows|
    ensures Items(rows, key) ==
      Items(rows[..i], key) + (if rows[i].key == key then [rows[i].item] else []) + Items(rows[i + 1..], key)
    ensures Items(Without(rows, i), key) == Items(rows[..i], key) + Items(rows[i + 1..], key)
  {
    hide Items;
    assert rows == rows[..i] + ([rows[i]] + rows[i + 1..]);
    ItemsAppend(rows[..i], [rows[i]] + rows[i + 1..], key);
    ItemsAppend([rows[i]], rows[i + 1..], key);
    ItemsOne(rows[i], key);
    ItemsAppend(rows[..i], rows[i + 1..], key);
  }

  lemma WithoutOther(rows: seq<Row>, i: nat, other: Key)
    requires i < |rows| && rows[i].key != other
    ensures Items(Without(rows, i), other) == Items(rows, other)
  {
    hide Items;
    SplitItems(rows, i, other);
    assert Items(rows[..i], other) + [] == Items(rows[..i], other);
  }

  lemma WithoutNewest(rows: seq<Row>, i: nat, key: Key)
    requires i < |rows| && rows[i].key == key && forall j :: i < j < |rows| ==> rows[j].key != key
    ensures Items(rows, key) == Items(Without(rows, i), key) + [rows[i].item]
  {
    hide Items;
    NoItems(rows[i + 1..], key);
    SplitItems(rows, i, key);
  }

  /** `pop_item` removes and returns the last item of its list, and only that. */
  lemma PopRemovesLast(rows: seq<Row>, key: Key, other: Key)
    requires Ascending(rows)
    ensures var (rows', popped) := Pop(rows, key);
      var list := Items(rows, key);
      && Ascending(rows')
      && popped == (if list == [] then None else Some(list[|list| - 1]))
      && Items(rows', other) == (if other == key && list != [] then list[..|list| - 1] else Items(rows, other))
  {
    hide Items, Newest, Ascending, Without;
    var newest := Newest(rows, key);
    if newest.Some? {
      var i := newest.value;
      NewestIsLast(rows, key);
      WithoutKeepsAscending(rows, i);
      WithoutNewest(rows, i, key);
      if other != key { WithoutOther(rows, i, other); }
    } else {
      NoItems(rows, key);
    }
  }

  /** `clear_session` empties its list, and only that. */
  lemma {:induction false} ClearEmpties(rows: seq<Row>, key: Key, other: Key)
    ensures Items(Clear(rows, key), other) == if other == key then [] else Items(rows, other)
  {
    if rows != [] {
      var last := |rows| - 1;
      ClearEmpties(rows[..last], key, other);
      if rows[last].key != key {
        ItemsAppend(Clear(rows[..last], key), [rows[last]], other);
        ItemsOne(rows[last], other);
      } else {
        assert Clear(rows, key) == Clear(rows[..last], key);
      }
    }
  }

  lemma {:induction false} ReversedAppend<T>(s: seq<T>, x: T)
    ensures Reversed([x] + s) == Reversed(s) + [x]
  {
    assert ([x] + s)[1..] == s;
  }

  /** The `k` newest rows, put back in order, are the end of the list. */
  lemma {:induction false} LatestIsSuffix(rows: seq<Row>, key: Key, k: nat)
    requires Ascending(rows)
    ensures var list := Items(rows, key);
      Reversed(Latest(rows, key, k)) == list[if k < |list| then |list| - k else 0..]
    decreases k
  {
    hide Items, Newest, Ascending;
    var list := Items(rows, key);
    PopRemovesLast(rows, key, key);
    var newest := Newest(rows, key);
    if k > 0 && newest.Some? {
      var rest := Without(rows, newest.value);
      assert list != [];
      LatestIsSuffix(rest, key, k - 1);
      ReversedAppend(Latest(rest, key, k - 1), rows[newest.value].item);
      assert list == list[..|list| - 1] + [list[|list| - 1]];
    }
  }

  lemma {:induction false} ItemsFit(rows: seq<Row>, key: Key)
    ensures |Items(rows, key)| <= |rows|
  {
    if rows != [] { ItemsFit(rows[..|rows| - 1], key); }
  }

  /** `get_items`: the whole list, or its last max(0, limit) items, oldest first. */
  lemma GetReturnsSuffix(rows: seq<Row>, key: Key, limit: Option<int>)
    requires Ascending(rows)
    ensures var list := Items(rows, key);
      Get(rows, key, limit) ==
        if limit.None? || limit.value >= |list| then list
        else if limit.value <= 0 then []
        else list[|list| - limit.value..]
  {
    ItemsFit(rows, key);
    var k := if limit.None? then |rows| else if limit.value < 0 then 0 else limit.value;
    LatestIsSuffix(rows, key, k);
  }

  // ------------------------------------------------------------- whole runs

  datatype Op = DoAdd(key: Key, items: seq<string>) | DoPop(key: Key) | DoClear(key: Key)

  function Step(rows: seq<Row>, op: Op): seq<Row> {
    match op
    case DoAdd(key, items) => Add(rows, key, items)
    case DoPop(key) => Pop(rows, key).0
    case DoClear(key) => Clear(rows, key)
  }

  function Run(rows: seq<Row>, ops: seq<Op>): seq<Row>
    decreases |ops|
  {
    if ops == [] then rows else Run(Step(rows, ops[0]), ops[1..])
  }

  /** The same operation on a plain list. */
  function ListStep(list: seq<string>, op: Op, key: Key): seq<string> {
    if op.key != key then list
    else
      match op
      case DoAdd(_, items) => list + items
      case DoPop(_) => if list == [] then [] else list[..|list| - 1]
      case DoClear(_) => []
  }

  function ListRun(list: seq<string>, ops: seq<Op>, key: Key): seq<string>
    decreases |ops|
  {
    if ops == [] then list else ListRun(ListStep(list, ops[0], key), ops[1..], key)
  }

  lemma StepRefines(rows: seq<Row>, op: Op, key: Key)
    requires Ascending(rows)
    ensures Ascending(Step(rows, op)) && Items(Step(rows, op), key) == ListStep(Items(rows, key), op, key)
  {
    match op {
      case DoAdd(k, items) =>
        AddKeepsAscending(rows, k, items);
        AddAppends(rows, k, items, key);
      case DoPop(k) => PopRemovesLast(rows, k, key);
      case DoClear(k) =>
        ClearKeepsAscending(rows, k);
        ClearEmpties(rows, k, key);
    }
  }

  /** Each conversation is a list of its own, although a session's conversations share one numbering. */
  lemma {:induction false} StoreRefinesLists(rows: seq<Row>, ops: seq<Op>, key: Key)
    requires Ascending(rows)
    ensures Ascending(Run(rows, ops)) && Items(Run(rows, ops), key) == ListRun(Items(rows, key), ops, key)
    decreases |ops|
  {
    if ops != [] {
      StepRefines(rows, ops[0], key);
      StoreRefinesLists(Step(rows, ops[0]), ops[1..], key);
    }
  }

  lemma OneLater(rows: seq<Row>, key: Key, k: nat, newest: nat)
    requires k > 0 && Newest(rows, key) == Some(newest)
    ensures Reversed(Latest(rows, key, k)) == Reversed(Latest(Without(rows, newest), key, k - 1)) + [rows[newest].item]
  {
    hide Newest, Without;
    ReversedAppend(Latest(Without(rows, newest), key, k - 1), rows[newest].item);
  }

  // -------------------------------------------------------------- the class

  class Store {
    var rows: seq<Row>

    constructor ()
      ensures rows == []
    {
      rows := [];
    }

    method AddItems(key: Key, items: seq<string>)
      modifies this
      ensures rows == Add(old(rows), key, items)
    {
      var sequence := Highest(rows, key.session);
      for k := 0 to |items|
        invariant sequence == Highest(old(rows), key.session) + k
        invariant rows == old(rows) + Numbered(key, Highest(old(rows), key.session), items[..k])
      {
        sequence := sequence + 1;
        rows := rows + [Row(key, sequence, items[k])];
        assert items[..k + 1][..k] == items[..k];
      }
      assert items[..|items|] == items;
    }

    method PopItem(key: Key) returns (popped: Option<string>)
      modifies this
      ensures (rows, popped) == Pop(old(rows), key)
    {
      var value := Newest(rows, key);
      if value.None? { return None; }
      popped := Some(rows[value.value].item);
      rows := rows[..value.value] + rows[value.value + 1..];
    }

    method ClearSession(key: Key)
      modifies this
      ensures rows == Clear(old(rows), key)
    {
      var kept := [];
      for k := 0 to |rows|
        invariant rows == old(rows) && kept == Clear(rows[..k], key)
      {
        assert rows[..k + 1][..k] == rows[..k];
        if rows[k].key != key { kept := kept + [rows[k]]; }
      }
      assert rows[..|rows|] == rows;
      rows := kept;
    }

    method GetItems(key: Key, limit: Option<int>) returns (items: seq<string>)
      ensures items == Get(rows, key, limit)
    {
      hide Newest, Items, Without;
      var left, unread := |rows|, rows;
      if limit.Some? { left := if limit.value < 0 then 0 else limit.value; }
      ghost var wanted := left;
      items := [];
      while left > 0 && Newest(unread, key).Some?
        invariant left >= 0
        invariant Reversed(Latest(rows, key, wanted)) == Reversed(Latest(unread, key, left)) + items
      {
        var next := Newest(unread, key).value;
        OneLater(unread, key, left, next);
        items := [unread[next].item] + items;
        unread := Without(unread, next);
        left := left - 1;
      }
    }
  }
}
