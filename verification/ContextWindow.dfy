/** Context assembly: recent memories, then recent messages, trimmed from the front to a token budget. */
module ContextWindow {
  import opened Sums

  const MESSAGE_LIMIT: nat := 40
  const MEMORY_LIMIT: nat := 20

  datatype Kind = Memory | Message

  /** An item of the model context; `size` is the length of its JSON text. */
  datatype Item = Item(kind: Kind, id: nat, size: nat)

  function Size(): Item -> int {
    (i: Item) => i.size
  }

  /** JSON length: the envelope, every item, and ", " between items. */
  function JsonLength(envelope: nat, items: seq<Item>): int {
    envelope + Sum(items, Size()) + (if items == [] then 0 else 2 * (|items| - 1))
  }

  function Estimate(envelope: nat, items: seq<Item>): int {
    var quarter := JsonLength(envelope, items) / 4;
    if quarter < 1 then 1 else quarter
  }

  predicate Fits(envelope: nat, items: seq<Item>, budget: int) {
    Estimate(envelope, items) <= budget
  }

  function LastOf<T>(s: seq<T>, limit: nat): seq<T> {
    if |s| <= limit then s else s[|s| - limit..]
  }

  function Reversed<T>(s: seq<T>): (r: seq<T>)
    ensures |r| == |s|
    ensures forall i :: 0 <= i < |s| ==> r[i] == s[|s| - 1 - i]
  {
    if s == [] then [] else Reversed(s[1..]) + [s[0]]
  }

  /** Memories by latest update first, messages by sequence; at most 20 and 40 of them are considered. */
  function Candidates(memories: seq<Item>, messages: seq<Item>): seq<Item> {
    Reversed(memories[..if |memories| <= MEMORY_LIMIT then |memories| else MEMORY_LIMIT]) + LastOf(messages,
        MESSAGE_LIMIT)
  }

  // ---------------------------------------------------------- additive length

  lemma {:induction false} SumFront(items: seq<Item>)
    requires items != []
    ensures Sum(items, Size()) == items[0].size + Sum(items[1..], Size())
  {
    var n := |items| - 1;
    if n == 0 {
      assert items[..0] == [] && items[1..] == [];
    } else {
      assert items[1..][..n - 1] == items[..n][1..];
      SumFront(items[..n]);
    }
  }

  /** Dropping a front item never makes the rest longer. */
  lemma DropShortens(envelope: nat, items: seq<Item>)
    requires items != []
    ensures JsonLength(envelope, items[1..]) <= JsonLength(envelope, items)
  {
    SumFront(items);
  }

  /** Every suffix of a suffix that fits, fits. */
  lemma {:induction false} ShorterFits(envelope: nat, items: seq<Item>, budget: int, i: nat, j: nat)
    requires i <= j <= |items| && Fits(envelope, items[i..], budget)
    ensures Fits(envelope, items[j..], budget)
    decreases j - i
  {
    if i < j {
      DropShortens(envelope, items[i..]);
      assert items[i..][1..] == items[i + 1..];
      ShorterFits(envelope, items, budget, i + 1, j);
    }
  }

  // ---------------------------------------------------------------- assembly

  /** `kept` is the longest suffix of the candidates that fits, or only the last one if none does. */
  ghost predicate LongestFitting(envelope: nat, items: seq<Item>, budget: int, kept: seq<Item>) {
    && |kept| <= |items| && kept == items[|items| - |kept|..]
    && (|kept| > 1 ==> Fits(envelope, kept, budget))
    && (items != [] ==> kept != [])
    && (forall k :: 0 <= k < |items| - |kept| ==> !Fits(envelope, items[k..], budget))
  }

  method Assemble(envelope: nat, memories: seq<Item>, messages: seq<Item>, budget: int) returns (items: seq<Item>,
      estimated: int)
    ensures LongestFitting(envelope, Candidates(memories, messages), budget, items)
    ensures estimated == Estimate(envelope, items) >= 1
    ensures |items| > 1 ==> estimated <= budget
  {
    items := [];
    var fetched := memories[..if |memories| <= MEMORY_LIMIT then |memories| else MEMORY_LIMIT];
    for k := 0 to |fetched|
      invariant items == Reversed(fetched)[..k]
    {
      items := items + [fetched[|fetched| - 1 - k]];
    }
    var recent := LastOf(messages, MESSAGE_LIMIT);
    for k := 0 to |recent|
      invariant items == Reversed(fetched) + recent[..k]
    {
      items := items + [recent[k]];
    }
    ghost var all := Candidates(memories, messages);
    assert items == all;
    while Estimate(envelope, items) > budget && |items| > 1
      invariant |items| <= |all| && items == all[|all| - |items|..]
      invariant all != [] ==> items != []
      decreases |items|
      invariant forall k :: 0 <= k < |all| - |items| ==> !Fits(envelope, all[k..], budget)
    {
      items := items[1..];
    }
    estimated := Estimate(envelope, items);
  }

  // ---------------------------------------------------------------- theorems

  /** The result is one sequence, and it fits exactly when the last candidate alone, or none at all, fits. */
  lemma LongestFittingIsUnique(envelope: nat, items: seq<Item>, budget: int, kept: seq<Item>, kept': seq<Item>)
    requires LongestFitting(envelope, items, budget, kept) && LongestFitting(envelope, items, budget, kept')
    ensures kept == kept'
    ensures Fits(envelope, kept, budget) <==> Fits(envelope, LastOf(items, 1), budget)
  {
    var n, k, k' := |items|, |items| - |kept|, |items| - |kept'|;
    if items != [] {
      assert LastOf(items, 1) == items[n - 1..];
      if Fits(envelope, kept, budget) { ShorterFits(envelope, items, budget, k, n - 1); }
      assert k == n - 1 || Fits(envelope, items[k..], budget);
      assert k' == n - 1 || Fits(envelope, items[k'..], budget);
    }
  }

  /** What is kept is everything that could be: no longer suffix fits, and every shorter one does. */
  lemma ShorterSuffixesFit(envelope: nat, items: seq<Item>, budget: int, kept: seq<Item>, k: nat)
    requires LongestFitting(envelope, items, budget, kept) && Fits(envelope, kept, budget) && k <= |items|
    ensures Fits(envelope, items[k..], budget) <==> k >= |items| - |kept|
  {
    if k >= |items| - |kept| { ShorterFits(envelope, items, budget, |items| - |kept|, k); }
  }

  /** A message is dropped only after every memory is. */
  lemma MemoriesGoFirst(envelope: nat, memories: seq<Item>, messages: seq<Item>, budget: int, kept: seq<Item>)
    requires LongestFitting(envelope, Candidates(memories, messages), budget, kept)
    requires forall m :: m in messages ==> m.kind == Message
    ensures var recent := LastOf(messages, MESSAGE_LIMIT);
      || (|kept| >= |recent| && kept[|kept| - |recent|..] == recent)
      || (|kept| < |recent| && kept == LastOf(recent, |kept|) && forall i :: i in kept ==> i.kind == Message)
  {
    var recent := LastOf(messages, MESSAGE_LIMIT);
    var all := Candidates(memories, messages);
    assert all[|all| - |recent|..] == recent;
    if |kept| < |recent| {
      assert kept == recent[|recent| - |kept|..];
    }
  }

  /** The candidates one by one: up to 20 memories, the latest update last, then the last 40 messages in order. */
  lemma CandidatesAreTheLatest(memories: seq<Item>, messages: seq<Item>)
    ensures var all := Candidates(memories, messages);
      var m := if |memories| <= 20 then |memories| else 20;
      var n := if |messages| <= 40 then |messages| else 40;
      && |all| == m + n
      && (forall i :: 0 <= i < m ==> all[i] == memories[m - 1 - i])
      && all[m..] == messages[|messages| - n..]
  {
  }

  /** Texts in a JSON list: the next one after ", ". */
  function Joined(texts: seq<string>): string {
    if texts == [] then ""
    else if |texts| == 1 then texts[0]
    else Joined(texts[..|texts| - 1]) + ", " + texts[|texts| - 1]
  }

  /** The length is that of the envelope and the joined texts of the items. */
  lemma {:induction false} LengthIsOfTheText(envelope: nat, items: seq<Item>, texts: seq<string>)
    requires |texts| == |items| && forall i :: 0 <= i < |items| ==> |texts[i]| == items[i].size
    ensures JsonLength(envelope, items) == envelope + |Joined(texts)|
  {
    if |items| > 1 {
      LengthIsOfTheText(envelope, items[..|items| - 1], texts[..|texts| - 1]);
    } else if |items| == 1 {
      assert items[..0] == [] && Sum(items[..0], Size()) == 0;
    }
  }

  /** A token stands for four characters, rounded down, and nothing is estimated below one token. */
  lemma EstimateCountsFours(envelope: nat, items: seq<Item>)
    ensures var length, tokens := JsonLength(envelope, items), Estimate(envelope, items);
      4 * tokens <= length < 4 * tokens + 4 || (tokens == 1 && length < 4)
  {
  }
}
