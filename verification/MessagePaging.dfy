/** Conversation messages: gapless sequences under locked appends, and cursor paging over them. */
module MessagePaging {
  import opened Contracts

  datatype Message = Message(conversationId: nat, sequence: nat, content: string)

  const MAXIMUM_LIMIT: nat := 200

  // ----------------------------------------------------------------- appends

  /** `coalesce(max(sequence), 0)` of a conversation. */
  function LastSequence(table: seq<Message>, conversation: nat): (n: nat)
    ensures forall m :: m in table && m.conversationId == conversation ==> m.sequence <= n
  {
    if table == [] then 0
    else
      var last := table[|table| - 1];
      var before := LastSequence(table[..|table| - 1], conversation);
      if last.conversationId == conversation && last.sequence > before then last.sequence else before
  }

  datatype Append = Append(conversationId: nat, content: string)

  function Step(table: seq<Message>, a: Append): seq<Message> {
    table + [Message(a.conversationId, LastSequence(table, a.conversationId) + 1, a.content)]
  }

  function Run(table: seq<Message>, appends: seq<Append>): seq<Message> {
    if appends == [] then table else Step(Run(table, appends[..|appends| - 1]), appends[|appends| - 1])
  }

  /** A conversation's messages in table order. */
  function Of(table: seq<Message>, conversation: nat): seq<Message> {
    if table == [] then []
    else
      var last := table[|table| - 1];
      Of(table[..|table| - 1], conversation) + (if last.conversationId == conversation then [last] else [])
  }

  /** Sequences 1..n in order. */
  ghost predicate Gapless(messages: seq<Message>) {
    forall k :: 0 <= k < |messages| ==> messages[k].sequence == k + 1
  }

  lemma {:induction false} GaplessLast(table: seq<Message>, conversation: nat)
    requires Gapless(Of(table, conversation))
    ensures LastSequence(table, conversation) == |Of(table, conversation)|
  {
    if table != [] {
      var rest := table[..|table| - 1];
      assert Of(rest, conversation) == Of(table, conversation)[..|Of(rest, conversation)|];
      GaplessLast(rest, conversation);
      if table[|table| - 1].conversationId == conversation {
        assert Of(table, conversation)[|Of(rest, conversation)|] == table[|table| - 1];
      }
    }
  }

  lemma StepExtends(table: seq<Message>, a: Append, conversation: nat)
    ensures Of(Step(table, a), conversation) ==
      Of(table, conversation) + (if a.conversationId == conversation then [Step(table, a)[|table|]] else [])
  {
    assert Step(table, a)[..|table|] == table;
  }

  /** Every conversation keeps sequences 1..n, whoever appends and wherever. */
  lemma {:induction false} AppendsStayGapless(table: seq<Message>, appends: seq<Append>, conversation: nat)
    requires Gapless(Of(table, conversation))
    ensures Gapless(Of(Run(table, appends), conversation))
    ensures Of(table, conversation) <= Of(Run(table, appends), conversation)
  {
    if appends != [] {
      var n := |appends| - 1;
      AppendsStayGapless(table, appends[..n], conversation);
      var before := Run(table, appends[..n]);
      GaplessLast(before, conversation);
      StepExtends(before, appends[n], conversation);
    }
  }

  function Contents(messages: seq<Message>): seq<string> {
    if messages == [] then [] else Contents(messages[..|messages| - 1]) + [messages[|messages| - 1].content]
  }

  /** What was appended to one conversation, in order. */
  function Sent(appends: seq<Append>, conversation: nat): seq<string> {
    if appends == [] then []
    else
      var last := appends[|appends| - 1];
      Sent(appends[..|appends| - 1], conversation)
      + (if last.conversationId == conversation then [last.content] else [])
  }

  /** A conversation holds exactly what was sent to it, in order. */
  lemma {:induction false} MessagesAreWhatWasSent(appends: seq<Append>, conversation: nat)
    ensures Contents(Of(Run([], appends), conversation)) == Sent(appends, conversation)
  {
    if appends != [] {
      var n := |appends| - 1;
      MessagesAreWhatWasSent(appends[..n], conversation);
      var before := Run([], appends[..n]);
      StepExtends(before, appends[n], conversation);
      if appends[n].conversationId == conversation {
        var earlier := Of(before, conversation);
        var m := Step(before, appends[n])[|before|];
        assert (earlier + [m])[..|earlier|] == earlier;
        assert Of(Run([], appends), conversation) == earlier + [m];
      } else {
        assert Of(before, conversation) + [] == Of(before, conversation);
      }
    }
  }

  /** The tables of the service; each append holds its conversation's row lock. */
  class Conversations {
    var messages: seq<Message>

    constructor ()
      ensures messages == []
    {
      messages := [];
    }

    method AddMessage(conversation: nat, content: string) returns (m: Message)
      modifies this
      ensures messages == Step(old(messages), Append(conversation, content)) && m == messages[|old(messages)|]
    {
      var sequence := 0;
      for k := 0 to |messages|
        invariant sequence == LastSequence(messages[..k], conversation)
      {
        assert messages[..k + 1][..k] == messages[..k];
        if messages[k].conversationId == conversation && messages[k].sequence > sequence {
          sequence := messages[k].sequence;
        }
      }
      assert messages[..|messages|] == messages;
      m := Message(conversation, sequence + 1, content);
      messages := messages + [m];
    }
  }

  // ------------------------------------------------------------------ paging

  datatype Page = Page(items: seq<Message>, nextCursor: Option<nat>, hasMore: bool)

  /** Messages past a cursor, in order. */
  function Later(messages: seq<Message>, after: nat): seq<Message> {
    if messages == [] then []
    else
      var last := messages[|messages| - 1];
      Later(messages[..|messages| - 1], after) + (if last.sequence > after then [last] else [])
  }

  function Take<T>(s: seq<T>, limit: nat): seq<T> {
    if |s| <= limit then s else s[..limit]
  }

  /** One request: one row more than asked for tells whether there is more. */
  function PageOf(messages: seq<Message>, after: nat, limit: nat): Page {
    var fetched := Take(Later(messages, after), limit + 1);
    var selected := Take(fetched, limit);
    var hasMore := |fetched| > limit;
    Page(selected, if hasMore && selected != [] then Some(selected[|selected| - 1].sequence) else None, hasMore)
  }

  /** One request of a client that follows cursors: what it asks for, and the messages it finds. */
  datatype Visit = Visit(messages: seq<Message>, limit: nat)

  /** Everything received, and whether a page said it was the last. */
  datatype Reading = Reading(items: seq<Message>, stopped: bool, visits: nat)

  function Follow(visits: seq<Visit>, after: nat): Reading {
    if visits == [] then Reading([], false, 0)
    else
      var page := PageOf(visits[0].messages, after, visits[0].limit);
      if page.nextCursor.None? then Reading(page.items, true, 1)
      else
        var rest := Follow(visits[1..], page.nextCursor.value);
        Reading(page.items + rest.items, rest.stopped, rest.visits + 1)
  }

  /** Limits in range, and tables that only grow from one visit to the next. */
  ghost predicate Growing(visits: seq<Visit>) {
    && (forall k :: 0 <= k < |visits| ==> 1 <= visits[k].limit <= MAXIMUM_LIMIT && Gapless(visits[k].messages))
    && (forall j, k :: 0 <= j < k < |visits| ==> visits[j].messages <= visits[k].messages)
  }

  function From(messages: seq<Message>, after: nat): seq<Message> {
    if after >= |messages| then [] else messages[after..]
  }

  lemma {:induction false} LaterIsSuffix(messages: seq<Message>, after: nat)
    requires Gapless(messages)
    ensures Later(messages, after) == From(messages, after)
  {
    if messages != [] {
      LaterIsSuffix(messages[..|messages| - 1], after);
    }
  }

  lemma PageIsSlice(messages: seq<Message>, after: nat, limit: nat)
    requires Gapless(messages) && limit >= 1
    ensures var page := PageOf(messages, after, limit);
      && page.items == Take(From(messages, after), limit)
      && page.hasMore == page.nextCursor.Some?
      && (page.nextCursor.None? <==> |From(messages, after)| <= limit)
      && (page.nextCursor.Some? ==> page.nextCursor.value == after + limit < |messages| && |page.items| == limit)
  {
    LaterIsSuffix(messages, after);
  }

  /** A full page and what follows it later make up what follows the page's start. */
  lemma PageThenRest(messages: seq<Message>, end: seq<Message>, after: nat, limit: nat, rest: seq<Message>)
    requires messages <= end && after + limit < |messages|
    requires rest == Take(From(end, after + limit), |rest|)
    ensures var page := Take(From(messages, after), limit);
      page + rest == Take(From(end, after), |page + rest|) && (rest == From(end, after + limit) ==>
          page + rest == From(end, after))
  {
    var page := Take(From(messages, after), limit);
    assert page == messages[after..after + limit];
    assert From(end, after) == page + From(end, after + limit);
  }

  /**
   While messages keep arriving, a client that follows the cursors receives, up to its last visit, exactly the
   messages after its start that were there: each once, in ascending order, with nothing skipped.
   */
  lemma {:induction false} FollowingMissesNothing(visits: seq<Visit>, after: nat)
    requires Growing(visits)
    ensures var r := Follow(visits, after);
      && r.visits <= |visits|
      && (visits != [] ==> 1 <= r.visits)
      && (r.stopped ==> r.items == From(visits[r.visits - 1].messages, after))
      && (!r.stopped && visits != [] ==> r.items == Take(From(visits[|visits| - 1].messages, after), |r.items|))
    decreases |visits|
  {
    hide PageOf, From, Take, Later;
    if visits != [] {
      var messages, limit := visits[0].messages, visits[0].limit;
      PageIsSlice(messages, after, limit);
      TakeWhole(From(messages, after), limit);
      if PageOf(messages, after, limit).nextCursor.Some? {
        var rest := visits[1..];
        FollowingMissesNothing(rest, after + limit);
        var r := Follow(rest, after + limit);
        if rest == [] {
          TakeTwice(From(messages, after), limit);
        } else {
          var end := if r.stopped then rest[r.visits - 1].messages else rest[|rest| - 1].messages;
          if r.stopped { TakeWhole(r.items, |r.items|); }
          PageThenRest(messages, end, after, limit, r.items);
        }
      }
    }
  }

  lemma TakeWhole<T>(s: seq<T>, limit: nat)
    ensures |s| <= limit ==> Take(s, limit) == s
  {
  }

  lemma TakeTwice<T>(s: seq<T>, limit: nat)
    ensures Take(s, limit) == Take(s, |Take(s, limit)|)
    ensures Take(s, limit) + [] == Take(s, limit)
  {
  }

  lemma FromShrinks(messages: seq<Message>, after: nat, limit: nat)
    requires after + limit < |messages|
    ensures |From(messages, after)| == |From(messages, after + limit)| + limit > limit
  {
  }

  /** Reading stops: a settled conversation is read in as many visits as there are messages left, or one. */
  lemma {:induction false} FollowingStops(visits: seq<Visit>, after: nat)
    requires Growing(visits) && visits != []
    requires |visits| >= |From(visits[|visits| - 1].messages, after)|
    ensures Follow(visits, after).stopped
    decreases |visits|
  {
    hide PageOf, Take, Later, LastSequence, From;
    PageIsSlice(visits[0].messages, after, visits[0].limit);
    if PageOf(visits[0].messages, after, visits[0].limit).nextCursor.Some? {
      var rest := visits[1..];
      assert visits[0].messages <= visits[|visits| - 1].messages;
      FromShrinks(visits[|visits| - 1].messages, after, visits[0].limit);
      FollowingStops(rest, after + visits[0].limit);
    }
  }

  method ListMessages(messages: seq<Message>, after: nat, limit: nat) returns (page: Page)
    requires 1 <= limit <= MAXIMUM_LIMIT
    ensures page == PageOf(messages, after, limit)
  {
    var fetched := [];
    for k := 0 to |messages|
      invariant fetched == Take(Later(messages[..k], after), limit + 1)
    {
      assert messages[..k + 1][..k] == messages[..k];
      if |fetched| < limit + 1 && messages[k].sequence > after { fetched := fetched + [messages[k]]; }
    }
    assert messages[..|messages|] == messages;
    var hasMore := |fetched| > limit;
    var selected := if hasMore then fetched[..limit] else fetched;
    var nextCursor := if hasMore then Some(selected[|selected| - 1].sequence) else None;
    return Page(selected, nextCursor, hasMore);
  }
}
