/** The risk score of a recorded trace. */
module TraceRisk {
  import opened Contracts
  import opened Policy

  datatype Flag = SyntheticData | ExternalEvidence | OtherFlag(name: string)

  /** What a step recorded of Guardian; `None` is nothing, or any text the score has no weight for. */
  datatype GuardianEvidence = GuardianEvidence(risk: Option<RiskClass>, outcome: Option<Outcome>)

  /** `tool` says the step is of kind "tool"; `verified` that its status is. */
  datatype TraceStep = TraceStep(
    tool: bool, toolName: Option<string>, guardian: Option<GuardianEvidence>, verified: bool, flags: seq<Flag>)

  /** What the score keeps of one tool step. */
  datatype Evidence = Evidence(platform: string, risk: Option<RiskClass>, outcome: Option<Outcome>, verified: bool,
                               unexpected: set<Flag>)

  datatype Band = Low | Guarded | High | Critical

  datatype Assessment = Assessment(score: int, band: Band)

  function Min(a: int, b: int): int { if a <= b then a else b }

  function Max(a: int, b: int): int { if a >= b then a else b }

  // ---------------------------------------------------------------- one step

  predicate IsTool(s: TraceStep) {
    s.tool && s.toolName.Some?
  }

  /** The part of a tool name before its first dot. */
  function Platform(name: string): string {
    if name == "" || name[0] == '.' then "" else [name[0]] + Platform(name[1..])
  }

  function EvidenceOf(s: TraceStep): Evidence
    requires IsTool(s)
  {
    Evidence(Platform(s.toolName.value),
             if s.guardian.Some? then s.guardian.value.risk else None,
             if s.guardian.Some? then s.guardian.value.outcome else None,
             s.verified, (set f | f in s.flags) - {SyntheticData, ExternalEvidence})
  }

  function RiskPoints(risk: Option<RiskClass>): int {
    match risk
    case None => 90
    case Some(Read) => 5
    case Some(SensitiveRead) => 15
    case Some(Mutate) => 45
    case Some(Privileged) => 75
  }

  function GuardianPoints(outcome: Option<Outcome>): int {
    match outcome
    case None => 40
    case Some(Allow) => 0
    case Some(Verify) => 8
    case Some(Escalate) => 20
    case Some(Block) => 40
  }

  function Subtotal(e: Evidence): int {
    Min(100, RiskPoints(e.risk) + GuardianPoints(e.outcome) + (if e.verified then 0 else 15) + Min(15,
        5 * |e.unexpected|))
  }

  predicate Clean(e: Evidence) {
    && (e.risk == Some(Read) || e.risk == Some(SensitiveRead))
    && e.outcome == Some(Allow) && e.verified && e.unexpected == {}
  }

  // -------------------------------------------------------------- whole trace

  function Tools(steps: seq<TraceStep>): seq<Evidence> {
    if steps == [] then []
    else
      var last := steps[|steps| - 1];
      Tools(steps[..|steps| - 1]) + (if IsTool(last) then [EvidenceOf(last)] else [])
  }

  /** The highest subtotal; without a tool step the trace counts as the worst. */
  function Highest(tools: seq<Evidence>): (m: int)
    ensures tools == [] ==> m == 100
    ensures tools != [] ==> exists i :: 0 <= i < |tools| && Subtotal(tools[i]) == m
    ensures forall e :: e in tools ==> Subtotal(e) <= m
  {
    if tools == [] then 100
    else
      var last := |tools| - 1;
      if last == 0 then Subtotal(tools[0]) else Max(Highest(tools[..last]), Subtotal(tools[last]))
  }

  function Platforms(tools: seq<Evidence>): set<string> {
    set e | e in tools :: e.platform
  }

  predicate AllClean(tools: seq<Evidence>) {
    tools != [] && forall e :: e in tools ==> Clean(e)
  }

  function Raw(tools: seq<Evidence>): int {
    Highest(tools) + Min(10, Max(0, |Platforms(tools)| - 1) * 2) + Min(5, Max(0, |tools| - 3))
      + (if AllClean(tools) then -5 else 0)
  }

  function Score(steps: seq<TraceStep>): (score: int)
    ensures 0 <= score <= 100
  {
    Max(0, Min(100, Raw(Tools(steps))))
  }

  function BandOf(score: int): Band {
    if score <= 24 then Low else if score <= 49 then Guarded else if score <= 74 then High else Critical
  }

  lemma OneMore(tools: seq<Evidence>, item: Evidence)
    ensures Platforms(tools + [item]) == Platforms(tools) + {item.platform}
    ensures Highest(tools + [item]) == if tools == [] then Subtotal(item) else Max(Highest(tools), Subtotal(item))
    ensures forall e :: e in tools + [item] <==> e in tools || e == item
  {
    hide Subtotal;
    assert (tools + [item])[..|tools|] == tools;
  }

  lemma NoTools()
    ensures Platforms([]) == {} && Highest([]) == 100
  {
  }

  method CalculateTraceRisk(steps: seq<TraceStep>) returns (a: Assessment)
    ensures a == Assessment(Score(steps), BandOf(Score(steps)))
  {
    var tools: seq<Evidence>, platforms: set<string>, highest, clean := [], {}, 100, true;
    hide Subtotal, Clean, EvidenceOf, Platforms, Highest;
    assert Platforms([]) == {} && Highest([]) == 100 by { NoTools(); }
    for k := 0 to |steps|
      invariant tools == Tools(steps[..k]) && platforms == Platforms(tools) && highest == Highest(tools)
      invariant clean <==> forall e :: e in tools ==> Clean(e)
    {
      assert steps[..k + 1][..k] == steps[..k];
      if IsTool(steps[k]) {
        var item := EvidenceOf(steps[k]);
        OneMore(tools, item);
        highest := if tools == [] then Subtotal(item) else Max(highest, Subtotal(item));
        tools := tools + [item];
        platforms := platforms + {item.platform};
        clean := clean && Clean(item);
      }
    }
    assert steps[..|steps|] == steps;
    var total := highest + Min(10, Max(0, |platforms| - 1) * 2) + Min(5, Max(0, |tools| - 3));
    if tools != [] && clean { total := total - 5; }
    var score := Max(0, Min(100, total));
    return Assessment(score, BandOf(score));
  }

  // ---------------------------------------------------------------- theorems

  lemma {:induction false} ToolsOf(steps: seq<TraceStep>, e: Evidence)
    ensures e in Tools(steps) <==> exists s :: s in steps && IsTool(s) && EvidenceOf(s) == e
  {
    if steps != [] {
      var n := |steps| - 1;
      ToolsOf(steps[..n], e);
      assert steps == steps[..n] + [steps[n]];
      if IsTool(steps[n]) && EvidenceOf(steps[n]) == e { assert steps[n] in steps; }
    }
  }

  lemma {:induction false} ToolsAppend(a: seq<TraceStep>, b: seq<TraceStep>)
    ensures Tools(a + b) == Tools(a) + Tools(b)
  {
    if b == [] {
      assert a + b == a;
    } else {
      assert (a + b)[..|a| + |b| - 1] == a + b[..|b| - 1];
      ToolsAppend(a, b[..|b| - 1]);
    }
  }

  lemma ToolsWithout(steps: seq<TraceStep>, i: nat)
    requires i < |steps|
    ensures |Tools(steps)| == |Tools(steps[..i] + steps[i + 1..])| + if IsTool(steps[i]) then 1 else 0
  {
    assert steps == steps[..i] + ([steps[i]] + steps[i + 1..]);
    ToolsAppend(steps[..i], [steps[i]] + steps[i + 1..]);
    ToolsAppend([steps[i]], steps[i + 1..]);
    ToolsAppend(steps[..i], steps[i + 1..]);
    assert [steps[i]][..0] == [] && Tools([steps[i]][..0]) == [];
  }

  lemma BagWithout<T>(s: seq<T>, i: nat)
    requires i < |s|
    ensures multiset(s[..i] + s[i + 1..]) == multiset(s) - multiset{s[i]}
  {
    assert s == s[..i] + [s[i]] + s[i + 1..];
  }

  lemma {:induction false} SameCount(a: seq<TraceStep>, b: seq<TraceStep>)
    requires multiset(a) == multiset(b)
    ensures |Tools(a)| == |Tools(b)|
  {
    if a == [] {
      assert |multiset(b)| == 0;
    } else {
      var n := |a| - 1;
      assert a[n] in multiset(a) && a[n] in multiset(b);
      var i :| 0 <= i < |b| && b[i] == a[n];
      BagWithout(a, n);
      BagWithout(b, i);
      assert a[..n] + a[n + 1..] == a[..n];
      SameCount(a[..n], b[..i] + b[i + 1..]);
      ToolsWithout(b, i);
    }
  }

  /** The score reads a trace as a bag: the order of its steps does not matter. */
  lemma OrderDoesNotMatter(a: seq<TraceStep>, b: seq<TraceStep>)
    requires multiset(a) == multiset(b)
    ensures Score(a) == Score(b)
  {
    SameCount(a, b);
    SameEvidence(a, b);
    SameHighest(Tools(a), Tools(b));
    assert Platforms(Tools(a)) == Platforms(Tools(b));
  }

  lemma SameEvidence(a: seq<TraceStep>, b: seq<TraceStep>)
    requires multiset(a) == multiset(b)
    ensures forall e :: e in Tools(a) <==> e in Tools(b)
  {
    assert forall s :: s in a <==> s in multiset(a);
    assert forall s :: s in b <==> s in multiset(b);
    forall e ensures e in Tools(a) <==> e in Tools(b) {
      ToolsOf(a, e);
      ToolsOf(b, e);
    }
  }

  lemma SameHighest(a: seq<Evidence>, b: seq<Evidence>)
    requires |a| == |b| && forall e :: e in a <==> e in b
    ensures Highest(a) == Highest(b)
  {
    if a != [] {
      var i :| 0 <= i < |a| && Subtotal(a[i]) == Highest(a);
      var j :| 0 <= j < |b| && Subtotal(b[j]) == Highest(b);
      assert a[i] in b && b[j] in a;
    }
  }

  lemma SmallerSet(a: set<string>, b: set<string>)
    requires a <= b
    ensures |a| <= |b|
  {
    assert b == a + (b - a);
  }

  lemma HighestGrows(tools: seq<Evidence>, more: seq<Evidence>)
    requires tools != []
    ensures Highest(tools + more) >= Highest(tools)
  {
    var i :| 0 <= i < |tools| && Subtotal(tools[i]) == Highest(tools);
    assert (tools + more)[i] == tools[i];
  }

  lemma PlatformsGrow(tools: seq<Evidence>, more: seq<Evidence>)
    ensures Platforms(tools) <= Platforms(tools + more)
    ensures tools + more != [] && AllClean(tools + more) && tools != [] ==> AllClean(tools)
  {
    assert forall e :: e in tools ==> e in tools + more;
  }

  /** One more step never lowers the score of a trace that has a tool step. */
  lemma NeverFalls(steps: seq<TraceStep>, step: TraceStep)
    requires Tools(steps) != []
    ensures Score(steps + [step]) >= Score(steps)
  {
    hide Highest, Subtotal, Clean, EvidenceOf, Platforms;
    var before, after := Tools(steps), Tools(steps + [step]);
    assert (steps + [step])[..|steps|] == steps;
    var more := if IsTool(step) then [EvidenceOf(step)] else [];
    assert after == before + more;
    HighestGrows(before, more);
    PlatformsGrow(before, more);
    SmallerSet(Platforms(before), Platforms(after));
  }

  lemma CleanPoints(step: TraceStep)
    requires IsTool(step) && step.guardian == Some(GuardianEvidence(Some(Read), Some(Allow))) && step.verified
    requires step.flags == []
    ensures Clean(EvidenceOf(step)) && Subtotal(EvidenceOf(step)) == 5
  {
    hide Platform;
    assert EvidenceOf(step).unexpected == {};
  }

  /** A trace without tool steps scores 100, so its first tool step may lower the score. */
  lemma FirstToolMayLower(steps: seq<TraceStep>)
    requires Tools(steps) == []
    ensures Score(steps) == 100
    ensures exists step :: Score(steps + [step]) < Score(steps)
  {
    hide Subtotal, Platforms, Highest, EvidenceOf;
    NoTools();
    var step := TraceStep(true, Some("bank"), Some(GuardianEvidence(Some(Read), Some(Allow))), true, []);
    assert (steps + [step])[..|steps|] == steps;
    var e := EvidenceOf(step);
    assert Clean(e) && Subtotal(e) == 5 by { CleanPoints(step); }
    assert Tools(steps + [step]) == [e];
    OneMore([], e);
    assert [] + [e] == [e];
    assert |Platforms([e])| == 1;
    assert Score(steps + [step]) < Score(steps);
  }

  /** Allowed, successful, unflagged reads score at most 25, and stay LOW up to seven calls. */
  lemma CleanReadsStayLow(steps: seq<TraceStep>)
    requires AllClean(Tools(steps))
    ensures Score(steps) <= 25 && BandOf(Score(steps)) in {Low, Guarded}
    ensures |Tools(steps)| <= 7 ==> Score(steps) <= 24 && BandOf(Score(steps)) == Low
  {
    var tools := Tools(steps);
    var i :| 0 <= i < |tools| && Subtotal(tools[i]) == Highest(tools);
    assert Clean(tools[i]);
  }

  /** Among clean traces 25 is reached exactly with a sensitive read, six platforms and eight calls. */
  lemma TwentyFiveExactly(steps: seq<TraceStep>)
    requires AllClean(Tools(steps))
    ensures var tools := Tools(steps);
      Score(steps) == 25 <==>
        (exists e :: e in tools && e.risk == Some(SensitiveRead)) && |Platforms(tools)| >= 6 && |tools| >= 8
  {
    var tools := Tools(steps);
    forall e | e in tools ensures Clean(e) && Subtotal(e) == if e.risk == Some(SensitiveRead) then 15 else 5 {
      assert Clean(e);
    }
    var i :| 0 <= i < |tools| && Subtotal(tools[i]) == Highest(tools);
    assert tools[i] in tools;
  }

  function CleanRead(platform: string): TraceStep {
    TraceStep(true, Some(platform), Some(GuardianEvidence(Some(SensitiveRead), Some(Allow))), true, [])
  }

  lemma CleanReadEvidence(c: char)
    requires c != '.'
    ensures var step := CleanRead([c]);
      IsTool(step) && EvidenceOf(step) == Evidence([c], Some(SensitiveRead), Some(Allow), true, {})
  {
    assert [c][1..] == "";
    assert Platform([c]) == [c] + Platform("");
  }

  /** The bound is met: eight clean reads over six platforms score 25. */
  lemma TwentyFiveIsReached()
    ensures exists steps :: AllClean(Tools(steps)) && |Tools(steps)| == 8 && Score(steps) == 25
  {
    hide Platform, Highest;
    var names := "abcdefff";
    var steps := seq(8, i requires 0 <= i < 8 => CleanRead([names[i]]));
    forall i | 0 <= i < 8 ensures IsTool(steps[i]) && EvidenceOf(steps[i]) == Evidence([names[i]],
        Some(SensitiveRead), Some(Allow), true, {}) {
      CleanReadEvidence(names[i]);
    }
    AllTools(steps);
    var tools := Tools(steps);
    assert forall i :: 0 <= i < 8 ==> tools[i] == Evidence([names[i]], Some(SensitiveRead), Some(Allow), true, {});
    SixPlatforms(tools, names);
    var k :| 0 <= k < 8 && Subtotal(tools[k]) == Highest(tools);
    assert Score(steps) == 25;
  }

  lemma SixPlatforms(tools: seq<Evidence>, names: string)
    requires names == "abcdefff" && |tools| == 8 && forall i :: 0 <= i < 8 ==> tools[i].platform == [names[i]]
    ensures |Platforms(tools)| == 6
  {
    var all := {"a", "b", "c", "d", "e", "f"};
    assert tools[0].platform == "a" && tools[1].platform == "b" && tools[2].platform == "c";
    assert tools[3].platform == "d" && tools[4].platform == "e" && tools[5].platform == "f";
    assert tools[6].platform == "f" && tools[7].platform == "f";
    forall i | 0 <= i < 6 ensures tools[i].platform in Platforms(tools) { assert tools[i] in tools; }
    assert Platforms(tools) == all;
  }

  lemma {:induction false} AllTools(steps: seq<TraceStep>)
    requires forall s :: s in steps ==> IsTool(s)
    ensures |Tools(steps)| == |steps|
    ensures forall i :: 0 <= i < |steps| ==> Tools(steps)[i] == EvidenceOf(steps[i])
  {
    if steps != [] { AllTools(steps[..|steps| - 1]); }
  }

  // -------------------------------------------------- the score from the rows

  /** What a tool's registered risk weighs; a class the score does not know weighs most. */
  function Weight(risk: Option<RiskClass>): int {
    if risk == Some(Read) then 5 else if risk == Some(SensitiveRead) then 15
    else if risk == Some(Mutate) then 45 else if risk == Some(Privileged) then 75 else 90
  }

  /** What Guardian's outcome adds; a missing one counts as a block. */
  function Surcharge(outcome: Option<Outcome>): int {
    if outcome == Some(Allow) then 0 else if outcome == Some(Verify) then 8
    else if outcome == Some(Escalate) then 20 else 40
  }

  predicate Unexpected(s: TraceStep, flag: Flag) {
    flag in s.flags && !flag.SyntheticData? && !flag.ExternalEvidence?
  }

  /** A step's subtotal, from what it recorded: its risk, Guardian's answer, its failure, and its odd flags. */
  function Cost(s: TraceStep): int {
    var flags := set f | f in s.flags && Unexpected(s, f);
    var points := Weight(if s.guardian.Some? then s.guardian.value.risk else None)
      + Surcharge(if s.guardian.Some? then s.guardian.value.outcome else None)
      + (if s.verified then 0 else 15) + (if |flags| >= 3 then 15 else 5 * |flags|);
    if points > 100 then 100 else points
  }

  /** An allowed, successful, unflagged read. */
  predicate Harmless(s: TraceStep) {
    && s.verified && (forall f :: f in s.flags ==> !Unexpected(s, f))
    && s.guardian.Some? && s.guardian.value.outcome == Some(Allow)
    && (s.guardian.value.risk == Some(Read) || s.guardian.value.risk == Some(SensitiveRead))
  }

  predicate Uses(s: TraceStep) {
    s.tool && s.toolName.Some?
  }

  /** The platform of a tool is its name up to the first dot. */
  predicate OnPlatform(s: TraceStep, platform: string)
    requires Uses(s)
  {
    && platform <= s.toolName.value && '.' !in platform
    && (|platform| < |s.toolName.value| ==> s.toolName.value[|platform|] == '.')
  }

  lemma StepCosts(s: TraceStep)
    requires Uses(s)
    ensures IsTool(s) && Subtotal(EvidenceOf(s)) == Cost(s) && (Clean(EvidenceOf(s)) <==> Harmless(s))
  {
    hide Platform;
    var e := EvidenceOf(s);
    var flags := set f | f in s.flags && Unexpected(s, f);
    assert e.unexpected == flags;
    assert flags == {} <==> forall f :: f in s.flags ==> !Unexpected(s, f) by {
      if flags == {} { forall f | f in s.flags ensures !Unexpected(s, f) { assert f !in flags; } }
    }
  }

  lemma {:induction false} PlatformEndsAtDot(name: string)
    ensures var p := Platform(name); p <= name && '.' !in p && (|p| < |name| ==> name[|p|] == '.')
  {
    if name != "" && name[0] != '.' {
      PlatformEndsAtDot(name[1..]);
      assert name == [name[0]] + name[1..];
    }
  }

  /** How much breadth and volume add: two points a further platform up to ten, a point a call past three up to five. */
  function Extra(platforms: nat, calls: nat): int {
    (if platforms == 0 then 0 else if platforms > 6 then 10 else 2 * (platforms - 1))
    + (if calls <= 3 then 0 else if calls > 8 then 5 else calls - 3)
  }

  lemma RawFromTheSteps(steps: seq<TraceStep>, worst: TraceStep, platforms: set<string>)
    requires worst in steps && Uses(worst) && forall s :: s in steps && Uses(s) ==> Cost(s) <= Cost(worst)
    requires forall p :: p in platforms <==> exists s :: s in steps && Uses(s) && OnPlatform(s, p)
    ensures var tools := Tools(steps);
      && (AllClean(tools) <==> forall s :: s in steps && Uses(s) ==> Harmless(s))
      && Raw(tools) == Cost(worst) + Extra(|platforms|, |tools|) - (if AllClean(tools) then 5 else 0)
  {
    hide Highest, Platforms, EvidenceOf, Subtotal, Harmless, Cost, AllClean, OnPlatform, Tools;
    HighestIsWorst(steps, worst);
    PlatformsAreNames(steps, platforms);
    CleanIsHarmless(steps);
  }

  /**
   The score of any trace with a tool step: the costliest step, breadth and volume, five points less if every tool
   step was harmless, at most 100; and the band is where 24, 49 and 74 cut.
   */
  lemma ScoreFromTheSteps(steps: seq<TraceStep>, worst: TraceStep, platforms: set<string>)
    requires worst in steps && Uses(worst) && forall s :: s in steps && Uses(s) ==> Cost(s) <= Cost(worst)
    requires forall p :: p in platforms <==> exists s :: s in steps && Uses(s) && OnPlatform(s, p)
    ensures var harmless := forall s :: s in steps && Uses(s) ==> Harmless(s);
      var sum := Cost(worst) + Extra(|platforms|, |Tools(steps)|) - (if harmless then 5 else 0);
      Score(steps) == if sum > 100 then 100 else sum
  {
    RawFromTheSteps(steps, worst, platforms);
    CostIsPositive(worst);
    hide Raw, Cost, Harmless, OnPlatform, Tools, AllClean;
  }

  lemma CostIsPositive(s: TraceStep)
    ensures Cost(s) >= 5
  {
  }

  lemma BandsCut(steps: seq<TraceStep>)
    ensures var band := BandOf(Score(steps));
      && (band == Low <==> Score(steps) < 25) && (band == Guarded <==> 25 <= Score(steps) < 50)
      && (band == High <==> 50 <= Score(steps) < 75) && (band == Critical <==> 75 <= Score(steps))
  {
  }

  lemma HighestIsWorst(steps: seq<TraceStep>, worst: TraceStep)
    requires worst in steps && Uses(worst) && forall s :: s in steps && Uses(s) ==> Cost(s) <= Cost(worst)
    ensures Tools(steps) != [] && Highest(Tools(steps)) == Cost(worst)
  {
    hide Subtotal, EvidenceOf, Cost;
    var tools := Tools(steps);
    StepCosts(worst);
    ToolsOf(steps, EvidenceOf(worst));
    var i :| 0 <= i < |tools| && Subtotal(tools[i]) == Highest(tools);
    ToolsOf(steps, tools[i]);
    var s :| s in steps && IsTool(s) && EvidenceOf(s) == tools[i];
    StepCosts(s);
  }

  lemma PlatformsAreNames(steps: seq<TraceStep>, platforms: set<string>)
    requires forall p :: p in platforms <==> exists s :: s in steps && Uses(s) && OnPlatform(s, p)
    ensures Platforms(Tools(steps)) == platforms
  {
    forall p ensures p in platforms <==> p in Platforms(Tools(steps)) {
      if p in platforms {
        var s :| s in steps && Uses(s) && OnPlatform(s, p);
        PlatformEndsAtDot(s.toolName.value);
        OnePlatform(s, p, Platform(s.toolName.value));
        ToolsOf(steps, EvidenceOf(s));
      }
      if p in Platforms(Tools(steps)) {
        var e :| e in Tools(steps) && e.platform == p;
        ToolsOf(steps, e);
        var s :| s in steps && IsTool(s) && EvidenceOf(s) == e;
        PlatformEndsAtDot(s.toolName.value);
        assert Uses(s) && OnPlatform(s, p);
      }
    }
  }

  lemma OnePlatform(s: TraceStep, p: string, q: string)
    requires Uses(s) && OnPlatform(s, p) && OnPlatform(s, q)
    ensures p == q
  {
    var name := s.toolName.value;
    assert (forall i :: 0 <= i < |p| ==> name[i] != '.') && forall i :: 0 <= i < |q| ==> name[i] != '.' by {
      forall i | 0 <= i < |p| ensures name[i] != '.' { assert name[i] == p[i] && p[i] in p; }
      forall i | 0 <= i < |q| ensures name[i] != '.' { assert name[i] == q[i] && q[i] in q; }
    }
    assert |p| == |q|;
    assert p == name[..|p|] && q == name[..|q|];
  }

  lemma CleanIsHarmless(steps: seq<TraceStep>)
    requires Tools(steps) != []
    ensures AllClean(Tools(steps)) <==> forall s :: s in steps && Uses(s) ==> Harmless(s)
  {
    hide Clean, Harmless, EvidenceOf, Subtotal;
    if AllClean(Tools(steps)) {
      forall s | s in steps && Uses(s) ensures Harmless(s) {
        StepCosts(s);
        ToolsOf(steps, EvidenceOf(s));
      }
    }
    if forall s :: s in steps && Uses(s) ==> Harmless(s) {
      forall e | e in Tools(steps) ensures Clean(e) {
        ToolsOf(steps, e);
        var s :| s in steps && IsTool(s) && EvidenceOf(s) == e;
        StepCosts(s);
      }
    }
  }
}
