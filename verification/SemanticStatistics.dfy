/** The statistics of a trace list that a report carries (evals/selection/semantic/evaluation.ts, summarizeTraces and
latencyStatistics). Percentiles are taken at exact integer ranks. */
module SemanticStatistics {
  import opened Wrappers
  import opened SemanticTraces

  // The trace summary

  datatype Outcomes = Outcomes(selected: nat, abstained: nat, invalid: nat, timeout: nat, providerError: nat)

  datatype Summary = Summary(primary: Outcomes, reversed: Outcomes, shapes: map<Shape, nat>, correct: nat, wrong: nat,
    nonSelection: nat)

  function OutcomeCount(o: Outcomes, outcome: Outcome): nat {
    match outcome
    case Selected => o.selected
    case Abstained => o.abstained
    case Invalid => o.invalid
    case Timeout => o.timeout
    case ProviderError => o.providerError
  }

  function OutcomesOf(s: Summary, order: Order): Outcomes { if order.Primary? then s.primary else s.reversed }

  function OutcomeAdded(o: Outcomes, outcome: Outcome): Outcomes {
    match outcome
    case Selected => o.(selected := o.selected + 1)
    case Abstained => o.(abstained := o.abstained + 1)
    case Invalid => o.(invalid := o.invalid + 1)
    case Timeout => o.(timeout := o.timeout + 1)
    case ProviderError => o.(providerError := o.providerError + 1)
  }

  function ShapeAdded(shapes: map<Shape, nat>, shape: Option<Shape>): map<Shape, nat> {
    if !Truthy(shape) then shapes
    else shapes[shape.value := (if shape.value in shapes then shapes[shape.value] else 0) + 1]
  }

  function Added(s: Summary, t: Trace): Summary {
    Summary(if t.order.Primary? then OutcomeAdded(s.primary, t.outcome) else s.primary,
            if t.order.Primary? then s.reversed else OutcomeAdded(s.reversed, t.outcome),
            ShapeAdded(s.shapes, t.rawOutputShape),
            s.correct + One(t.classification.Correct?), s.wrong + One(t.classification.Wrong?),
            s.nonSelection + One(t.classification.NonSelection?))
  }

  function One(b: bool): nat { if b then 1 else 0 }

  const NoOutcomes := Outcomes(0, 0, 0, 0, 0)

  function SummaryOf(traces: seq<Trace>): Summary {
    if traces == [] then Summary(NoOutcomes, NoOutcomes, map[], 0, 0, 0)
    else Added(SummaryOf(traces[..|traces| - 1]), traces[|traces| - 1])
  }

  method SummarizeTraces(traces: seq<Trace>) returns (summary: Summary)
    ensures summary == SummaryOf(traces)
  {
    summary := Summary(NoOutcomes, NoOutcomes, map[], 0, 0, 0);
    for i := 0 to |traces|
      invariant summary == SummaryOf(traces[..i])
    {
      TakeNext(traces, i);
      summary := SummarizeTrace(summary, traces[i]);
    }
    TakeAll(traces);
  }

  /** The body of its loop. */
  method SummarizeTrace(before: Summary, t: Trace) returns (summary: Summary)
    ensures summary == Added(before, t)
  {
    summary := before;
    if t.order.Primary? {
      summary := summary.(primary := OutcomeAdded(summary.primary, t.outcome));
    } else {
      summary := summary.(reversed := OutcomeAdded(summary.reversed, t.outcome));
    }
    if t.rawOutputShape.Some? && t.rawOutputShape.value != "" {
      var shape := t.rawOutputShape.value;
      summary := summary.(shapes :=
        summary.shapes[shape := (if shape in summary.shapes then summary.shapes[shape] else 0) + 1]);
    }
    match t.classification
    case Correct => summary := summary.(correct := summary.correct + 1);
    case Wrong => summary := summary.(wrong := summary.wrong + 1);
    case NonSelection => summary := summary.(nonSelection := summary.nonSelection + 1);
  }

  /** Every outcome is counted once, under its own order. */
  lemma {:induction false} OutcomesAreCounted(traces: seq<Trace>, order: Order, outcome: Outcome)
    ensures OutcomeCount(OutcomesOf(SummaryOf(traces), order), outcome)
      == Count(traces, (t: Trace) => t.order == order && t.outcome == outcome)
  {
    if traces != [] { OutcomesAreCounted(traces[..|traces| - 1], order, outcome); }
  }

  /** A shape is listed if and only if some trace has it, with the number of those traces. */
  lemma {:induction false} ShapesAreCounted(traces: seq<Trace>, shape: Shape)
    requires shape != ""
    ensures var s, n := SummaryOf(traces).shapes, Count(traces, (t: Trace) => t.rawOutputShape == Some(shape));
            (shape in s <==> n > 0) && (shape in s ==> s[shape] == n)
  {
    if traces != [] { ShapesAreCounted(traces[..|traces| - 1], shape); }
  }

  function Total(o: Outcomes): nat { o.selected + o.abstained + o.invalid + o.timeout + o.providerError }

  lemma OutcomeTotal(o: Outcomes, outcome: Outcome)
    ensures Total(OutcomeAdded(o, outcome)) == Total(o) + 1
  {
  }

  /** Nothing is counted twice or dropped. */
  lemma {:induction false} SummaryConserves(traces: seq<Trace>)
    ensures var s := SummaryOf(traces);
            Total(s.primary) + Total(s.reversed) == |traces| == s.correct + s.wrong + s.nonSelection
  {
    if traces != [] {
      var s, t := SummaryOf(traces[..|traces| - 1]), traces[|traces| - 1];
      SummaryConserves(traces[..|traces| - 1]);
      OutcomeTotal(if t.order.Primary? then s.primary else s.reversed, t.outcome);
    }
  }

  // Latency

  function Elapsed(traces: seq<Trace>): seq<int> {
    if traces == [] then []
    else
      var t := traces[|traces| - 1];
      Elapsed(traces[..|traces| - 1]) + (if t.elapsedMs.Some? then [t.elapsedMs.value] else [])
  }

  function InsertValue(x: int, s: seq<int>): seq<int> {
    if s == [] || x < s[0] then [x] + s else [s[0]] + InsertValue(x, s[1..])
  }

  /** sort((left, right) => left - right) */
  function SortValues(s: seq<int>): seq<int> {
    if s == [] then [] else InsertValue(s[|s| - 1], SortValues(s[..|s| - 1]))
  }

  predicate Rising(s: seq<int>) { forall i, j :: 0 <= i < j < |s| ==> s[i] <= s[j] }

  lemma {:induction false} InsertValueKeeps(x: int, s: seq<int>)
    ensures multiset(InsertValue(x, s)) == multiset(s) + multiset{x} && |InsertValue(x, s)| == |s| + 1
  {
    if s != [] && x >= s[0] {
      InsertValueKeeps(x, s[1..]);
      assert s == [s[0]] + s[1..];
    }
  }

  lemma {:induction false} InsertValueRises(x: int, s: seq<int>)
    requires Rising(s)
    ensures Rising(InsertValue(x, s)) && InsertValue(x, s)[0] == if s == [] || x < s[0] then x else s[0]
  {
    if s != [] && x >= s[0] { InsertValueRises(x, s[1..]); }
  }

  lemma {:induction false} SortValuesSorts(s: seq<int>)
    ensures multiset(SortValues(s)) == multiset(s) && |SortValues(s)| == |s| && Rising(SortValues(s))
  {
    if s != [] {
      SortValuesSorts(s[..|s| - 1]);
      InsertValueKeeps(s[|s| - 1], SortValues(s[..|s| - 1]));
      InsertValueRises(s[|s| - 1], SortValues(s[..|s| - 1]));
      assert s == s[..|s| - 1] + [s[|s| - 1]];
    }
  }

  /** Math.max(0, Math.ceil(percent / 100 * n) - 1) */
  function NearestRank(percent: nat, n: nat): (r: nat)
    requires 1 <= percent <= 100 && n > 0
    ensures r < n
  {
    (percent * n + 99) / 100 - 1
  }

  datatype Latency = Latency(minMs: int, p50Ms: int, p95Ms: int, maxMs: int)

  function LatencyOf(traces: seq<Trace>): Latency {
    var values := Elapsed(traces);
    if values == [] then Latency(0, 0, 0, 0)
    else
      SortValuesSorts(values);
      var sorted := SortValues(values);
      Latency(sorted[0], sorted[NearestRank(50, |values|)], sorted[NearestRank(95, |values|)], sorted[|values| - 1])
  }

  lemma {:induction false} NoTimes(traces: seq<Trace>)
    requires forall t :: t in traces ==> t.elapsedMs.None?
    ensures Elapsed(traces) == []
  {
    if traces != [] { NoTimes(traces[..|traces| - 1]); }
  }

  method LatencyStatistics(traces: seq<Trace>) returns (r: Latency)
    ensures r == LatencyOf(traces)
    ensures (forall t :: t in traces ==> t.elapsedMs.None?) ==> r == Latency(0, 0, 0, 0)
  {
    if forall t :: t in traces ==> t.elapsedMs.None? { NoTimes(traces); }
    var values: seq<int> := [];
    for i := 0 to |traces|
      invariant values == Elapsed(traces[..i])
    {
      TakeNext(traces, i);
      if traces[i].elapsedMs.Some? { values := values + [traces[i].elapsedMs.value]; }
    }
    TakeAll(traces);
    if |values| == 0 {
      return Latency(0, 0, 0, 0);
    }
    SortValuesSorts(values);
    var sorted := SortValues(values);
    r := Latency(sorted[0], sorted[NearestRank(50, |sorted|)], sorted[NearestRank(95, |sorted|)], sorted[|sorted| - 1]);
  }

  /** How many values are at most x. */
  function AtMost(s: seq<int>, x: int): nat { if s == [] then 0 else AtMost(s[..|s| - 1], x) + One(s[|s| - 1] <= x) }

  /** How many values are below x. */
  function Below(s: seq<int>, x: int): nat { if s == [] then 0 else Below(s[..|s| - 1], x) + One(s[|s| - 1] < x) }

  lemma {:induction false} CountsFront(a: int, s: seq<int>, x: int)
    ensures AtMost([a] + s, x) == AtMost(s, x) + One(a <= x) && Below([a] + s, x) == Below(s, x) + One(a < x)
  {
    if s == [] {
      assert ([a] + s)[..0] == [];
    } else {
      CountsFront(a, s[..|s| - 1], x);
      assert ([a] + s)[..|s|] == [a] + s[..|s| - 1];
    }
  }

  lemma {:induction false} InsertCounts(a: int, s: seq<int>, x: int)
    ensures AtMost(InsertValue(a, s), x) == AtMost(s, x) + One(a <= x)
      && Below(InsertValue(a, s), x) == Below(s, x) + One(a < x)
  {
    if s == [] || a < s[0] {
      CountsFront(a, s, x);
    } else {
      InsertCounts(a, s[1..], x);
      CountsFront(s[0], InsertValue(a, s[1..]), x);
      CountsFront(s[0], s[1..], x);
      assert s == [s[0]] + s[1..];
    }
  }

  lemma {:induction false} SortCounts(s: seq<int>, x: int)
    ensures AtMost(SortValues(s), x) == AtMost(s, x) && Below(SortValues(s), x) == Below(s, x)
  {
    if s != [] {
      SortCounts(s[..|s| - 1], x);
      InsertCounts(s[|s| - 1], SortValues(s[..|s| - 1]), x);
    }
  }

  /** In a rising list, a value at index i has more than i values up to it and at most i below it. */
  lemma {:induction false} RisingCounts(s: seq<int>, i: nat)
    requires Rising(s) && i < |s|
    ensures AtMost(s, s[i]) >= i + 1 && Below(s, s[i]) <= i
  {
    if i < |s| - 1 {
      RisingCounts(s[..|s| - 1], i);
    } else {
      AllCounted(s, s[i]);
    }
  }

  lemma {:induction false} AllCounted(s: seq<int>, x: int)
    requires forall j :: 0 <= j < |s| ==> s[j] <= x
    ensures AtMost(s, x) == |s| && (s != [] && s[|s| - 1] >= x ==> Below(s, x) <= |s| - 1)
  {
    if s != [] {
      AllCounted(s[..|s| - 1], x);
      BelowBound(s[..|s| - 1], x);
    }
  }

  lemma {:induction false} BelowBound(s: seq<int>, x: int)
    ensures Below(s, x) <= |s|
  {
    if s != [] { BelowBound(s[..|s| - 1], x); }
  }

  /** The nearest-rank percentile of the values: at least percent of them are at most it, and less than percent
  below. */
  ghost predicate IsPercentile(values: seq<int>, percent: nat, x: int) {
    && x in values
    && 100 * AtMost(values, x) >= percent * |values|
    && 100 * Below(values, x) < percent * |values|
  }

  lemma RankIsPercentile(values: seq<int>, percent: nat)
    requires values != [] && 1 <= percent <= 100
    ensures |SortValues(values)| == |values|
    ensures IsPercentile(values, percent, SortValues(values)[NearestRank(percent, |values|)])
  {
    SortValuesSorts(values);
    var sorted, i := SortValues(values), NearestRank(percent, |values|);
    RisingCounts(sorted, i);
    SortCounts(values, sorted[i]);
    assert sorted[i] in multiset(values);
    RankBounds(percent, |values|);
  }

  lemma RankBounds(percent: nat, n: nat)
    requires 1 <= percent <= 100 && n > 0
    ensures percent * n <= 100 * (NearestRank(percent, n) + 1) < percent * n + 100
  {
  }

  /** The latency of the traces with a time: its extremes bound every one of them, and its percentiles are nearest-rank
  percentiles, whatever the order of the traces. */
  lemma LatencyIsExact(traces: seq<Trace>)
    requires Elapsed(traces) != []
    ensures var v, l := Elapsed(traces), LatencyOf(traces);
            && l.minMs in v && l.maxMs in v && (forall x :: x in v ==> l.minMs <= x <= l.maxMs)
            && IsPercentile(v, 50, l.p50Ms) && IsPercentile(v, 95, l.p95Ms)
  {
    var v := Elapsed(traces);
    SortValuesSorts(v);
    RankIsPercentile(v, 50);
    RankIsPercentile(v, 95);
    ExtremesBound(v, SortValues(v));
  }

  lemma ExtremesBound(v: seq<int>, sorted: seq<int>)
    requires v != [] && multiset(sorted) == multiset(v) && |sorted| == |v| && Rising(sorted)
    ensures sorted[0] in v && sorted[|v| - 1] in v && forall x :: x in v ==> sorted[0] <= x <= sorted[|v| - 1]
  {
    assert sorted[0] in multiset(v) && sorted[|v| - 1] in multiset(v);
    forall x | x in v ensures sorted[0] <= x <= sorted[|v| - 1] {
      assert x in multiset(sorted);
      var i :| 0 <= i < |sorted| && sorted[i] == x;
    }
  }
}
