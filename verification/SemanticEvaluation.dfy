/** The semantic selection gate: the live evaluator, and the rebuild of its report from a persisted journal
(evals/selection/semantic/evaluation.ts). Rates and percentiles are exact reals. */
module SemanticEvaluation {
  import opened Wrappers
  import opened SemanticTraces
  import opened SemanticStatistics

  /** A case with the evidence ids of its candidates; titles, contents and the query only feed the selector. */
  datatype Case = Case(caseId: string, expected: string, candidates: seq<string>)

  /** The answer the selector happens to give for the case at an index in one order. */
  type Selector = (nat, Order) -> Answer

  datatype Classified = Classified(selectedId: Option<string>, result: Option<Answer>)

  function Classify(candidates: seq<string>, answer: Answer): Classified {
    if |candidates| == 1 then Classified(Some(candidates[0]), None)
    else if !answer.outcome.Selected? then Classified(None, Some(answer))
    else if answer.selection.Choice? && Position(answer.selection.tag) < |candidates|
    then Classified(Some(candidates[Position(answer.selection.tag)]), Some(answer))
    else Classified(None, Some(answer.(selection := Abstain, outcome := Invalid)))
  }

  function CreateTrace(c: Case, order: Order, candidates: seq<string>, k: Classified): Trace {
    var outcome := if k.result.Some? then k.result.value.outcome else Selected;
    Trace(c.caseId, order, |candidates|, WithLabels(candidates),
          outcome,
          if outcome.Selected? && k.result.Some? then Some(k.result.value.selection) else None,
          if Truthy(k.selectedId) then k.selectedId else None,
          c.expected,
          if Truthy(k.selectedId) then if k.selectedId.value == c.expected then Correct else Wrong else NonSelection,
          if k.result.Some? then Some(k.result.value.elapsedMs) else None,
          if k.result.Some? then k.result.value.rawOutputShape else None)
  }

  // Counters

  datatype Counters = Counters(
    correct: nat, wrong: nat, selected: nat, abstained: nat,
    multiCorrect: nat, multiWrong: nat, robustCorrect: nat, inducedWrong: nat)

  const Zero := Counters(0, 0, 0, 0, 0, 0, 0, 0)

  function Plus(a: Counters, b: Counters): Counters {
    Counters(a.correct + b.correct, a.wrong + b.wrong, a.selected + b.selected, a.abstained + b.abstained,
             a.multiCorrect + b.multiCorrect, a.multiWrong + b.multiWrong,
             a.robustCorrect + b.robustCorrect, a.inducedWrong + b.inducedWrong)
  }

  predicate Multi(c: Case) { |c.candidates| >= 2 }

  /** What one case contributes, from the evidence selected in each order. */
  function CaseTally(c: Case, primary: Option<string>, alternate: Option<string>): Counters {
    var gold := Some(c.expected);
    Counters(One(Truthy(primary) && primary == gold), One(Truthy(primary) && primary != gold), One(Truthy(primary)),
      One(!Truthy(primary)),
             One(Multi(c) && primary == gold), One(Multi(c) && Truthy(primary) && primary != gold),
             One(Multi(c) && primary == gold && alternate == gold),
             One(Multi(c) && (primary == gold || primary.None?) && alternate.Some? && alternate != gold))
  }

  function MultiCount(cases: seq<Case>): nat {
    if cases == [] then 0 else MultiCount(cases[..|cases| - 1]) + One(Multi(cases[|cases| - 1]))
  }

  // Reports

  datatype Metrics = Metrics(
    correctSelectionRate: real, wrongSelectionRate: real, answerableCoverage: real, selectedEvidencePrecision: real,
    abstentionRate: real, invalidSelectorOutputRate: real, providerErrorRate: real, timeoutRate: real,
    multiCandidateSemanticAccuracy: real, multiCandidateWrongSelectionRate: real,
    orderRobustCorrectSelectionRate: real, orderInducedWrongSelectionRate: real)

  function Rate(numerator: nat, denominator: nat): real {
    numerator as real / (if denominator >= 1 then denominator else 1) as real
  }

  function MetricsOf(k: Counters, cases: nat, multi: nat, traces: seq<Trace>): Metrics {
    Metrics(Rate(k.correct, cases), Rate(k.wrong, cases), Rate(k.selected, cases), Rate(k.correct, k.selected),
      Rate(k.abstained, cases),
            Rate(Count(traces, (t: Trace) => t.outcome.Invalid?), |traces|),
            Rate(Count(traces, (t: Trace) => t.outcome.ProviderError?), |traces|),
            Rate(Count(traces, (t: Trace) => t.outcome.Timeout?), |traces|),
            Rate(k.multiCorrect, multi), Rate(k.multiWrong, multi), Rate(k.robustCorrect, multi),
              Rate(k.inducedWrong, multi))
  }

  function GatePassed(m: Metrics): bool {
    && m.correctSelectionRate >= 0.98
    && m.wrongSelectionRate == 0.0
    && m.answerableCoverage >= 0.95
    && m.selectedEvidencePrecision >= 0.98
    && m.multiCandidateWrongSelectionRate == 0.0
    && m.invalidSelectorOutputRate == 0.0
    && m.orderInducedWrongSelectionRate == 0.0
  }

  datatype Report = Report(metrics: Metrics, traces: seq<Trace>, summary: Summary, latency: Latency, gatePassed: bool)

  function ReportOf(k: Counters, cases: seq<Case>, traces: seq<Trace>): Report {
    var m := MetricsOf(k, |cases|, MultiCount(cases), traces);
    Report(m, traces, SummaryOf(traces), LatencyOf(traces), GatePassed(m))
  }

  // The live evaluator

  function LiveClassified(c: Case, i: nat, order: Order, select: Selector): Classified {
    Classify(InOrder(c.candidates, order), select(i, order))
  }

  function LiveTrace(c: Case, i: nat, order: Order, select: Selector): Trace {
    CreateTrace(c, order, InOrder(c.candidates, order), LiveClassified(c, i, order, select))
  }

  function LiveTraces(cases: seq<Case>, select: Selector): seq<Trace> {
    if cases == [] then []
    else
      var i := |cases| - 1;
      LiveTraces(cases[..i], select)
      + (if Multi(cases[i]) then [LiveTrace(cases[i], i, Primary, select), LiveTrace(cases[i], i, Reversed, select)]
        else [])
  }

  function LiveCase(c: Case, i: nat, select: Selector): Counters {
    CaseTally(c, LiveClassified(c, i, Primary, select).selectedId, LiveClassified(c, i, Reversed, select).selectedId)
  }

  function LiveTally(cases: seq<Case>, select: Selector): Counters {
    if cases == [] then Zero
    else
      var i := |cases| - 1;
      Plus(LiveTally(cases[..i], select), LiveCase(cases[i], i, select))
  }

  function LiveReport(cases: seq<Case>, select: Selector): Report {
    ReportOf(LiveTally(cases, select), cases, LiveTraces(cases, select))
  }

  lemma LiveStep(cases: seq<Case>, select: Selector, i: nat)
    requires i < |cases|
    ensures LiveTally(cases[..i + 1], select) == Plus(LiveTally(cases[..i], select), LiveCase(cases[i], i, select))
    ensures LiveTraces(cases[..i + 1], select)
         == LiveTraces(cases[..i], select)
            + (if Multi(cases[i]) then
              [LiveTrace(cases[i], i, Primary, select), LiveTrace(cases[i], i, Reversed, select)] else [])
    ensures MultiCount(cases[..i + 1]) == MultiCount(cases[..i]) + One(Multi(cases[i]))
  {
    assert cases[..i + 1][..i] == cases[..i];
  }

  /** The counter updates of one case; alternate is only looked at for a multi-candidate case. */
  method CountCase(k: Counters, c: Case, primary: Option<string>, alternate: Option<string>) returns (r: Counters)
    ensures r == Plus(k, CaseTally(c, primary, alternate))
  {
    r := k;
    var gold := Some(c.expected);
    if Truthy(primary) {
      r := r.(selected := r.selected + 1);
      if primary == gold { r := r.(correct := r.correct + 1); } else { r := r.(wrong := r.wrong + 1); }
    } else {
      r := r.(abstained := r.abstained + 1);
    }
    if |c.candidates| < 2 { return; }
    if primary == gold { r := r.(multiCorrect := r.multiCorrect + 1); }
    if Truthy(primary) && primary != gold { r := r.(multiWrong := r.multiWrong + 1); }
    if primary == gold && alternate == gold { r := r.(robustCorrect := r.robustCorrect + 1); }
    if (primary == gold || primary.None?) && alternate.Some? && alternate != gold {
      r := r.(inducedWrong := r.inducedWrong + 1);
    }
  }

  method RunEvaluation(cases: seq<Case>, select: Selector) returns (report: Report, semanticCalls: nat)
    ensures report == LiveReport(cases, select)
    ensures semanticCalls == |report.traces| == 2 * MultiCount(cases)
    ensures Measured(report.metrics, cases, LivePicks(cases, select), false, report.traces)
    ensures report.gatePassed <==> Passes(cases, LivePicks(cases, select), false, report.traces)
  {
    LiveReportIsExact(cases, select);
    semanticCalls := 0;
    var k := Zero;
    var multi := 0;
    var traces := [];
    for i := 0 to |cases|
      invariant k == LiveTally(cases[..i], select)
      invariant traces == LiveTraces(cases[..i], select)
      invariant multi == MultiCount(cases[..i])
      invariant semanticCalls == |traces| == 2 * multi
    {
      LiveStep(cases, select, i);
      var c := cases[i];
      var primary := Classify(c.candidates, select(i, Primary));
      var reversed := ReversedIds(c.candidates);
      var alternate := Classify(reversed, select(i, Reversed));
      if |c.candidates| >= 2 {
        semanticCalls := semanticCalls + 2;
        multi := multi + 1;
        traces := traces + [CreateTrace(c, Primary, c.candidates, primary),
          CreateTrace(c, Reversed, reversed, alternate)];
      }
      k := CountCase(k, c, primary.selectedId, alternate.selectedId);
    }
    TakeAll(cases);
    var metrics := MetricsOf(k, |cases|, multi, traces);
    var summary := SummarizeTraces(traces);
    var latency := LatencyStatistics(traces);
    report := Report(metrics, traces, summary, latency, GatePassed(metrics));
  }

  // What the counters count

  /** The evidence selected for a case in each order. */
  type Picks = (nat, Order) -> Option<string>

  /** The candidate that an answer names, if it names one: the label's place in the order the candidates were shown. */
  function Chosen(c: Case, order: Order, answer: Answer): Option<string> {
    var n := |c.candidates|;
    if n == 1 then Some(c.candidates[0])
    else
      match (answer.outcome, answer.selection)
      case (Selected, Choice(l)) => Named(c.candidates, order, l)
      case _ => None
  }

  function LivePicks(cases: seq<Case>, select: Selector): Picks {
    (i: nat, order: Order) => if i < |cases| then Chosen(cases[i], order, select(i, order)) else None
  }

  /** The order gets the case right. */
  predicate Right(cases: seq<Case>, picks: Picks, i: nat, order: Order)
    requires i < |cases|
  {
    picks(i, order) == Some(cases[i].expected)
  }

  /** The order selects nothing; an empty id counts as nothing. */
  predicate Silent(picks: Picks, i: nat, order: Order) { picks(i, order).None? || picks(i, order).value == "" }

  /** The order selects a candidate, but not the expected one. */
  predicate Mistaken(cases: seq<Case>, picks: Picks, i: nat, order: Order)
    requires i < |cases|
  {
    !Silent(picks, i, order) && !Right(cases, picks, i, order)
  }

  /** The primary order gets it right, or selects nothing, and the reversed one selects something else. */
  predicate Misled(cases: seq<Case>, picks: Picks, i: nat)
    requires i < |cases|
  {
    && (Right(cases, picks, i, Primary) || picks(i, Primary).None?)
    && picks(i, Reversed).Some? && !Right(cases, picks, i, Reversed)
  }

  /** A case of one candidate, where such a case is taken as right whatever was expected. */
  predicate Forgiven(cases: seq<Case>, forgiven: bool, i: nat)
    requires i < |cases|
  {
    forgiven && |cases[i].candidates| == 1
  }

  datatype Counter =
    CountCorrect | CountWrong | CountSelected | CountAbstained | CountMultiCorrect | CountMultiWrong | CountRobust
    | CountMisled

  function Value(k: Counters, which: Counter): nat {
    match which
    case CountCorrect => k.correct
    case CountWrong => k.wrong
    case CountSelected => k.selected
    case CountAbstained => k.abstained
    case CountMultiCorrect => k.multiCorrect
    case CountMultiWrong => k.multiWrong
    case CountRobust => k.robustCorrect
    case CountMisled => k.inducedWrong
  }

  /** Which cases a counter counts. */
  predicate Counts(which: Counter, cases: seq<Case>, picks: Picks, forgiven: bool, i: nat)
    requires i < |cases|
  {
    match which
    case CountCorrect =>
      Forgiven(cases, forgiven, i) || (Right(cases, picks, i, Primary) && !Silent(picks, i, Primary))
    case CountWrong => !Forgiven(cases, forgiven, i) && Mistaken(cases, picks, i, Primary)
    case CountSelected => Forgiven(cases, forgiven, i) || !Silent(picks, i, Primary)
    case CountAbstained => !Forgiven(cases, forgiven, i) && Silent(picks, i, Primary)
    case CountMultiCorrect => |cases[i].candidates| >= 2 && Right(cases, picks, i, Primary)
    case CountMultiWrong => |cases[i].candidates| >= 2 && Mistaken(cases, picks, i, Primary)
    case CountRobust =>
      |cases[i].candidates| >= 2 && Right(cases, picks, i, Primary) && Right(cases, picks, i, Reversed)
    case CountMisled => |cases[i].candidates| >= 2 && Misled(cases, picks, i)
  }

  function CasesOf(which: Counter, cases: seq<Case>, picks: Picks, forgiven: bool, n: nat): set<nat>
    requires n <= |cases|
  {
    set i: nat | i < n && Counts(which, cases, picks, forgiven, i)
  }

  /** Every counter is the number of the cases that it counts. */
  ghost predicate Counted(k: Counters, cases: seq<Case>, picks: Picks, forgiven: bool, n: nat)
    requires n <= |cases|
  {
    forall which: Counter :: Value(k, which) == |CasesOf(which, cases, picks, forgiven, n)|
  }

  /** The contribution of case n. */
  ghost predicate Adds(c: Counters, cases: seq<Case>, picks: Picks, forgiven: bool, n: nat)
    requires n < |cases|
  {
    forall which: Counter :: Value(c, which) == One(Counts(which, cases, picks, forgiven, n))
  }

  lemma NothingCounted(cases: seq<Case>, picks: Picks, forgiven: bool)
    ensures Counted(Zero, cases, picks, forgiven, 0)
  {
    forall which: Counter ensures Value(Zero, which) == |CasesOf(which, cases, picks, forgiven, 0)| {
      assert CasesOf(which, cases, picks, forgiven, 0) == {};
    }
  }

  lemma CountedStep(k: Counters, c: Counters, after: Counters, cases: seq<Case>, picks: Picks, forgiven: bool, n: nat)
    requires n < |cases| && Counted(k, cases, picks, forgiven, n) && after == Plus(k, c)
    requires Adds(c, cases, picks, forgiven, n)
    ensures Counted(after, cases, picks, forgiven, n + 1)
  {
    forall which: Counter
      ensures Value(after, which) == |CasesOf(which, cases, picks, forgiven, n + 1)|
    {
      GrowsBy(CasesOf(which, cases, picks, forgiven, n), CasesOf(which, cases, picks, forgiven, n + 1), n,
        Counts(which, cases, picks, forgiven, n));
      assert Value(after, which) == Value(k, which) + Value(c, which);
    }
  }

  /** The trace of an answer about several candidates. */
  lemma TraceIsExact(c: Case, i: nat, order: Order, select: Selector)
    requires |c.candidates| >= 2
    ensures var t, a, chosen := LiveTrace(c, i, order, select), select(i, order), Chosen(c, order, select(i, order));
            && t.caseId == c.caseId && t.order == order && t.expectedEvidenceId == c.expected
            && t.candidateCount == |c.candidates| && Shows(c.candidates, order, t.candidates)
            && t.outcome == (if a.outcome.Selected? && chosen.None? then Invalid else a.outcome)
            && t.selection == (if t.outcome.Selected? then Some(a.selection) else None)
            && t.mappedEvidenceId == (if chosen == Some("") then None else chosen)
            && (t.classification.Correct? <==> chosen == Some(c.expected) && c.expected != "")
            && (t.classification.Wrong? <==> chosen.Some? && chosen.value != "" && chosen.value != c.expected)
            && t.elapsedMs == Some(a.elapsedMs) && t.rawOutputShape == a.rawOutputShape
  {
    ClassifiedIsChosen(c, i, order, select);
    ShowsExactly(c.candidates, order, WithLabels(InOrder(c.candidates, order)));
  }

  lemma ClassifiedIsChosen(c: Case, i: nat, order: Order, select: Selector)
    ensures LiveClassified(c, i, order, select).selectedId == Chosen(c, order, select(i, order))
  {
  }

  lemma LiveCaseCounts(cases: seq<Case>, select: Selector, i: nat, which: Counter)
    requires i < |cases|
    ensures Value(LiveCase(cases[i], i, select), which)
         == One(Counts(which, cases, LivePicks(cases, select), false, i))
  {
    ClassifiedIsChosen(cases[i], i, Primary, select);
    ClassifiedIsChosen(cases[i], i, Reversed, select);
  }

  lemma LiveCaseAdds(cases: seq<Case>, select: Selector, i: nat)
    requires i < |cases|
    ensures Adds(LiveCase(cases[i], i, select), cases, LivePicks(cases, select), false, i)
  {
    var c := LiveCase(cases[i], i, select);
    forall which: Counter ensures Value(c, which) == One(Counts(which, cases, LivePicks(cases, select), false, i)) {
      LiveCaseCounts(cases, select, i, which);
    }
  }

  lemma {:induction false} LiveIsCounted(cases: seq<Case>, select: Selector, n: nat)
    requires n <= |cases|
    ensures Counted(LiveTally(cases[..n], select), cases, LivePicks(cases, select), false, n)
  {
    if n == 0 {
      NothingCounted(cases, LivePicks(cases, select), false);
    } else {
      LiveIsCounted(cases, select, n - 1);
      LiveCountedNext(cases, select, n - 1);
    }
  }

  lemma LiveCountedNext(cases: seq<Case>, select: Selector, n: nat)
    requires n < |cases| && Counted(LiveTally(cases[..n], select), cases, LivePicks(cases, select), false, n)
    ensures Counted(LiveTally(cases[..n + 1], select), cases, LivePicks(cases, select), false, n + 1)
  {
    LiveStep(cases, select, n);
    LiveCaseAdds(cases, select, n);
    CountedStep(LiveTally(cases[..n], select), LiveCase(cases[n], n, select), LiveTally(cases[..n + 1], select), cases,
      LivePicks(cases, select), false, n);
  }

  // What the rates and the verdict say

  predicate IsRate(r: real, numerator: nat, denominator: nat) {
    r * (if denominator == 0 then 1.0 else denominator as real) == numerator as real
  }

  lemma RateIsExact(numerator: nat, denominator: nat)
    ensures IsRate(Rate(numerator, denominator), numerator, denominator)
  {
  }

  function Ending(traces: seq<Trace>, outcome: Outcome): set<nat> {
    set x: nat | x < |traces| && traces[x].outcome == outcome
  }

  lemma {:induction false} CountIsSize(traces: seq<Trace>, outcome: Outcome, p: Trace -> bool)
    requires forall t :: p(t) <==> t.outcome == outcome
    ensures Count(traces, p) == |Ending(traces, outcome)|
  {
    if traces != [] {
      var n := |traces| - 1;
      CountIsSize(traces[..n], outcome, p);
      GrowsBy(Ending(traces[..n], outcome), Ending(traces, outcome), n, p(traces[n]));
    }
  }

  function Multis(cases: seq<Case>): set<nat> { set i: nat | i < |cases| && |cases[i].candidates| >= 2 }

  lemma {:induction false} MultisAreCounted(cases: seq<Case>)
    ensures MultiCount(cases) == |Multis(cases)|
  {
    if cases != [] {
      var n := |cases| - 1;
      MultisAreCounted(cases[..n]);
      GrowsBy(Multis(cases[..n]), Multis(cases), n, |cases[n].candidates| >= 2);
    }
  }

  /** The metrics are these numbers of cases and of traces over these others. */
  ghost predicate Measured(m: Metrics, cases: seq<Case>, picks: Picks, forgiven: bool, traces: seq<Trace>) {
    && IsRate(m.correctSelectionRate, Size(CountCorrect, cases, picks, forgiven), |cases|)
    && IsRate(m.wrongSelectionRate, Size(CountWrong, cases, picks, forgiven), |cases|)
    && IsRate(m.answerableCoverage, Size(CountSelected, cases, picks, forgiven), |cases|)
    && IsRate(m.selectedEvidencePrecision, Size(CountCorrect, cases, picks, forgiven),
         Size(CountSelected, cases, picks, forgiven))
    && IsRate(m.abstentionRate, Size(CountAbstained, cases, picks, forgiven), |cases|)
    && IsRate(m.invalidSelectorOutputRate, |Ending(traces, Invalid)|, |traces|)
    && IsRate(m.providerErrorRate, |Ending(traces, ProviderError)|, |traces|)
    && IsRate(m.timeoutRate, |Ending(traces, Timeout)|, |traces|)
    && IsRate(m.multiCandidateSemanticAccuracy, Size(CountMultiCorrect, cases, picks, forgiven), |Multis(cases)|)
    && IsRate(m.multiCandidateWrongSelectionRate, Size(CountMultiWrong, cases, picks, forgiven), |Multis(cases)|)
    && IsRate(m.orderRobustCorrectSelectionRate, Size(CountRobust, cases, picks, forgiven), |Multis(cases)|)
    && IsRate(m.orderInducedWrongSelectionRate, Size(CountMisled, cases, picks, forgiven), |Multis(cases)|)
  }

  function Size(which: Counter, cases: seq<Case>, picks: Picks, forgiven: bool): nat {
    |CasesOf(which, cases, picks, forgiven, |cases|)|
  }

  lemma CountedIsMeasured(k: Counters, cases: seq<Case>, picks: Picks, forgiven: bool, traces: seq<Trace>)
    requires Counted(k, cases, picks, forgiven, |cases|)
    ensures Measured(MetricsOf(k, |cases|, MultiCount(cases), traces), cases, picks, forgiven, traces)
  {
    var n, multi := |cases|, MultiCount(cases);
    var m := MetricsOf(k, n, multi, traces);
    MultisAreCounted(cases);
    CountIsSize(traces, Invalid, (t: Trace) => t.outcome.Invalid?);
    CountIsSize(traces, ProviderError, (t: Trace) => t.outcome.ProviderError?);
    CountIsSize(traces, Timeout, (t: Trace) => t.outcome.Timeout?);
    ValuesAreSizes(k, cases, picks, forgiven);
    forall a: nat, b: nat ensures IsRate(Rate(a, b), a, b) {
      RateIsExact(a, b);
    }
  }

  lemma ValuesAreSizes(k: Counters, cases: seq<Case>, picks: Picks, forgiven: bool)
    requires Counted(k, cases, picks, forgiven, |cases|)
    ensures k.correct == Size(CountCorrect, cases, picks, forgiven)
    ensures k.wrong == Size(CountWrong, cases, picks, forgiven)
    ensures k.selected == Size(CountSelected, cases, picks, forgiven)
    ensures k.abstained == Size(CountAbstained, cases, picks, forgiven)
    ensures k.multiCorrect == Size(CountMultiCorrect, cases, picks, forgiven)
    ensures k.multiWrong == Size(CountMultiWrong, cases, picks, forgiven)
    ensures k.robustCorrect == Size(CountRobust, cases, picks, forgiven)
    ensures k.inducedWrong == Size(CountMisled, cases, picks, forgiven)
  {
    assert Value(k, CountCorrect) == Size(CountCorrect, cases, picks, forgiven);
    assert Value(k, CountWrong) == Size(CountWrong, cases, picks, forgiven);
    assert Value(k, CountSelected) == Size(CountSelected, cases, picks, forgiven);
    assert Value(k, CountAbstained) == Size(CountAbstained, cases, picks, forgiven);
    assert Value(k, CountMultiCorrect) == Size(CountMultiCorrect, cases, picks, forgiven);
    assert Value(k, CountMultiWrong) == Size(CountMultiWrong, cases, picks, forgiven);
    assert Value(k, CountRobust) == Size(CountRobust, cases, picks, forgiven);
    assert Value(k, CountMisled) == Size(CountMisled, cases, picks, forgiven);
  }

  /** What it takes to pass: at least one case, 98 of 100 right, none wrong, none misled by the order of its candidates,
  and no answer that could not be read. */
  ghost predicate Passes(cases: seq<Case>, picks: Picks, forgiven: bool, traces: seq<Trace>) {
    && cases != [] && 100 * Size(CountCorrect, cases, picks, forgiven) >= 98 * |cases|
    && (forall i: nat :: i < |cases| && Mistaken(cases, picks, i, Primary) ==> Forgiven(cases, forgiven, i))
    && (forall i: nat :: i < |cases| && |cases[i].candidates| >= 2 ==> !Misled(cases, picks, i))
    && (forall x :: 0 <= x < |traces| ==> !traces[x].outcome.Invalid?)
  }

  /** The rate in per cent, without dividing. */
  lemma RateAtLeast(r: real, a: nat, b: nat, percent: nat)
    requires IsRate(r, a, b)
    ensures r * 100.0 >= percent as real <==> 100 * a >= percent * (if b == 0 then 1 else b)
  {
    var n: nat := if b == 0 then 1 else b;
    TimesGrows(r * 100.0, percent as real, n as real);
    TimesMoves(r, n as real, a as real);
    assert (percent as real) * (n as real) == (percent * n) as real;
    assert (a as real) * 100.0 == (100 * a) as real;
  }

  lemma TimesMoves(r: real, n: real, a: real)
    requires r * n == a
    ensures (r * 100.0) * n == a * 100.0
  {
  }

  lemma RateIsZero(r: real, a: nat, b: nat)
    requires IsRate(r, a, b)
    ensures r == 0.0 <==> a == 0
  {
  }

  lemma TimesGrows(r: real, s: real, n: real)
    requires n >= 1.0
    ensures r >= s <==> r * n >= s * n
  {
    assert (r - s) * n == r * n - s * n;
    if r >= s {
      assert (r - s) * n >= 0.0;
    } else {
      assert (s - r) * n > 0.0;
    }
  }

  lemma SelectionsSplit(cases: seq<Case>, picks: Picks, forgiven: bool, n: nat)
    requires n <= |cases|
    ensures |CasesOf(CountCorrect, cases, picks, forgiven, n)| + |CasesOf(CountWrong, cases, picks, forgiven, n)|
         == |CasesOf(CountSelected, cases, picks, forgiven, n)|
  {
    var right := CasesOf(CountCorrect, cases, picks, forgiven, n);
    var wrong := CasesOf(CountWrong, cases, picks, forgiven, n);
    assert right !! wrong;
    assert CasesOf(CountSelected, cases, picks, forgiven, n) == right + wrong;
  }

  lemma CasesSplit(cases: seq<Case>, picks: Picks, forgiven: bool, n: nat)
    requires n <= |cases|
    ensures |CasesOf(CountSelected, cases, picks, forgiven, n)| + |CasesOf(CountAbstained, cases, picks, forgiven, n)|
         == n
  {
    var some := CasesOf(CountSelected, cases, picks, forgiven, n);
    var none := CasesOf(CountAbstained, cases, picks, forgiven, n);
    assert some !! none;
    FirstNumbers(n, some + none);
  }

  lemma MultiWrongIsWrong(cases: seq<Case>, picks: Picks, forgiven: bool, n: nat)
    requires n <= |cases|
    ensures |CasesOf(CountMultiWrong, cases, picks, forgiven, n)| <= |CasesOf(CountWrong, cases, picks, forgiven, n)|
  {
    SubsetIsSmaller(CasesOf(CountMultiWrong, cases, picks, forgiven, n),
                    CasesOf(CountWrong, cases, picks, forgiven, n));
  }

  /** Every case is right, wrong or abstained; a selection is right or wrong; and a wrong multi-candidate case is
  wrong. */
  lemma CountsConserve(cases: seq<Case>, picks: Picks, forgiven: bool)
    ensures Size(CountCorrect, cases, picks, forgiven) + Size(CountWrong, cases, picks, forgiven)
         == Size(CountSelected, cases, picks, forgiven)
    ensures Size(CountSelected, cases, picks, forgiven) + Size(CountAbstained, cases, picks, forgiven) == |cases|
    ensures Size(CountMultiWrong, cases, picks, forgiven) <= Size(CountWrong, cases, picks, forgiven)
  {
    SelectionsSplit(cases, picks, forgiven, |cases|);
    CasesSplit(cases, picks, forgiven, |cases|);
    MultiWrongIsWrong(cases, picks, forgiven, |cases|);
  }

  lemma {:induction false} FirstNumbers(n: nat, s: set<nat>)
    requires forall i: nat :: i in s <==> i < n
    ensures |s| == n
  {
    if n == 0 {
      assert s == {};
    } else {
      FirstNumbers(n - 1, s - {n - 1});
    }
  }

  lemma SubsetIsSmaller(a: set<nat>, b: set<nat>)
    requires a <= b
    ensures |a| <= |b|
  {
    assert b == a + (b - a);
  }

  lemma NoneIsEmpty(which: Counter, cases: seq<Case>, picks: Picks, forgiven: bool)
    ensures Size(which, cases, picks, forgiven) == 0 <==>
              forall i: nat :: i < |cases| ==> !Counts(which, cases, picks, forgiven, i)
  {
    var s := CasesOf(which, cases, picks, forgiven, |cases|);
    if s == {} {
      forall i: nat | i < |cases| ensures !Counts(which, cases, picks, forgiven, i) {
        assert i !in s;
      }
    } else {
      var i :| i in s;
      assert Counts(which, cases, picks, forgiven, i);
    }
  }

  lemma NoneEnds(traces: seq<Trace>, outcome: Outcome)
    ensures |Ending(traces, outcome)| == 0 <==> forall x :: 0 <= x < |traces| ==> traces[x].outcome != outcome
  {
    if Ending(traces, outcome) == {} {
      forall x: nat | x < |traces| ensures traces[x].outcome != outcome {
        assert x !in Ending(traces, outcome);
      }
    } else {
      var x :| x in Ending(traces, outcome);
    }
  }

  lemma GateInNumbers(m: Metrics, cases: seq<Case>, picks: Picks, forgiven: bool, traces: seq<Trace>)
    requires Measured(m, cases, picks, forgiven, traces)
    ensures GatePassed(m) <==>
              && cases != [] && 100 * Size(CountCorrect, cases, picks, forgiven) >= 98 * |cases|
              && Size(CountWrong, cases, picks, forgiven) == 0 && Size(CountMisled, cases, picks, forgiven) == 0
              && |Ending(traces, Invalid)| == 0
  {
    CountsConserve(cases, picks, forgiven);
    RateAtLeast(m.correctSelectionRate, Size(CountCorrect, cases, picks, forgiven), |cases|, 98);
    RateIsZero(m.wrongSelectionRate, Size(CountWrong, cases, picks, forgiven), |cases|);
    RateAtLeast(m.answerableCoverage, Size(CountSelected, cases, picks, forgiven), |cases|, 95);
    RateAtLeast(m.selectedEvidencePrecision, Size(CountCorrect, cases, picks, forgiven),
      Size(CountSelected, cases, picks, forgiven), 98);
    RateIsZero(m.invalidSelectorOutputRate, |Ending(traces, Invalid)|, |traces|);
    RateIsZero(m.multiCandidateWrongSelectionRate, Size(CountMultiWrong, cases, picks, forgiven), |Multis(cases)|);
    RateIsZero(m.orderInducedWrongSelectionRate, Size(CountMisled, cases, picks, forgiven), |Multis(cases)|);
  }

  lemma GateIsExact(m: Metrics, cases: seq<Case>, picks: Picks, forgiven: bool, traces: seq<Trace>)
    requires Measured(m, cases, picks, forgiven, traces)
    ensures GatePassed(m) <==> Passes(cases, picks, forgiven, traces)
  {
    GateInNumbers(m, cases, picks, forgiven, traces);
    NoneIsEmpty(CountWrong, cases, picks, forgiven);
    NoneIsEmpty(CountMisled, cases, picks, forgiven);
    NoneEnds(traces, Invalid);
    assert forall i: nat :: i < |cases| ==>
        (Counts(CountWrong, cases, picks, forgiven, i) <==>
           !Forgiven(cases, forgiven, i) && Mistaken(cases, picks, i, Primary));
    assert forall i: nat :: i < |cases| ==>
        (Counts(CountMisled, cases, picks, forgiven, i) <==>
           |cases[i].candidates| >= 2 && Misled(cases, picks, i));
  }

  /** The live report's rates are numbers of cases over numbers of cases, by what the selector answered; and it passes
  exactly if the answers are good enough. */
  lemma LiveReportIsExact(cases: seq<Case>, select: Selector)
    ensures var r := LiveReport(cases, select);
            && Measured(r.metrics, cases, LivePicks(cases, select), false, r.traces)
            && (r.gatePassed <==> Passes(cases, LivePicks(cases, select), false, r.traces))
  {
    var traces := LiveTraces(cases, select);
    LiveIsCounted(cases, select, |cases|);
    TakeAll(cases);
    CountedIsMeasured(LiveTally(cases, select), cases, LivePicks(cases, select), false, traces);
    GateIsExact(LiveReport(cases, select).metrics, cases, LivePicks(cases, select), false, traces);
  }

  // The rebuild

  /** new Map(cases.map(c => [c.caseId, c])).get(id): a later case hides an earlier one. */
  function Known(cases: seq<Case>, id: string): Option<Case> {
    if cases == [] then None
    else if cases[|cases| - 1].caseId == id then Some(cases[|cases| - 1])
    else Known(cases[..|cases| - 1], id)
  }

  /** matchesExpectedTrace returning undefined. */
  predicate Matches(p: Persisted, c: Case) {
    var t := p.trace;
    && 1 <= p.sequence <= MAX_SAFE_INTEGER
    && t.expectedEvidenceId == c.expected
    && t.candidateCount == |c.candidates|
    && t.candidates == WithLabels(InOrder(c.candidates, t.order))
    && (if t.outcome.Selected? then
          && t.selection.Some? && t.selection != Some(Abstain) && Truthy(t.mappedEvidenceId)
          && Find(t.candidates, t.selection.value) == t.mappedEvidenceId
          && t.classification == (if t.mappedEvidenceId.value == c.expected then Correct else Wrong)
        else t.classification.NonSelection? && t.mappedEvidenceId.None?)
    && (t.elapsedMs.Some? ==> t.elapsedMs.value >= 0)
  }

  /** The same, read off the case: the candidates as they were shown, and for a selection the one it names. */
  lemma MatchesExactly(p: Persisted, c: Case)
    ensures Matches(p, c) <==>
              var t := p.trace;
              && 1 <= p.sequence <= 0x1F_FFFF_FFFF_FFFF
              && t.expectedEvidenceId == c.expected && t.candidateCount == |c.candidates|
              && Shows(c.candidates, t.order, t.candidates)
              && (t.outcome.Selected? ==>
                    && t.selection.Some? && t.selection.value.Choice? && t.mappedEvidenceId.Some?
                    && t.mappedEvidenceId.value != ""
                    && Named(c.candidates, t.order, t.selection.value.tag) == t.mappedEvidenceId
                    && (t.classification.Correct? <==> t.mappedEvidenceId.value == c.expected)
                    && (t.classification.Wrong? <==> t.mappedEvidenceId.value != c.expected))
              && (!t.outcome.Selected? ==> t.classification.NonSelection? && t.mappedEvidenceId.None?)
              && (t.elapsedMs.Some? ==> t.elapsedMs.value >= 0)
  {
    var t := p.trace;
    ShowsExactly(c.candidates, t.order, t.candidates);
    if t.selection.Some? && t.selection.value.Choice? { FindsNamed(c.candidates, t.order, t.selection.value.tag); }
  }

  predicate Acceptable(cases: seq<Case>, p: Persisted) {
    var known := Known(cases, p.trace.caseId);
    known.Some? && Multi(known.value) && Matches(p, known.value)
  }

  /** Every trace matches a multi-candidate case, and neither its invocation nor its number occurred before. */
  predicate Journalled(cases: seq<Case>, s: seq<Persisted>) {
    s == [] || (
      var init, last := s[..|s| - 1], s[|s| - 1];
      Journalled(cases, init) && Acceptable(cases, last) && Entry(init, Key(last)).None?
        && last.sequence !in Numbers(init))
  }

  /** The journal is one the rebuild accepts: every trace matches, no invocation and no number occurs twice, every
  invocation is there, and the numbers are 1 to the number of traces. */
  predicate ValidJournal(cases: seq<Case>, persisted: seq<Persisted>) {
    && Journalled(cases, persisted)
    && |persisted| == 2 * MultiCount(cases)
    && (forall i :: 0 <= i < |cases| && Multi(cases[i]) ==>
          Entry(persisted, (cases[i].caseId, Primary)).Some? && Entry(persisted, (cases[i].caseId, Reversed)).Some?)
    && Contiguous(SortBySequence(persisted))
  }

  /** The evidence a trace says was selected. */
  function SelectedId(e: Option<Persisted>): Option<string> {
    if e.Some? && e.value.trace.outcome.Selected? then e.value.trace.mappedEvidenceId else None
  }

  /** The rebuild counts every single-candidate case as correct without looking at its gold. */
  function RebuiltCase(c: Case, persisted: seq<Persisted>): Counters {
    if |c.candidates| == 1 then Zero.(correct := 1, selected := 1)
    else CaseTally(c, SelectedId(Entry(persisted, (c.caseId, Primary))),
      SelectedId(Entry(persisted, (c.caseId, Reversed))))
  }

  function RebuiltTally(cases: seq<Case>, persisted: seq<Persisted>): Counters {
    if cases == [] then Zero
    else Plus(RebuiltTally(cases[..|cases| - 1], persisted), RebuiltCase(cases[|cases| - 1], persisted))
  }

  /** A case without candidates has no traces, and the rebuild trips over their absence. */
  datatype Reconstruction = Complete(report: Report) | InfrastructureBlocked | Throws

  function Rebuild(cases: seq<Case>, persisted: seq<Persisted>): Reconstruction {
    if !ValidJournal(cases, persisted) then InfrastructureBlocked
    else if !Offering(cases) then Throws
    else Complete(ReportOf(RebuiltTally(cases, persisted), cases, Stripped(SortBySequence(persisted))))
  }

  predicate Offering(cases: seq<Case>) { OfferingTo(cases, |cases|) }

  predicate OfferingTo(cases: seq<Case>, n: nat)
    requires n <= |cases|
  {
    forall i :: 0 <= i < n ==> |cases[i].candidates| >= 1
  }

  function RebuiltTo(cases: seq<Case>, persisted: seq<Persisted>, n: nat): Counters
    requires n <= |cases|
  {
    RebuiltTally(cases[..n], persisted)
  }

  lemma JournalledStep(cases: seq<Case>, s: seq<Persisted>, p: Persisted)
    requires Journalled(cases, s)
    ensures Journalled(cases, s + [p]) <==> Acceptable(cases, p) && Entry(s, Key(p)).None? && p.sequence !in Numbers(s)
    ensures Numbers(s + [p]) == Numbers(s) + {p.sequence}
  {
    assert (s + [p])[..|s|] == s;
  }

  lemma {:induction false} JournalledPrefix(cases: seq<Case>, s: seq<Persisted>, n: nat)
    requires n <= |s| && Journalled(cases, s)
    ensures Journalled(cases, s[..n])
  {
    if n < |s| {
      assert s[..|s| - 1][..n] == s[..n];
      JournalledPrefix(cases, s[..|s| - 1], n);
    } else {
      assert s[..n] == s;
    }
  }

  /** The trace map and sequence set of the first loop; ok is false as soon as a trace is unknown, repeated,
  renumbered or mismatched. */
  method Index(cases: seq<Case>, persisted: seq<Persisted>)
    returns (ok: bool, traceByInvocation: map<(string, Order), Persisted>)
    ensures ok <==> Journalled(cases, persisted)
    ensures ok ==> |traceByInvocation| == |persisted| && Indexes(traceByInvocation, persisted)
  {
    traceByInvocation := map[];
    var sequences: set<int> := {};
    for n := 0 to |persisted|
      invariant Journalled(cases, persisted[..n])
      invariant Indexes(traceByInvocation, persisted[..n]) && |traceByInvocation| == n
      invariant sequences == Numbers(persisted[..n])
    {
      var p := persisted[n];
      TakeNext(persisted, n);
      JournalledStep(cases, persisted[..n], p);
      if !Acceptable(cases, p) || Key(p) in traceByInvocation || p.sequence in sequences {
        if Journalled(cases, persisted) { JournalledPrefix(cases, persisted, n + 1); }
        return false, traceByInvocation;
      }
      IndexStep(traceByInvocation, persisted[..n], p);
      traceByInvocation := traceByInvocation[Key(p) := p];
      sequences := sequences + {p.sequence};
    }
    TakeAll(persisted);
    ok := true;
  }

  method Covered(cases: seq<Case>, traceByInvocation: map<(string, Order), Persisted>) returns (ok: bool)
    ensures ok <==> forall j :: 0 <= j < |cases| && Multi(cases[j]) ==>
                      (cases[j].caseId, Primary) in traceByInvocation
                        && (cases[j].caseId, Reversed) in traceByInvocation
  {
    for i := 0 to |cases|
      invariant forall j :: 0 <= j < i && Multi(cases[j]) ==>
                  (cases[j].caseId, Primary) in traceByInvocation && (cases[j].caseId, Reversed) in traceByInvocation
    {
      if Multi(cases[i])
        && ((cases[i].caseId, Primary) !in traceByInvocation || (cases[i].caseId, Reversed) !in traceByInvocation) {
        return false;
      }
    }
    ok := true;
  }

  method IsContiguous(sorted: seq<Persisted>) returns (ok: bool)
    ensures ok <==> Contiguous(sorted)
  {
    for i := 0 to |sorted|
      invariant forall j :: 0 <= j < i ==> sorted[j].sequence == j + 1
    {
      if sorted[i].sequence != i + 1 {
        return false;
      }
    }
    ok := true;
  }

  method Reconstruct(cases: seq<Case>, persisted: seq<Persisted>) returns (r: Reconstruction)
    ensures r == Rebuild(cases, persisted)
    ensures r.Complete? ==>
              var picks := RebuiltPicks(cases, persisted);
              && Recorded(cases, picks, persisted)
              && Measured(r.report.metrics, cases, picks, true, r.report.traces)
              && (r.report.gatePassed <==> Passes(cases, picks, true, r.report.traces))
  {
    if Rebuild(cases, persisted).Complete? { RebuiltReportIsExact(cases, persisted); }
    var multi := CountMulti(cases);
    var ok, traceByInvocation := Index(cases, persisted);
    if !ok || |traceByInvocation| != 2 * multi {
      return InfrastructureBlocked;
    }
    var covered := Covered(cases, traceByInvocation);
    if !covered {
      return InfrastructureBlocked;
    }
    var sorted := SortBySequence(persisted);
    var contiguous := IsContiguous(sorted);
    if !contiguous {
      return InfrastructureBlocked;
    }
    var k := CountRebuilt(cases, persisted, traceByInvocation);
    if k.None? {
      return Throws;
    }
    var traces := Stripped(sorted);
    var metrics := MetricsOf(k.value, |cases|, multi, traces);
    var summary := SummarizeTraces(traces);
    var latency := LatencyStatistics(traces);
    r := Complete(Report(metrics, traces, summary, latency, GatePassed(metrics)));
  }

  method CountMulti(cases: seq<Case>) returns (multi: nat)
    ensures multi == MultiCount(cases)
  {
    multi := 0;
    for i := 0 to |cases|
      invariant multi == MultiCount(cases[..i])
    {
      assert cases[..i + 1][..i] == cases[..i];
      if |cases[i].candidates| >= 2 { multi := multi + 1; }
    }
    TakeAll(cases);
  }

  lemma RebuiltStep(cases: seq<Case>, persisted: seq<Persisted>, i: nat)
    requires i < |cases|
    ensures RebuiltTally(cases[..i + 1], persisted)
      == Plus(RebuiltTally(cases[..i], persisted), RebuiltCase(cases[i], persisted))
  {
    assert cases[..i + 1][..i] == cases[..i];
  }

  lemma RebuiltNext(cases: seq<Case>, persisted: seq<Persisted>, i: nat)
    requires i < |cases|
    ensures RebuiltTo(cases, persisted, i + 1) == Plus(RebuiltTo(cases, persisted, i), RebuiltCase(cases[i], persisted))
    ensures OfferingTo(cases, i + 1) <==> OfferingTo(cases, i) && |cases[i].candidates| >= 1
  {
    RebuiltStep(cases, persisted, i);
  }

  /** The counting loop; None is the exception it throws at a case without candidates. */
  method CountRebuilt(cases: seq<Case>, ghost persisted: seq<Persisted>,
      traceByInvocation: map<(string, Order), Persisted>)
    returns (r: Option<Counters>)
    requires Indexes(traceByInvocation, persisted)
    requires forall j :: 0 <= j < |cases| && Multi(cases[j]) ==>
               (cases[j].caseId, Primary) in traceByInvocation && (cases[j].caseId, Reversed) in traceByInvocation
    ensures r == if Offering(cases) then Some(RebuiltTally(cases, persisted)) else None
  {
    var k := Zero;
    for i := 0 to |cases|
      invariant k == RebuiltTo(cases, persisted, i) && OfferingTo(cases, i)
    {
      if |cases[i].candidates| == 0 {
        return None;
      }
      RebuiltNext(cases, persisted, i);
      k := CountRebuiltCase(k, cases[i], persisted, traceByInvocation);
    }
    TakeAll(cases);
    r := Some(k);
  }

  method CountRebuiltCase(k: Counters, c: Case, ghost persisted: seq<Persisted>,
      traceByInvocation: map<(string, Order), Persisted>)
    returns (r: Counters)
    requires |c.candidates| >= 1 && Indexes(traceByInvocation, persisted)
    requires Multi(c) ==> (c.caseId, Primary) in traceByInvocation && (c.caseId, Reversed) in traceByInvocation
    ensures r == Plus(k, RebuiltCase(c, persisted))
  {
    if |c.candidates| == 1 {
      r := k.(selected := k.selected + 1, correct := k.correct + 1);
    } else {
      var primary := traceByInvocation[(c.caseId, Primary)].trace;
      var reversed := traceByInvocation[(c.caseId, Reversed)].trace;
      r := CountCase(k, c, if primary.outcome.Selected? then primary.mappedEvidenceId else None,
                     if reversed.outcome.Selected? then reversed.mappedEvidenceId else None);
    }
  }

  // What a complete rebuild certifies

  ghost predicate Exact(cases: seq<Case>, persisted: seq<Persisted>) {
    && (forall i :: 0 <= i < |persisted| ==> Acceptable(cases, persisted[i]))
    && (forall i, j :: 0 <= i < j < |persisted|
         ==> Key(persisted[i]) != Key(persisted[j]) && persisted[i].sequence != persisted[j].sequence)
    && |persisted| == 2 * MultiCount(cases)
    && (forall i, o :: 0 <= i < |cases| && Multi(cases[i]) ==> Present(persisted, cases[i].caseId, o))
    && (forall q :: 1 <= q <= |persisted| ==> HasNumber(persisted, q))
  }

  ghost predicate Pairwise(cases: seq<Case>, s: seq<Persisted>) {
    && (forall i :: 0 <= i < |s| ==> Acceptable(cases, s[i]))
    && (forall i, j :: 0 <= i < j < |s| ==> Key(s[i]) != Key(s[j]) && s[i].sequence != s[j].sequence)
  }

  lemma PairwiseStep(cases: seq<Case>, s: seq<Persisted>, n: nat)
    requires |s| == n + 1
    ensures Pairwise(cases, s) <==>
              Pairwise(cases, s[..n]) && Acceptable(cases, s[n])
                && !Present(s[..n], s[n].trace.caseId, s[n].trace.order)
              && !HasNumber(s[..n], s[n].sequence)
  {
    assert forall i :: 0 <= i < n ==> s[..n][i] == s[i];
  }

  lemma {:induction false} JournalledPairwise(cases: seq<Case>, s: seq<Persisted>)
    ensures Journalled(cases, s) <==> Pairwise(cases, s)
  {
    if s != [] {
      var n := |s| - 1;
      JournalledPairwise(cases, s[..n]);
      EntryIsLast(s[..n], Key(s[n]));
      NumbersOf(s[..n], s[n].sequence);
      PairwiseStep(cases, s, n);
    }
  }

  lemma {:induction false} EntryFound(cases: seq<Case>, s: seq<Persisted>, k: nat)
    requires k < |s| && Pairwise(cases, s)
    ensures Entry(s, Key(s[k])) == Some(s[k])
  {
    if k < |s| - 1 { EntryFound(cases, s[..|s| - 1], k); }
  }

  lemma CoveredCase(cases: seq<Case>, persisted: seq<Persisted>, i: nat, o: Order)
    requires ValidJournal(cases, persisted) && i < |cases| && Multi(cases[i])
    ensures Present(persisted, cases[i].caseId, o)
  {
    EntryIsLast(persisted, (cases[i].caseId, o));
    assert Entry(persisted, (cases[i].caseId, Primary)).Some? && Entry(persisted, (cases[i].caseId, Reversed)).Some?;
  }

  lemma ExactIsValid(cases: seq<Case>, persisted: seq<Persisted>)
    requires Exact(cases, persisted)
    ensures ValidJournal(cases, persisted)
  {
    assert Pairwise(cases, persisted);
    JournalledPairwise(cases, persisted);
    NumbersFill(persisted);
    forall i | 0 <= i < |cases| && Multi(cases[i])
      ensures Entry(persisted, (cases[i].caseId, Primary)).Some? && Entry(persisted, (cases[i].caseId, Reversed)).Some?
    {
      EntryIsLast(persisted, (cases[i].caseId, Primary));
      EntryIsLast(persisted, (cases[i].caseId, Reversed));
      assert Present(persisted, cases[i].caseId, Primary) && Present(persisted, cases[i].caseId, Reversed);
    }
  }

  /** The rebuild is blocked exactly unless the journal has every invocation of every multi-candidate case exactly once,
  matching, and numbered 1 to 2N without a gap or a repeat; it then throws exactly if some case has no candidate, and
  gives a report otherwise. */
  lemma CompleteIsExact(cases: seq<Case>, persisted: seq<Persisted>)
    ensures Rebuild(cases, persisted).InfrastructureBlocked? <==> !Exact(cases, persisted)
    ensures Rebuild(cases, persisted).Throws? <==>
              Exact(cases, persisted) && exists i :: 0 <= i < |cases| && |cases[i].candidates| == 0
  {
    if Exact(cases, persisted) { ExactIsValid(cases, persisted); }
    if ValidJournal(cases, persisted) { ValidIsExact(cases, persisted); }
  }

  lemma ValidIsExact(cases: seq<Case>, persisted: seq<Persisted>)
    requires ValidJournal(cases, persisted)
    ensures Exact(cases, persisted)
  {
    JournalledPairwise(cases, persisted);
    assert Pairwise(cases, persisted);
    forall q | 1 <= q <= |persisted| ensures HasNumber(persisted, q) {
      SortedNumber(persisted, q);
    }
    forall i, o | 0 <= i < |cases| && Multi(cases[i]) ensures Present(persisted, cases[i].caseId, o) {
      CoveredCase(cases, persisted, i, o);
    }
  }

  // The rebuild of a live run

  predicate UniqueIds(cases: seq<Case>) {
    forall i, j :: 0 <= i < j < |cases| ==> cases[i].caseId != cases[j].caseId
  }

  /** What the cases must be: of unique ids, and without an empty evidence id. */
  predicate WellFormed(cases: seq<Case>) {
    && UniqueIds(cases) && 2 * |cases| <= MAX_SAFE_INTEGER
    && (forall i, x :: 0 <= i < |cases| && x in cases[i].candidates ==> x != "")
  }

  predicate SinglesHoldGold(cases: seq<Case>) {
    forall i :: 0 <= i < |cases| && |cases[i].candidates| == 1 ==> cases[i].candidates[0] == cases[i].expected
  }

  lemma {:induction false} KnownById(cases: seq<Case>, i: nat)
    requires i < |cases| && UniqueIds(cases)
    ensures Known(cases, cases[i].caseId) == Some(cases[i])
  {
    if i < |cases| - 1 { KnownById(cases[..|cases| - 1], i); }
  }

  /** A live trace is accepted and says what the live evaluator saw. */
  lemma LiveTraceMatches(cases: seq<Case>, select: Selector, i: nat, o: Order, n: nat)
    requires WellFormed(cases) && i < |cases| && Multi(cases[i]) && 1 <= n <= MAX_SAFE_INTEGER
    ensures var p := Persisted(n, LiveTrace(cases[i], i, o, select));
            Acceptable(cases, p) && SelectedId(Some(p)) == LiveClassified(cases[i], i, o, select).selectedId
  {
    KnownById(cases, i);
    var ids := InOrder(cases[i].candidates, o);
    var answer := select(i, o);
    if answer.selection.Choice? { FindLabelled(ids, answer.selection.tag); }
    var id := LiveClassified(cases[i], i, o, select).selectedId;
    if id.Some? {
      assert id.value in ids;
      assert Truthy(id);
    }
  }

  lemma {:induction false} LiveCount(cases: seq<Case>, select: Selector)
    ensures |LiveTraces(cases, select)| == 2 * MultiCount(cases)
    ensures MultiCount(cases) <= |cases|
  {
    if cases != [] { LiveCount(cases[..|cases| - 1], select); }
  }

  lemma {:induction false} LiveTraceIndex(cases: seq<Case>, select: Selector, x: nat) returns (i: nat, o: Order)
    requires x < |LiveTraces(cases, select)|
    ensures i < |cases| && Multi(cases[i]) && LiveTraces(cases, select)[x] == LiveTrace(cases[i], i, o, select)
  {
    var n := |cases| - 1;
    var before := LiveTraces(cases[..n], select);
    if x < |before| {
      i, o := LiveTraceIndex(cases[..n], select, x);
    } else {
      i, o := n, if x == |before| then Primary else Reversed;
    }
  }

  lemma {:induction false} LiveTracePresent(cases: seq<Case>, select: Selector, i: nat, o: Order) returns (x: nat)
    requires i < |cases| && Multi(cases[i])
    ensures x < |LiveTraces(cases, select)| && LiveTraces(cases, select)[x] == LiveTrace(cases[i], i, o, select)
  {
    var n := |cases| - 1;
    if i < n {
      x := LiveTracePresent(cases[..n], select, i, o);
    } else {
      x := |LiveTraces(cases[..n], select)| + if o.Primary? then 0 else 1;
    }
  }

  predicate DistinctKeysAt(traces: seq<Trace>, x: nat, y: nat)
    requires x < y < |traces|
  {
    (traces[x].caseId, traces[x].order) != (traces[y].caseId, traces[y].order)
  }

  /** A new case's traces differ from those of the cases before it. */
  lemma LiveTraceIsNew(cases: seq<Case>, select: Selector, x: nat, n: nat, o: Order)
    requires UniqueIds(cases) && n < |cases| && x < |LiveTraces(cases[..n], select)|
    ensures LiveTraces(cases[..n], select)[x].caseId != LiveTrace(cases[n], n, o, select).caseId
  {
    var i, p := LiveTraceIndex(cases[..n], select, x);
    assert cases[..n][i].caseId == cases[i].caseId;
  }

  lemma {:induction false} LiveTracesDistinct(cases: seq<Case>, select: Selector, x: nat, y: nat)
    requires UniqueIds(cases) && x < y < |LiveTraces(cases, select)|
    ensures DistinctKeysAt(LiveTraces(cases, select), x, y)
  {
    var n := |cases| - 1;
    var before := LiveTraces(cases[..n], select);
    if y < |before| {
      LiveTracesDistinct(cases[..n], select, x, y);
    } else if x < |before| {
      LiveTraceIsNew(cases, select, x, n, if y == |before| then Primary else Reversed);
    }
  }

  ghost predicate Journals(persisted: seq<Persisted>, cases: seq<Case>, select: Selector) {
    multiset(persisted) == multiset(Numbered(LiveTraces(cases, select)))
  }

  lemma NumberedIndex(cases: seq<Case>, select: Selector, persisted: seq<Persisted>, k: nat) returns (x: nat)
    requires Journals(persisted, cases, select) && k < |persisted|
    ensures x < |LiveTraces(cases, select)| && persisted[k] == Numbered(LiveTraces(cases, select))[x]
  {
    var numbered := Numbered(LiveTraces(cases, select));
    assert persisted[k] in multiset(numbered);
    x :| 0 <= x < |numbered| && numbered[x] == persisted[k];
  }

  lemma ShuffledPair(cases: seq<Case>, select: Selector, persisted: seq<Persisted>, i: nat, j: nat)
    requires UniqueIds(cases) && Journals(persisted, cases, select) && i < j < |persisted|
    ensures Key(persisted[i]) != Key(persisted[j]) && persisted[i].sequence != persisted[j].sequence
  {
    var x := NumberedIndex(cases, select, persisted, i);
    var y := NumberedIndex(cases, select, persisted, j);
    ShuffleDistinct(LiveTraces(cases, select), persisted, i, j);
    assert x != y;
    if x < y { LiveTracesDistinct(cases, select, x, y); } else { LiveTracesDistinct(cases, select, y, x); }
  }

  lemma ShuffledAccepted(cases: seq<Case>, select: Selector, persisted: seq<Persisted>)
    requires WellFormed(cases) && Journals(persisted, cases, select)
    ensures Pairwise(cases, persisted)
  {
    forall k | 0 <= k < |persisted| ensures Acceptable(cases, persisted[k]) {
      var x := NumberedIndex(cases, select, persisted, k);
      var i, o := LiveTraceIndex(cases, select, x);
      LiveCount(cases, select);
      LiveTraceMatches(cases, select, i, o, x + 1);
    }
    forall i, j | 0 <= i < j < |persisted|
      ensures Key(persisted[i]) != Key(persisted[j]) && persisted[i].sequence != persisted[j].sequence {
      ShuffledPair(cases, select, persisted, i, j);
    }
  }

  /** The journal entry of an invocation carries the evidence the live evaluator selected. */
  lemma EntryIsLive(cases: seq<Case>, select: Selector, persisted: seq<Persisted>, i: nat, o: Order)
    requires WellFormed(cases) && Journals(persisted, cases, select) && i < |cases| && Multi(cases[i])
    ensures Entry(persisted, (cases[i].caseId, o)).Some?
    ensures SelectedId(Entry(persisted, (cases[i].caseId, o))) == LiveClassified(cases[i], i, o, select).selectedId
  {
    var x := LiveTracePresent(cases, select, i, o);
    var numbered := Numbered(LiveTraces(cases, select));
    assert numbered[x] in multiset(persisted);
    var k :| 0 <= k < |persisted| && persisted[k] == numbered[x];
    ShuffledAccepted(cases, select, persisted);
    EntryFound(cases, persisted, k);
    LiveCount(cases, select);
    LiveTraceMatches(cases, select, i, o, x + 1);
  }

  lemma ShuffledIsValid(cases: seq<Case>, select: Selector, persisted: seq<Persisted>)
    requires WellFormed(cases) && Journals(persisted, cases, select)
    ensures ValidJournal(cases, persisted)
    ensures Stripped(SortBySequence(persisted)) == LiveTraces(cases, select)
  {
    ShuffledAccepted(cases, select, persisted);
    JournalledPairwise(cases, persisted);
    ShuffleSorts(LiveTraces(cases, select), persisted);
    LiveCount(cases, select);
    forall i | 0 <= i < |cases| && Multi(cases[i])
      ensures Entry(persisted, (cases[i].caseId, Primary)).Some? && Entry(persisted, (cases[i].caseId, Reversed)).Some?
    {
      EntryIsLive(cases, select, persisted, i, Primary);
      EntryIsLive(cases, select, persisted, i, Reversed);
    }
  }

  /** 1 for a single-candidate case whose one candidate is not the expected evidence. */
  function WrongSingle(c: Case): nat { One(|c.candidates| == 1 && c.candidates[0] != c.expected) }

  function WrongSingles(cases: seq<Case>): nat {
    if cases == [] then 0 else WrongSingles(cases[..|cases| - 1]) + WrongSingle(cases[|cases| - 1])
  }

  lemma {:induction false} NoWrongSingles(cases: seq<Case>)
    ensures WrongSingles(cases) == 0 <==> SinglesHoldGold(cases)
  {
    if cases != [] {
      var n := |cases| - 1;
      NoWrongSingles(cases[..n]);
      assert forall i :: 0 <= i < n ==> cases[..n][i] == cases[i];
    }
  }

  /** The rebuilt counters are the live ones with w cases moved from wrong to correct. */
  predicate Forgives(live: Counters, rebuilt: Counters, w: nat) {
    live.wrong >= w && rebuilt == live.(correct := live.correct + w, wrong := live.wrong - w)
  }

  lemma CaseForgives(cases: seq<Case>, select: Selector, persisted: seq<Persisted>, i: nat)
    requires WellFormed(cases) && Offering(cases) && Journals(persisted, cases, select) && i < |cases|
    ensures Forgives(LiveCase(cases[i], i, select), RebuiltCase(cases[i], persisted), WrongSingle(cases[i]))
  {
    if Multi(cases[i]) {
      EntryIsLive(cases, select, persisted, i, Primary);
      EntryIsLive(cases, select, persisted, i, Reversed);
    } else {
      assert cases[i].candidates[0] in cases[i].candidates;
    }
  }

  lemma ForgivesPlus(a: Counters, b: Counters, w: nat, c: Counters, d: Counters, v: nat)
    requires Forgives(a, b, w) && Forgives(c, d, v)
    ensures Forgives(Plus(a, c), Plus(b, d), w + v)
  {
  }

  lemma ForgivesSum(a: Counters, b: Counters, w: nat, c: Counters, d: Counters, v: nat, e: Counters, f: Counters,
      u: nat)
    requires Forgives(a, b, w) && Forgives(c, d, v) && e == Plus(a, c) && f == Plus(b, d) && u == w + v
    ensures Forgives(e, f, u)
  {
    ForgivesPlus(a, b, w, c, d, v);
  }

  lemma WrongSinglesStep(cases: seq<Case>, i: nat)
    requires i < |cases|
    ensures WrongSingles(cases[..i + 1]) == WrongSingles(cases[..i]) + WrongSingle(cases[i])
  {
    assert cases[..i + 1][..i] == cases[..i];
  }

  lemma {:induction false} TalliesForgive(cases: seq<Case>, select: Selector, persisted: seq<Persisted>, n: nat)
    requires WellFormed(cases) && Offering(cases) && Journals(persisted, cases, select) && n <= |cases|
    ensures Forgives(LiveTally(cases[..n], select), RebuiltTally(cases[..n], persisted), WrongSingles(cases[..n]))
  {
    if n > 0 {
      TalliesForgive(cases, select, persisted, n - 1);
      ForgivesStep(cases, select, persisted, n - 1);
    }
  }

  lemma ForgivesStep(cases: seq<Case>, select: Selector, persisted: seq<Persisted>, i: nat)
    requires WellFormed(cases) && Offering(cases) && Journals(persisted, cases, select) && i < |cases|
    requires Forgives(LiveTally(cases[..i], select), RebuiltTally(cases[..i], persisted), WrongSingles(cases[..i]))
    ensures Forgives(LiveTally(cases[..i + 1], select), RebuiltTally(cases[..i + 1], persisted),
      WrongSingles(cases[..i + 1]))
  {
    CaseForgives(cases, select, persisted, i);
    LiveStep(cases, select, i);
    RebuiltStep(cases, persisted, i);
    WrongSinglesStep(cases, i);
    ForgivesSum(LiveTally(cases[..i], select), RebuiltTally(cases[..i], persisted), WrongSingles(cases[..i]),
                LiveCase(cases[i], i, select), RebuiltCase(cases[i], persisted), WrongSingle(cases[i]),
                LiveTally(cases[..i + 1], select), RebuiltTally(cases[..i + 1], persisted),
                  WrongSingles(cases[..i + 1]));
  }

  lemma TalliesAgree(live: Counters, rebuilt: Counters, w: nat)
    requires Forgives(live, rebuilt, w)
    ensures if w == 0 then live == rebuilt else live.wrong != rebuilt.wrong
  {
  }

  lemma ReportsDiffer(a: Counters, b: Counters, cases: seq<Case>, traces: seq<Trace>)
    requires a.wrong != b.wrong
    ensures ReportOf(a, cases, traces) != ReportOf(b, cases, traces)
  {
    RatesDiffer(a.wrong, b.wrong, |cases|);
    assert ReportOf(a, cases, traces).metrics.wrongSelectionRate == Rate(a.wrong, |cases|);
    assert ReportOf(b, cases, traces).metrics.wrongSelectionRate == Rate(b.wrong, |cases|);
  }

  lemma RebuiltReport(cases: seq<Case>, select: Selector, persisted: seq<Persisted>)
    requires WellFormed(cases) && Journals(persisted, cases, select)
    ensures Rebuild(cases, persisted)
         == if !Offering(cases) then Throws
            else Complete(ReportOf(RebuiltTally(cases, persisted), cases, LiveTraces(cases, select)))
  {
    ShuffledIsValid(cases, select, persisted);
  }

  /** Rebuilding from any shuffle of the journaled traces yields exactly the live report, metrics, traces, summary,
  latency and verdict alike, if and only if every case has candidates and every single-candidate case holds its gold; it
  is complete if and only if every case has candidates. */
  lemma RebuildEqualsLive(cases: seq<Case>, select: Selector, persisted: seq<Persisted>)
    requires WellFormed(cases) && Journals(persisted, cases, select)
    ensures Rebuild(cases, persisted).Complete? <==> Offering(cases)
    ensures Rebuild(cases, persisted) == Complete(LiveReport(cases, select))
      <==> Offering(cases) && SinglesHoldGold(cases)
  {
    RebuiltReport(cases, select, persisted);
    if Offering(cases) { ReportsCompare(cases, select, persisted); }
  }

  lemma ReportsCompare(cases: seq<Case>, select: Selector, persisted: seq<Persisted>)
    requires WellFormed(cases) && Offering(cases) && Journals(persisted, cases, select)
    ensures ReportOf(RebuiltTally(cases, persisted), cases, LiveTraces(cases, select)) == LiveReport(cases, select) <==>
              SinglesHoldGold(cases)
  {
    TalliesForgive(cases, select, persisted, |cases|);
    TakeAll(cases);
    NoWrongSingles(cases);
    TalliesAgree(LiveTally(cases, select), RebuiltTally(cases, persisted), WrongSingles(cases));
    if WrongSingles(cases) > 0 {
      ReportsDiffer(LiveTally(cases, select), RebuiltTally(cases, persisted), cases, LiveTraces(cases, select));
    }
  }

  lemma RatesDiffer(a: nat, b: nat, n: nat)
    requires a != b
    ensures Rate(a, n) != Rate(b, n)
  {
    var d := (if n >= 1 then n else 1) as real;
    assert Rate(a, n) * d == a as real && Rate(b, n) * d == b as real;
  }

  lemma {:induction false} NoMultiNoTraces(cases: seq<Case>, select: Selector)
    requires forall i :: 0 <= i < |cases| ==> !Multi(cases[i])
    ensures LiveTraces(cases, select) == []
  {
    if cases != [] { NoMultiNoTraces(cases[..|cases| - 1], select); }
  }

  /** One case expecting "gold" and offering only "other": its journal is empty, and the report rebuilt from it is
  complete but is not the live one. */
  lemma WrongSingleIsForgiven(cases: seq<Case>, journal: seq<Persisted>, select: Selector)
    requires cases == [Case("case", "gold", ["other"])] && journal == []
    ensures Rebuild(cases, journal).Complete? && Rebuild(cases, journal).report != LiveReport(cases, select)
  {
    assert cases[0].candidates[0][0] != cases[0].expected[0];
    NoMultiNoTraces(cases, select);
    assert Numbered(LiveTraces(cases, select)) == journal;
    RebuildEqualsLive(cases, select, journal);
  }

  // What the rebuilt counters count

  function RebuiltPicks(cases: seq<Case>, persisted: seq<Persisted>): Picks {
    (i: nat, order: Order) =>
      if i < |cases| then SelectedId(Entry(persisted, (cases[i].caseId, order))) else None
  }

  /** The picks are what the journal's traces say. */
  ghost predicate Recorded(cases: seq<Case>, picks: Picks, persisted: seq<Persisted>) {
    forall i: nat, x: nat :: i < |cases| && x < |persisted| && persisted[x].trace.caseId == cases[i].caseId ==>
      var t := persisted[x].trace;
      picks(i, t.order) == if t.outcome.Selected? then t.mappedEvidenceId else None
  }

  lemma RebuiltCaseAdds(cases: seq<Case>, persisted: seq<Persisted>, i: nat)
    requires i < |cases|
    ensures Adds(RebuiltCase(cases[i], persisted), cases, RebuiltPicks(cases, persisted), true, i)
  {
    var c := RebuiltCase(cases[i], persisted);
    forall which: Counter
      ensures Value(c, which) == One(Counts(which, cases, RebuiltPicks(cases, persisted), true, i))
    {
    }
  }

  lemma RebuiltCountedNext(cases: seq<Case>, persisted: seq<Persisted>, n: nat)
    requires n < |cases|
    requires Counted(RebuiltTally(cases[..n], persisted), cases, RebuiltPicks(cases, persisted), true, n)
    ensures Counted(RebuiltTally(cases[..n + 1], persisted), cases, RebuiltPicks(cases, persisted), true, n + 1)
  {
    RebuiltStep(cases, persisted, n);
    RebuiltCaseAdds(cases, persisted, n);
    CountedStep(RebuiltTally(cases[..n], persisted), RebuiltCase(cases[n], persisted),
      RebuiltTally(cases[..n + 1], persisted), cases, RebuiltPicks(cases, persisted), true, n);
  }

  lemma {:induction false} RebuiltIsCounted(cases: seq<Case>, persisted: seq<Persisted>, n: nat)
    requires n <= |cases|
    ensures Counted(RebuiltTally(cases[..n], persisted), cases, RebuiltPicks(cases, persisted), true, n)
  {
    if n == 0 {
      NothingCounted(cases, RebuiltPicks(cases, persisted), true);
    } else {
      RebuiltIsCounted(cases, persisted, n - 1);
      RebuiltCountedNext(cases, persisted, n - 1);
    }
  }

  lemma PicksAreRecorded(cases: seq<Case>, persisted: seq<Persisted>)
    requires Journalled(cases, persisted)
    ensures Recorded(cases, RebuiltPicks(cases, persisted), persisted)
  {
    JournalledPairwise(cases, persisted);
    forall i: nat, x: nat | i < |cases| && x < |persisted| && persisted[x].trace.caseId == cases[i].caseId
      ensures Entry(persisted, (cases[i].caseId, persisted[x].trace.order)) == Some(persisted[x])
    {
      EntryFound(cases, persisted, x);
    }
  }

  /** A rebuilt report's rates are numbers of cases over numbers of cases, by what the journal's traces say; single
  candidates count as right. */
  lemma RebuiltReportIsExact(cases: seq<Case>, persisted: seq<Persisted>)
    requires Rebuild(cases, persisted).Complete?
    ensures var r, picks := Rebuild(cases, persisted).report, RebuiltPicks(cases, persisted);
            && Recorded(cases, picks, persisted)
            && Measured(r.metrics, cases, picks, true, r.traces)
            && (r.gatePassed <==> Passes(cases, picks, true, r.traces))
  {
    var picks, r := RebuiltPicks(cases, persisted), Rebuild(cases, persisted).report;
    PicksAreRecorded(cases, persisted);
    RebuiltIsCounted(cases, persisted, |cases|);
    TakeAll(cases);
    CountedIsMeasured(RebuiltTally(cases, persisted), cases, picks, true, r.traces);
    GateIsExact(r.metrics, cases, picks, true, r.traces);
  }
}
