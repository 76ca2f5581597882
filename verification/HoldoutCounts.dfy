/** What the counters of the holdout gate count, read off the traces and cases
(evals/selection/semantic/holdout-v2.1-evaluation.ts, metricsFromTraces). */
module HoldoutCounts {
  import opened Wrappers
  import opened SemanticTraces
  import opened HoldoutEvaluation
  import Semantic = SemanticEvaluation

  /** The case at i is the one a trace is of: the last with its id. */
  ghost predicate CaseOf(cases: seq<Case>, t: Trace, i: nat) {
    && i < |cases| && cases[i].caseId == t.caseId
    && forall k :: i < k < |cases| ==> cases[k].caseId != t.caseId
  }

  datatype Counter =
    PositiveCorrect(o: Order) | PositiveWrong(o: Order) | PositiveAbstain(o: Order) | AbstainCorrect(o: Order)
    | Unsupported(o: Order) | InvalidOnes | ProviderErrors | Timeouts

  function InOrderOf(m: Metrics, o: Order): OrderMetrics {
    match o
    case Primary => m.primary
    case Reversed => m.reversed
  }

  function Value(m: Metrics, which: Counter): nat {
    match which
    case PositiveCorrect(o) => InOrderOf(m, o).positiveCorrect
    case PositiveWrong(o) => InOrderOf(m, o).positiveWrong
    case PositiveAbstain(o) => InOrderOf(m, o).positiveAbstain
    case AbstainCorrect(o) => InOrderOf(m, o).abstainCorrect
    case Unsupported(o) => InOrderOf(m, o).unsupportedSelection
    case InvalidOnes => m.invalid
    case ProviderErrors => m.providerError
    case Timeouts => m.timeout
  }

  /** Which traces of a case with this expected selection a counter counts. */
  predicate Counts(which: Counter, expected: string, t: Trace) {
    match which
    case PositiveCorrect(o) => t.order == o && expected != "ABSTAIN" && t.classification.Correct?
    case PositiveWrong(o) => t.order == o && expected != "ABSTAIN" && t.classification.Wrong?
    case PositiveAbstain(o) =>
      t.order == o && expected != "ABSTAIN" && t.classification.NonSelection? && t.outcome.Abstained?
    case AbstainCorrect(o) => t.order == o && expected == "ABSTAIN" && t.outcome.Abstained?
    case Unsupported(o) => t.order == o && expected == "ABSTAIN" && t.outcome.Selected?
    case InvalidOnes => t.outcome.Invalid?
    case ProviderErrors => t.outcome.ProviderError?
    case Timeouts => t.outcome.Timeout?
  }

  /** The traces of known cases that a counter counts. */
  ghost function TracesOf(which: Counter, cases: seq<Case>, traces: seq<Trace>, n: nat): set<nat>
    requires n <= |traces|
  {
    Below(n, Counting(which, cases, traces))
  }

  ghost function Counting(which: Counter, cases: seq<Case>, traces: seq<Trace>): nat -> bool {
    (x: nat) => x < |traces| && CountsTrace(which, cases, traces[x])
  }

  ghost predicate CountsTrace(which: Counter, cases: seq<Case>, t: Trace) {
    exists i: nat :: CaseOf(cases, t, i) && Counts(which, cases[i].expected, t)
  }

  lemma {:induction false} KnownIsLast(cases: seq<Case>, t: Trace) returns (i: nat)
    ensures var known := Semantic.Known(cases, t.caseId);
            if known.None? then forall k :: 0 <= k < |cases| ==> cases[k].caseId != t.caseId
            else CaseOf(cases, t, i) && known == Some(cases[i])
  {
    i := 0;
    if cases != [] {
      var n := |cases| - 1;
      if cases[n].caseId == t.caseId {
        i := n;
      } else {
        i := KnownIsLast(cases[..n], t);
        assert forall k :: 0 <= k < n ==> cases[..n][k] == cases[k];
      }
    }
  }

  lemma CaseIsOne(cases: seq<Case>, t: Trace, i: nat, k: nat)
    requires CaseOf(cases, t, i) && CaseOf(cases, t, k)
    ensures i == k
  {
  }

  lemma ShareCounts(which: Counter, cases: seq<Case>, t: Trace)
    ensures Value(Share(cases, t), which) == One(CountsTrace(which, cases, t))
  {
    var i := KnownIsLast(cases, t);
    if Semantic.Known(cases, t.caseId).Some? {
      forall k: nat | CaseOf(cases, t, k) ensures k == i {
        CaseIsOne(cases, t, i, k);
      }
      assert CountsTrace(which, cases, t) <==> Counts(which, cases[i].expected, t);
    }
  }

  lemma ValuePlus(which: Counter, a: Metrics, b: Metrics)
    ensures Value(Plus(a, b), which) == Value(a, which) + Value(b, which)
  {
  }

  lemma {:induction false} TallyCounts(which: Counter, cases: seq<Case>, traces: seq<Trace>, n: nat)
    requires n <= |traces|
    ensures Value(Tally(cases, traces[..n]), which) == |TracesOf(which, cases, traces, n)|
  {
    if n > 0 {
      TallyCounts(which, cases, traces, n - 1);
      ValueStep(which, cases, traces, n - 1);
      TracesStep(which, cases, traces, n - 1);
    }
  }

  lemma ValueStep(which: Counter, cases: seq<Case>, traces: seq<Trace>, n: nat)
    requires n < |traces|
    ensures Value(Tally(cases, traces[..n + 1]), which)
         == Value(Tally(cases, traces[..n]), which) + One(CountsTrace(which, cases, traces[n]))
  {
    TallyStep(cases, traces, n);
    ValuePlus(which, Tally(cases, traces[..n]), Share(cases, traces[n]));
    ShareCounts(which, cases, traces[n]);
  }

  lemma TracesStep(which: Counter, cases: seq<Case>, traces: seq<Trace>, n: nat)
    requires n < |traces|
    ensures |TracesOf(which, cases, traces, n + 1)|
         == |TracesOf(which, cases, traces, n)| + One(CountsTrace(which, cases, traces[n]))
  {
    BelowStep(n, Counting(which, cases, traces));
  }

  /** The trace at x is the last of its case and order. */
  predicate LastOf(traces: seq<Trace>, id: string, o: Order, x: nat) {
    && x < |traces| && traces[x].caseId == id && traces[x].order == o
    && forall y :: x < y < |traces| ==> !(traces[y].caseId == id && traces[y].order == o)
  }

  /** The case is right in primary order and wrong in reversed order. */
  ghost predicate Misled(cases: seq<Case>, traces: seq<Trace>, i: nat)
    requires i < |cases|
  {
    exists x: nat, y: nat ::
      && LastOf(traces, cases[i].caseId, Primary, x) && LastOf(traces, cases[i].caseId, Reversed, y)
      && traces[x].classification.Correct? && traces[y].classification.Wrong?
  }

  /** Its two orders end differently, or map to different evidence. */
  ghost predicate Disagrees(cases: seq<Case>, traces: seq<Trace>, i: nat)
    requires i < |cases|
  {
    exists x: nat, y: nat ::
      && LastOf(traces, cases[i].caseId, Primary, x) && LastOf(traces, cases[i].caseId, Reversed, y)
      && (|| traces[x].outcome != traces[y].outcome
          || EvidenceText(traces[x]) != EvidenceText(traces[y]))
  }

  function EvidenceText(t: Trace): string {
    match t.mappedEvidenceId
    case None => ""
    case Some(id) => id
  }

  lemma {:induction false} LatestIsLast(traces: seq<Trace>, id: string, o: Order) returns (x: nat)
    ensures var latest := Latest(traces, (id, o));
            if latest.None? then forall y :: 0 <= y < |traces| ==> !(traces[y].caseId == id && traces[y].order == o)
            else LastOf(traces, id, o, x) && latest == Some(traces[x])
  {
    x := 0;
    if traces != [] {
      var n := |traces| - 1;
      if TraceKey(traces[n]) == (id, o) {
        x := n;
      } else {
        x := LatestIsLast(traces[..n], id, o);
        assert forall y :: 0 <= y < n ==> traces[..n][y] == traces[y];
      }
    }
  }

  lemma PairShareCounts(cases: seq<Case>, traces: seq<Trace>, i: nat)
    requires i < |cases|
    ensures var share := PairShare(Latest(traces, (cases[i].caseId, Primary)),
                                   Latest(traces, (cases[i].caseId, Reversed)));
            && share.orderInducedWrong == One(Misled(cases, traces, i))
            && share.orderInducedOutcomeDisagreement == One(Disagrees(cases, traces, i))
            && forall which: Counter :: Value(share, which) == 0
  {
    var id := cases[i].caseId;
    var x := LatestIsLast(traces, id, Primary);
    var y := LatestIsLast(traces, id, Reversed);
    if Latest(traces, (id, Primary)).Some? && Latest(traces, (id, Reversed)).Some? {
      PairIsOne(cases, traces, i, x, y);
    } else {
      NoPair(cases, traces, i);
    }
  }

  lemma PairIsOne(cases: seq<Case>, traces: seq<Trace>, i: nat, x: nat, y: nat)
    requires i < |cases|
    requires LastOf(traces, cases[i].caseId, Primary, x) && LastOf(traces, cases[i].caseId, Reversed, y)
    ensures Misled(cases, traces, i) <==> traces[x].classification.Correct? && traces[y].classification.Wrong?
    ensures Disagrees(cases, traces, i) <==>
              traces[x].outcome != traces[y].outcome || EvidenceText(traces[x]) != EvidenceText(traces[y])
  {
  }

  lemma NoPair(cases: seq<Case>, traces: seq<Trace>, i: nat)
    requires i < |cases|
    requires Latest(traces, (cases[i].caseId, Primary)).None? || Latest(traces, (cases[i].caseId, Reversed)).None?
    ensures !Misled(cases, traces, i) && !Disagrees(cases, traces, i)
  {
    var x := LatestIsLast(traces, cases[i].caseId, Primary);
    var y := LatestIsLast(traces, cases[i].caseId, Reversed);
  }

  ghost function MisledCases(cases: seq<Case>, traces: seq<Trace>, n: nat): set<nat>
    requires n <= |cases|
  {
    Below(n, (i: nat) => i < |cases| && Misled(cases, traces, i))
  }

  ghost function DisagreeingCases(cases: seq<Case>, traces: seq<Trace>, n: nat): set<nat>
    requires n <= |cases|
  {
    Below(n, (i: nat) => i < |cases| && Disagrees(cases, traces, i))
  }

  lemma {:induction false} PairTallyCounts(cases: seq<Case>, traces: seq<Trace>, n: nat)
    requires n <= |cases|
    ensures PairsCounted(PairTally(cases[..n], traces), cases, traces, n)
  {
    if n == 0 {
      assert MisledCases(cases, traces, 0) == {} && DisagreeingCases(cases, traces, 0) == {};
    } else {
      PairTallyCounts(cases, traces, n - 1);
      PairTallyNext(cases, traces, n - 1);
    }
  }

  lemma PairTallyNext(cases: seq<Case>, traces: seq<Trace>, n: nat)
    requires n < |cases| && PairsCounted(PairTally(cases[..n], traces), cases, traces, n)
    ensures PairsCounted(PairTally(cases[..n + 1], traces), cases, traces, n + 1)
  {
    PairValueStep(cases, traces, n);
    CasesStep(cases, traces, n);
  }

  ghost predicate PairsCounted(m: Metrics, cases: seq<Case>, traces: seq<Trace>, n: nat)
    requires n <= |cases|
  {
    && m.orderInducedWrong == |MisledCases(cases, traces, n)|
    && m.orderInducedOutcomeDisagreement == |DisagreeingCases(cases, traces, n)|
    && forall which: Counter :: Value(m, which) == 0
  }

  lemma PairValueStep(cases: seq<Case>, traces: seq<Trace>, n: nat)
    requires n < |cases|
    requires forall which: Counter :: Value(PairTally(cases[..n], traces), which) == 0
    ensures var m, next := PairTally(cases[..n], traces), PairTally(cases[..n + 1], traces);
            && next.orderInducedWrong == m.orderInducedWrong + One(Misled(cases, traces, n))
            && next.orderInducedOutcomeDisagreement
            == m.orderInducedOutcomeDisagreement + One(Disagrees(cases, traces, n))
            && forall which: Counter :: Value(next, which) == 0
  {
    var m := PairTally(cases[..n], traces);
    var share := PairShare(Latest(traces, (cases[n].caseId, Primary)), Latest(traces, (cases[n].caseId, Reversed)));
    PairTallyStep(cases, traces, n);
    PairShareCounts(cases, traces, n);
    PairPlus(m, share);
  }

  lemma PairPlus(m: Metrics, share: Metrics)
    requires forall which: Counter :: Value(m, which) == 0 && Value(share, which) == 0
    ensures var next := Plus(m, share);
            && next.orderInducedWrong == m.orderInducedWrong + share.orderInducedWrong
            && next.orderInducedOutcomeDisagreement
               == m.orderInducedOutcomeDisagreement + share.orderInducedOutcomeDisagreement
            && forall which: Counter :: Value(next, which) == 0
  {
    forall which: Counter ensures Value(Plus(m, share), which) == 0 {
      ValuePlus(which, m, share);
    }
  }

  lemma CasesStep(cases: seq<Case>, traces: seq<Trace>, n: nat)
    requires n < |cases|
    ensures |MisledCases(cases, traces, n + 1)| == |MisledCases(cases, traces, n)| + One(Misled(cases, traces, n))
    ensures |DisagreeingCases(cases, traces, n + 1)|
         == |DisagreeingCases(cases, traces, n)| + One(Disagrees(cases, traces, n))
  {
    BelowStep(n, (i: nat) => i < |cases| && Misled(cases, traces, i));
    BelowStep(n, (i: nat) => i < |cases| && Disagrees(cases, traces, i));
  }

  /** Every counter is the number of what it counts: the traces of known cases with that outcome or classification in
  that order, and the cases whose two orders differ. */
  lemma MetricsAreCounts(cases: seq<Case>, traces: seq<Trace>)
    ensures var m := MetricsOf(cases, traces);
            && (forall which: Counter :: Value(m, which) == |TracesOf(which, cases, traces, |traces|)|)
            && m.orderInducedWrong == |MisledCases(cases, traces, |cases|)|
            && m.orderInducedOutcomeDisagreement == |DisagreeingCases(cases, traces, |cases|)|
  {
    TakeAll(cases);
    TakeAll(traces);
    PairTallyCounts(cases, traces, |cases|);
    TallyHasNoPairs(cases, traces);
    forall which: Counter
      ensures Value(MetricsOf(cases, traces), which) == |TracesOf(which, cases, traces, |traces|)|
    {
      TallyCounts(which, cases, traces, |traces|);
      ValuePlus(which, Tally(cases, traces), PairTally(cases, traces));
    }
  }

  lemma {:induction false} TallyHasNoPairs(cases: seq<Case>, traces: seq<Trace>)
    ensures Tally(cases, traces).orderInducedWrong == 0
    ensures Tally(cases, traces).orderInducedOutcomeDisagreement == 0
  {
    if traces != [] { TallyHasNoPairs(cases, traces[..|traces| - 1]); }
  }
}
