/** The holdout gate (evals/selection/semantic/holdout-v2.1-evaluation.ts): a run that skips the invocations it already
has traces of, exact counters over the traces, and their rebuild from a persisted journal. */
module HoldoutEvaluation {
  import opened Wrappers
  import opened SemanticTraces
  import Semantic = SemanticEvaluation

  /** A case whose expected selection is an evidence id or the word ABSTAIN. */
  type Case = Semantic.Case

  predicate Abstains(c: Case) { c.expected == "ABSTAIN" }

  /** The answer the selector happens to give in a slot: slot 2i is case i in primary order, slot 2i+1 in reversed
  order. */
  type Answers = nat -> Answer

  /** The slot of a case in one order. */
  function SlotOf(i: nat, o: Order): (x: nat)
    ensures x / 2 == i && OrderOf(x) == o && x < 2 * (i + 1)
  {
    2 * i + if o.Primary? then 0 else 1
  }

  function OrderOf(x: nat): Order { if x % 2 == 0 then Primary else Reversed }

  function AsTrace(c: Case, order: Order, candidates: seq<string>, answer: Answer): Trace {
    var mapped :=
      if answer.outcome.Selected? && answer.selection.Choice? && Position(answer.selection.tag) < |candidates|
      then Some(candidates[Position(answer.selection.tag)]) else None;
    var classification :=
      if Abstains(c) then
        if answer.outcome.Abstained? then Correct else if answer.outcome.Selected? then Wrong else NonSelection
      else if mapped == Some(c.expected) then Correct
      else if Truthy(mapped) then Wrong else NonSelection;
    Trace(c.caseId, order, |candidates|, WithLabels(candidates),
          if mapped.None? && answer.outcome.Selected? then Invalid else answer.outcome,
          if answer.outcome.Selected? then Some(answer.selection) else None,
          if Truthy(mapped) then mapped else None,
          c.expected, classification, Some(answer.elapsedMs), answer.rawOutputShape)
  }

  /** The candidate that an answer names. */
  function ChosenBy(c: Case, order: Order, a: Answer): Option<string> {
    if a.outcome.Selected? && a.selection.Choice? then Named(c.candidates, order, a.selection.tag) else None
  }

  /** The trace of an answer. */
  lemma TraceIsExact(c: Case, order: Order, a: Answer)
    ensures var t, chosen := AsTrace(c, order, InOrder(c.candidates, order), a), ChosenBy(c, order, a);
            && t.caseId == c.caseId && t.order == order && t.expectedEvidenceId == c.expected
            && t.candidateCount == |c.candidates| && Shows(c.candidates, order, t.candidates)
            && t.outcome == (if a.outcome.Selected? && chosen.None? then Invalid else a.outcome)
            && t.selection == (if a.outcome.Selected? then Some(a.selection) else None)
            && t.mappedEvidenceId == (if chosen == Some("") then None else chosen)
            && (t.classification.Correct? <==>
                  if c.expected == "ABSTAIN" then a.outcome.Abstained? else chosen == Some(c.expected))
            && (t.classification.Wrong? <==>
                  if c.expected == "ABSTAIN" then a.outcome.Selected?
                  else chosen.Some? && chosen.value != c.expected && chosen.value != "")
            && t.elapsedMs == Some(a.elapsedMs) && t.rawOutputShape == a.rawOutputShape
  {
    ShowsExactly(c.candidates, order, WithLabels(InOrder(c.candidates, order)));
  }

  function Slot(cases: seq<Case>, answers: Answers, x: nat): Trace
    requires x < 2 * |cases|
  {
    var c := cases[x / 2];
    AsTrace(c, OrderOf(x), InOrder(c.candidates, OrderOf(x)), answers(x))
  }

  /** The traces of a run that starts with none. */
  function Fresh(cases: seq<Case>, answers: Answers): (r: seq<Trace>)
    ensures |r| == 2 * |cases|
  {
    seq(2 * |cases|, x requires 0 <= x < 2 * |cases| => Slot(cases, answers, x))
  }

  function TraceKey(t: Trace): (string, Order) { (t.caseId, t.order) }

  function TraceKeys(traces: seq<Trace>): set<(string, Order)> {
    if traces == [] then {} else TraceKeys(traces[..|traces| - 1]) + {TraceKey(traces[|traces| - 1])}
  }

  function AddNew(traces: seq<Trace>, t: Trace): seq<Trace> {
    if TraceKey(t) in TraceKeys(traces) then traces else traces + [t]
  }

  /** The existing traces, then those of the offered ones whose invocation is not there yet. */
  function Merged(existing: seq<Trace>, offered: seq<Trace>): seq<Trace> {
    if offered == [] then existing
    else AddNew(Merged(existing, offered[..|offered| - 1]), offered[|offered| - 1])
  }

  predicate Fits(c: Case) { 2 <= |c.candidates| <= 3 }

  predicate AllFit(cases: seq<Case>, n: nat)
    requires n <= |cases|
  {
    forall i :: 0 <= i < n ==> Fits(cases[i])
  }

  lemma AllFitStep(cases: seq<Case>, n: nat)
    requires n < |cases|
    ensures AllFit(cases, n + 1) <==> AllFit(cases, n) && Fits(cases[n])
  {
  }

  // Counters

  datatype OrderMetrics = OrderMetrics(
    positiveCorrect: nat, positiveWrong: nat, positiveAbstain: nat, abstainCorrect: nat, unsupportedSelection: nat)

  datatype Metrics = Metrics(
    primary: OrderMetrics, reversed: OrderMetrics, invalid: nat, providerError: nat, timeout: nat,
    orderInducedWrong: nat, orderInducedOutcomeDisagreement: nat)

  const None5 := OrderMetrics(0, 0, 0, 0, 0)

  const Zero := Metrics(None5, None5, 0, 0, 0, 0, 0)

  function Plus5(a: OrderMetrics, b: OrderMetrics): OrderMetrics {
    OrderMetrics(a.positiveCorrect + b.positiveCorrect, a.positiveWrong + b.positiveWrong,
      a.positiveAbstain + b.positiveAbstain,
                 a.abstainCorrect + b.abstainCorrect, a.unsupportedSelection + b.unsupportedSelection)
  }

  function Plus(a: Metrics, b: Metrics): Metrics {
    Metrics(Plus5(a.primary, b.primary), Plus5(a.reversed, b.reversed), a.invalid + b.invalid,
      a.providerError + b.providerError,
            a.timeout + b.timeout, a.orderInducedWrong + b.orderInducedWrong,
            a.orderInducedOutcomeDisagreement + b.orderInducedOutcomeDisagreement)
  }

  function One(b: bool): nat { if b then 1 else 0 }

  function OrderShare(abstains: bool, t: Trace): OrderMetrics {
    if abstains then None5.(abstainCorrect := One(t.outcome.Abstained?),
      unsupportedSelection := One(t.outcome.Selected?))
    else None5.(positiveCorrect := One(t.classification.Correct?), positiveWrong := One(t.classification.Wrong?),
                positiveAbstain := One(t.classification.NonSelection? && t.outcome.Abstained?))
  }

  /** What one trace adds; a trace of an unknown case adds nothing. */
  function Share(cases: seq<Case>, t: Trace): Metrics {
    var known := Semantic.Known(cases, t.caseId);
    if known.None? then Zero
    else
      var share := OrderShare(Abstains(known.value), t);
      Metrics(if t.order.Primary? then share else None5, if t.order.Reversed? then share else None5,
              One(t.outcome.Invalid?), One(t.outcome.ProviderError?), One(t.outcome.Timeout?), 0, 0)
  }

  function Tally(cases: seq<Case>, traces: seq<Trace>): Metrics {
    if traces == [] then Zero else Plus(Tally(cases, traces[..|traces| - 1]), Share(cases, traces[|traces| - 1]))
  }

  /** new Map(traces.map(t => [key(t), t])).get(k) */
  function Latest(traces: seq<Trace>, k: (string, Order)): Option<Trace> {
    if traces == [] then None
    else if TraceKey(traces[|traces| - 1]) == k then Some(traces[|traces| - 1])
    else Latest(traces[..|traces| - 1], k)
  }

  /** The text the two orders are compared by: the outcome and the evidence id, a missing one as the empty text. */
  function Shown(t: Trace): (Outcome, string) {
    (t.outcome, if t.mappedEvidenceId.Some? then t.mappedEvidenceId.value else "")
  }

  function PairShare(primary: Option<Trace>, reversed: Option<Trace>): Metrics {
    if primary.None? || reversed.None? then Zero
    else Zero.(orderInducedOutcomeDisagreement := One(Shown(primary.value) != Shown(reversed.value)),
               orderInducedWrong := One(primary.value.classification.Correct? && reversed.value.classification.Wrong?))
  }

  function PairTally(cases: seq<Case>, traces: seq<Trace>): Metrics {
    if cases == [] then Zero
    else
      var id := cases[|cases| - 1].caseId;
      Plus(PairTally(cases[..|cases| - 1], traces),
        PairShare(Latest(traces, (id, Primary)), Latest(traces, (id, Reversed))))
  }

  function MetricsOf(cases: seq<Case>, traces: seq<Trace>): Metrics {
    Plus(Tally(cases, traces), PairTally(cases, traces))
  }

  function Positives(cases: seq<Case>): (n: nat)
    ensures n <= |cases|
  {
    if cases == [] then 0 else Positives(cases[..|cases| - 1]) + One(!Abstains(cases[|cases| - 1]))
  }

  /** The counters when n cases, so many of them positive, are answered right in both orders and nothing went wrong. */
  function Good(n: nat, positives: nat): Metrics
    requires positives <= n
  {
    var good := None5.(positiveCorrect := positives, abstainCorrect := n - positives);
    Metrics(good, good, 0, 0, 0, 0, 0)
  }

  predicate GatePassed(cases: seq<Case>, m: Metrics) {
    m == Good(|cases|, Positives(cases))
  }

  // The run

  lemma TraceKeysStep(traces: seq<Trace>, t: Trace)
    ensures TraceKeys(traces + [t]) == TraceKeys(traces) + {TraceKey(t)}
  {
    assert (traces + [t])[..|traces|] == traces;
  }

  method Invoke(cases: seq<Case>, answers: Answers, x: nat, traces: seq<Trace>, existing: set<(string, Order)>)
    returns (after: seq<Trace>, keys: set<(string, Order)>)
    requires x < 2 * |cases| && existing == TraceKeys(traces)
    ensures keys == TraceKeys(after)
    ensures after == AddNew(traces, Fresh(cases, answers)[x])
  {
    var c, order := cases[x / 2], OrderOf(x);
    after, keys := traces, existing;
    if (c.caseId, order) !in existing {
      var candidates := if order.Primary? then c.candidates else ReversedIds(c.candidates);
      var trace := AsTrace(c, order, candidates, answers(x));
      TraceKeysStep(traces, trace);
      after, keys := traces + [trace], existing + {(c.caseId, order)};
    }
  }

  lemma MergedStep(existing: seq<Trace>, offered: seq<Trace>, x: nat)
    requires x < |offered|
    ensures Merged(existing, offered[..x + 1]) == AddNew(Merged(existing, offered[..x]), offered[x])
  {
    assert offered[..x + 1][..x] == offered[..x];
  }

  lemma MergedTwo(existing: seq<Trace>, offered: seq<Trace>, x: nat, before: seq<Trace>)
    requires x + 1 < |offered| && before == Merged(existing, offered[..x])
    ensures Merged(existing, offered[..x + 2]) == AddNew(AddNew(before, offered[x]), offered[x + 1])
  {
    MergedStep(existing, offered, x);
    var middle := AddNew(before, offered[x]);
    MergedStep(existing, offered, x + 1);
  }

  /** The traces after the first i cases. */
  function Through(cases: seq<Case>, answers: Answers, existing: seq<Trace>, i: nat): seq<Trace>
    requires i <= |cases|
  {
    Merged(existing, Fresh(cases, answers)[..2 * i])
  }

  lemma ThroughStep(cases: seq<Case>, answers: Answers, existing: seq<Trace>, i: nat)
    requires i < |cases|
    ensures Through(cases, answers, existing, i + 1)
         == AddNew(AddNew(Through(cases, answers, existing, i), Fresh(cases, answers)[2 * i]),
           Fresh(cases, answers)[2 * i + 1])
  {
    MergedTwo(existing, Fresh(cases, answers), 2 * i, Through(cases, answers, existing, i));
  }

  /** Both orders of one case. */
  method InvokeCase(cases: seq<Case>, answers: Answers, ghost existingTraces: seq<Trace>, i: nat, traces: seq<Trace>,
      existing: set<(string, Order)>)
    returns (after: seq<Trace>, keys: set<(string, Order)>)
    requires i < |cases| && existing == TraceKeys(traces) && traces == Through(cases, answers, existingTraces, i)
    ensures keys == TraceKeys(after) && after == Through(cases, answers, existingTraces, i + 1)
  {
    ThroughStep(cases, answers, existingTraces, i);
    after, keys := Invoke(cases, answers, 2 * i, traces, existing);
    after, keys := Invoke(cases, answers, 2 * i + 1, after, keys);
  }

  lemma ThroughAll(cases: seq<Case>, answers: Answers, existing: seq<Trace>)
    ensures Through(cases, answers, existing, |cases|) == Merged(existing, Fresh(cases, answers))
    ensures Through(cases, answers, existing, 0) == existing
  {
    TakeAll(Fresh(cases, answers));
  }

  /** The loop of runHoldoutV21Evaluation; refused is the first case of the wrong size, where it stops with an error. */
  method InvokeAll(cases: seq<Case>, answers: Answers, existingTraces: seq<Trace>)
    returns (traces: seq<Trace>, refused: Option<nat>)
    ensures refused.None? ==> AllFit(cases, |cases|)
                              && traces == Merged(existingTraces, Fresh(cases, answers))
    ensures refused.Some? ==> refused.value < |cases| && !Fits(cases[refused.value])
                              && AllFit(cases, refused.value)
                              && traces == Merged(existingTraces, Fresh(cases, answers)[..2 * refused.value])
  {
    ThroughAll(cases, answers, existingTraces);
    traces := existingTraces;
    var existing := KeySet(traces);
    for i := 0 to |cases|
      invariant AllFit(cases, i)
      invariant traces == Through(cases, answers, existingTraces, i)
      invariant existing == TraceKeys(traces)
    {
      AllFitStep(cases, i);
      if |cases[i].candidates| < 2 || |cases[i].candidates| > 3 {
        return traces, Some(i);
      }
      traces, existing := InvokeCase(cases, answers, existingTraces, i, traces, existing);
    }
    refused := None;
  }

  /** runHoldoutV21Evaluation */
  method RunHoldout(cases: seq<Case>, answers: Answers, existingTraces: seq<Trace>)
    returns (traces: seq<Trace>, result: Result<(Metrics, bool), nat>)
    ensures result.Ok? <==> forall i :: 0 <= i < |cases| ==> 2 <= |cases[i].candidates| <= 3
    ensures result.Err? ==> result.error < |cases| && !(2 <= |cases[result.error].candidates| <= 3)
                            && forall i :: 0 <= i < result.error ==> 2 <= |cases[i].candidates| <= 3
    ensures result.Ok? ==> traces == Merged(existingTraces, Fresh(cases, answers))
                           && result.value == (MetricsOf(cases, traces), GatePassed(cases, MetricsOf(cases, traces)))
    ensures result.Err?
      ==> result.error < |cases| && traces == Merged(existingTraces, Fresh(cases, answers)[..2 * result.error])
  {
    var refused;
    traces, refused := InvokeAll(cases, answers, existingTraces);
    if refused.Some? {
      return traces, Err(refused.value);
    }
    var metrics := MetricsFromTraces(cases, traces);
    var passed := ExactGatePassed(cases, metrics);
    result := Ok((metrics, passed));
  }

  method KeySet(traces: seq<Trace>) returns (keys: set<(string, Order)>)
    ensures keys == TraceKeys(traces)
  {
    keys := {};
    for n := 0 to |traces|
      invariant keys == TraceKeys(traces[..n])
    {
      assert traces[..n + 1] == traces[..n] + [traces[n]];
      TraceKeysStep(traces[..n], traces[n]);
      keys := keys + {TraceKey(traces[n])};
    }
    assert traces[..|traces|] == traces;
  }

  lemma TallyStep(cases: seq<Case>, traces: seq<Trace>, n: nat)
    requires n < |traces|
    ensures Tally(cases, traces[..n + 1]) == Plus(Tally(cases, traces[..n]), Share(cases, traces[n]))
  {
    assert traces[..n + 1][..n] == traces[..n];
  }

  lemma PairTallyStep(cases: seq<Case>, traces: seq<Trace>, n: nat)
    requires n < |cases|
    ensures PairTally(cases[..n + 1], traces)
         == Plus(PairTally(cases[..n], traces),
           PairShare(Latest(traces, (cases[n].caseId, Primary)), Latest(traces, (cases[n].caseId, Reversed))))
  {
    assert cases[..n + 1][..n] == cases[..n];
  }

  method CountOrder(order: OrderMetrics, abstains: bool, t: Trace) returns (r: OrderMetrics)
    ensures r == Plus5(order, OrderShare(abstains, t))
  {
    r := order;
    if abstains {
      if t.outcome.Abstained? { r := r.(abstainCorrect := r.abstainCorrect + 1); }
      if t.outcome.Selected? { r := r.(unsupportedSelection := r.unsupportedSelection + 1); }
    } else if t.classification.Correct? {
      r := r.(positiveCorrect := r.positiveCorrect + 1);
    } else if t.classification.Wrong? {
      r := r.(positiveWrong := r.positiveWrong + 1);
    } else if t.outcome.Abstained? {
      r := r.(positiveAbstain := r.positiveAbstain + 1);
    }
  }

  method CountTrace(cases: seq<Case>, m: Metrics, t: Trace) returns (r: Metrics)
    ensures r == Plus(m, Share(cases, t))
  {
    r := m;
    var known := Semantic.Known(cases, t.caseId);
    if known.None? {
      return;
    }
    if t.outcome.Invalid? { r := r.(invalid := r.invalid + 1); }
    if t.outcome.ProviderError? { r := r.(providerError := r.providerError + 1); }
    if t.outcome.Timeout? { r := r.(timeout := r.timeout + 1); }
    var order := CountOrder(if t.order.Primary? then m.primary else m.reversed, Abstains(known.value), t);
    if t.order.Primary? { r := r.(primary := order); } else { r := r.(reversed := order); }
  }

  method CountTraces(cases: seq<Case>, traces: seq<Trace>) returns (metrics: Metrics)
    ensures metrics == Tally(cases, traces)
  {
    metrics := Zero;
    for n := 0 to |traces|
      invariant metrics == Tally(cases, traces[..n])
    {
      TallyStep(cases, traces, n);
      metrics := CountTrace(cases, metrics, traces[n]);
    }
    assert traces[..|traces|] == traces;
  }

  method CountPair(m: Metrics, primary: Option<Trace>, reversed: Option<Trace>) returns (metrics: Metrics)
    ensures metrics == Plus(m, PairShare(primary, reversed))
  {
    metrics := m;
    if primary.None? || reversed.None? {
      return;
    }
    if Shown(primary.value) != Shown(reversed.value) {
      metrics := metrics.(orderInducedOutcomeDisagreement := metrics.orderInducedOutcomeDisagreement + 1);
    }
    if primary.value.classification.Correct? && reversed.value.classification.Wrong? {
      metrics := metrics.(orderInducedWrong := metrics.orderInducedWrong + 1);
    }
  }

  lemma PlusAssociates(a: Metrics, b: Metrics, c: Metrics)
    ensures Plus(Plus(a, b), c) == Plus(a, Plus(b, c))
  {
  }

  method CountPairs(cases: seq<Case>, traces: seq<Trace>, tally: Metrics) returns (metrics: Metrics)
    ensures metrics == Plus(tally, PairTally(cases, traces))
  {
    metrics := tally;
    for i := 0 to |cases|
      invariant metrics == Plus(tally, PairTally(cases[..i], traces))
    {
      PairTallyStep(cases, traces, i);
      ghost var before := PairTally(cases[..i], traces);
      var primary := Latest(traces, (cases[i].caseId, Primary));
      var reversed := Latest(traces, (cases[i].caseId, Reversed));
      PlusAssociates(tally, before, PairShare(primary, reversed));
      metrics := CountPair(metrics, primary, reversed);
    }
    assert cases[..|cases|] == cases;
  }

  method MetricsFromTraces(cases: seq<Case>, traces: seq<Trace>) returns (metrics: Metrics)
    ensures metrics == MetricsOf(cases, traces)
  {
    metrics := CountTraces(cases, traces);
    metrics := CountPairs(cases, traces, metrics);
  }

  method ExactGatePassed(cases: seq<Case>, m: Metrics) returns (passed: bool)
    ensures passed == GatePassed(cases, m)
  {
    var positives := 0;
    for i := 0 to |cases|
      invariant positives == Positives(cases[..i])
    {
      assert cases[..i + 1][..i] == cases[..i];
      if cases[i].expected != "ABSTAIN" { positives := positives + 1; }
    }
    assert cases[..|cases|] == cases;
    var abstains := |cases| - positives;
    passed := && m.primary.positiveCorrect == positives && m.primary.positiveWrong == 0
      && m.primary.positiveAbstain == 0
              && m.primary.abstainCorrect == abstains && m.primary.unsupportedSelection == 0
              && m.reversed.positiveCorrect == positives && m.reversed.positiveWrong == 0
              && m.reversed.positiveAbstain == 0
              && m.reversed.abstainCorrect == abstains && m.reversed.unsupportedSelection == 0
              && m.invalid == 0 && m.providerError == 0 && m.timeout == 0
              && m.orderInducedWrong == 0 && m.orderInducedOutcomeDisagreement == 0;
  }

  // Every invocation exactly once

  ghost predicate Held(traces: seq<Trace>, k: (string, Order)) {
    exists i :: 0 <= i < |traces| && TraceKey(traces[i]) == k
  }

  lemma {:induction false} TraceKeysHold(traces: seq<Trace>, k: (string, Order))
    ensures k in TraceKeys(traces) <==> Held(traces, k)
  {
    if traces != [] {
      var n := |traces| - 1;
      TraceKeysHold(traces[..n], k);
      if Held(traces[..n], k) {
        var i :| 0 <= i < n && TraceKey(traces[..n][i]) == k;
        assert TraceKey(traces[i]) == k;
      }
    }
  }

  /** The traces from position m on repeat no invocation, neither among themselves nor of an earlier one. */
  predicate NewFrom(traces: seq<Trace>, m: nat) {
    forall i, j :: 0 <= i < j < |traces| && m <= j ==> TraceKey(traces[i]) != TraceKey(traces[j])
  }

  lemma NewFromStep(traces: seq<Trace>, m: nat, t: Trace)
    requires NewFrom(traces, m) && TraceKey(t) !in TraceKeys(traces)
    ensures NewFrom(traces + [t], m)
  {
    TraceKeysHold(traces, TraceKey(t));
    var all := traces + [t];
    forall i, j | 0 <= i < j < |all| && m <= j ensures TraceKey(all[i]) != TraceKey(all[j]) {
      if j == |traces| { assert TraceKey(traces[i]) != TraceKey(t); }
    }
  }

  lemma {:induction false} MergedNew(existing: seq<Trace>, offered: seq<Trace>)
    ensures existing <= Merged(existing, offered) && NewFrom(Merged(existing, offered), |existing|)
  {
    if offered != [] {
      var init, t := offered[..|offered| - 1], offered[|offered| - 1];
      MergedNew(existing, init);
      if TraceKey(t) !in TraceKeys(Merged(existing, init)) { NewFromStep(Merged(existing, init), |existing|, t); }
    }
  }

  lemma AddNewKeys(traces: seq<Trace>, t: Trace)
    ensures TraceKeys(AddNew(traces, t)) == TraceKeys(traces) + {TraceKey(t)}
  {
    TraceKeysStep(traces, t);
  }

  lemma {:induction false} MergedHolds(existing: seq<Trace>, offered: seq<Trace>, x: nat, n: nat)
    requires x < n <= |offered|
    ensures TraceKey(offered[x]) in TraceKeys(Merged(existing, offered[..n]))
  {
    MergedStep(existing, offered, n - 1);
    AddNewKeys(Merged(existing, offered[..n - 1]), offered[n - 1]);
    if x < n - 1 { MergedHolds(existing, offered, x, n - 1); }
  }

  lemma FreshKey(cases: seq<Case>, answers: Answers, x: nat)
    requires x < 2 * |cases|
    ensures TraceKey(Fresh(cases, answers)[x]) == (cases[x / 2].caseId, OrderOf(x))
  {
  }

  lemma RunHolds(cases: seq<Case>, answers: Answers, existing: seq<Trace>, i: nat, o: Order)
    requires i < |cases|
    ensures (cases[i].caseId, o) in TraceKeys(Merged(existing, Fresh(cases, answers)))
  {
    FreshKey(cases, answers, SlotOf(i, o));
    MergedHolds(existing, Fresh(cases, answers), SlotOf(i, o), 2 * |cases|);
    TakeAll(Fresh(cases, answers));
  }

  /** Whatever traces a run starts with, it keeps them, ends with a trace of every invocation of every case, and repeats
  none of them. */
  lemma RunIsComplete(cases: seq<Case>, answers: Answers, existing: seq<Trace>, traces: seq<Trace>)
    requires traces == Merged(existing, Fresh(cases, answers))
    ensures existing <= traces && NewFrom(traces, |existing|)
    ensures forall i, o :: 0 <= i < |cases| ==> (cases[i].caseId, o) in TraceKeys(traces)
  {
    MergedNew(existing, Fresh(cases, answers));
    forall i, o | 0 <= i < |cases| ensures (cases[i].caseId, o) in TraceKeys(traces) {
      RunHolds(cases, answers, existing, i, o);
    }
  }

  // Resuming a run of the same cases

  /** The cases the gate is run on. */
  predicate WellFormed(cases: seq<Case>) {
    && Semantic.UniqueIds(cases) && 2 * |cases| <= MAX_SAFE_INTEGER
    && AllFit(cases, |cases|) && (forall i :: 0 <= i < |cases| ==> cases[i].caseId != "")
    && (forall i, x :: 0 <= i < |cases| && x in cases[i].candidates ==> x != "")
  }

  /** The answers of a run whose first m slots were answered before it. */
  function Combined(earlier: Answers, later: Answers, m: nat): Answers {
    (x: nat) => if x < m then earlier(x) else later(x)
  }

  lemma FreshDistinct(cases: seq<Case>, answers: Answers, x: nat, y: nat)
    requires Semantic.UniqueIds(cases) && x < y < 2 * |cases|
    ensures TraceKey(Slot(cases, answers, x)) != TraceKey(Slot(cases, answers, y))
  {
    if x / 2 == y / 2 {
      assert OrderOf(x) != OrderOf(y);
    } else {
      assert x / 2 < y / 2;
    }
  }

  predicate DistinctTraces(traces: seq<Trace>) { NewFrom(traces, 0) }

  lemma FreshIsDistinct(cases: seq<Case>, answers: Answers)
    requires Semantic.UniqueIds(cases)
    ensures DistinctTraces(Fresh(cases, answers))
  {
    var all := Fresh(cases, answers);
    forall x, y | 0 <= x < y < |all| ensures TraceKey(all[x]) != TraceKey(all[y]) {
      FreshDistinct(cases, answers, x, y);
    }
  }

  predicate SameKeys(a: seq<Trace>, b: seq<Trace>) {
    |a| == |b| && forall x :: 0 <= x < |a| ==> TraceKey(a[x]) == TraceKey(b[x])
  }

  lemma FillsStep(all: seq<Trace>, t: Trace, m: nat, x: nat)
    requires m <= |all| && x < |all| && DistinctTraces(all) && TraceKey(t) == TraceKey(all[x])
      && (m <= x ==> t == all[x])
    ensures AddNew(all[..if x < m then m else x], t) == all[..if x + 1 < m then m else x + 1]
  {
    var before := all[..if x < m then m else x];
    TraceKeysHold(before, TraceKey(t));
    if x < m {
      assert TraceKey(before[x]) == TraceKey(t);
    } else {
      assert forall i :: 0 <= i < x ==> TraceKey(all[i]) != TraceKey(all[x]);
    }
  }

  /** Offering what is there already, and then what is not, fills up the rest. */
  lemma {:induction false} MergedFills(all: seq<Trace>, offered: seq<Trace>, m: nat, x: nat)
    requires m <= |all| && x <= |all| && DistinctTraces(all) && SameKeys(all, offered)
    requires forall y :: m <= y < |all| ==> all[y] == offered[y]
    ensures Merged(all[..m], offered[..x]) == all[..if x < m then m else x]
  {
    if x > 0 {
      MergedFills(all, offered, m, x - 1);
      MergedStep(all[..m], offered, x - 1);
      FillsStep(all, offered[x - 1], m, x - 1);
    }
  }

  /** A run that continues from the first m traces of an earlier one ends as an uninterrupted run with the same
  answers. */
  lemma ContinuedIsFresh(cases: seq<Case>, earlier: Answers, later: Answers, m: nat)
    requires Semantic.UniqueIds(cases) && m <= 2 * |cases|
    ensures Merged(Fresh(cases, earlier)[..m], Fresh(cases, later)) == Fresh(cases, Combined(earlier, later, m))
  {
    var all, offered := Fresh(cases, Combined(earlier, later, m)), Fresh(cases, later);
    FreshIsDistinct(cases, Combined(earlier, later, m));
    assert Fresh(cases, earlier)[..m] == all[..m];
    assert SameKeys(all, offered);
    MergedFills(all, offered, m, |all|);
    assert offered[..|all|] == offered && all[..|all|] == all;
  }

  // The rebuild

  /** traceMismatch returning undefined. */
  predicate Matches(p: Persisted, c: Case) {
    var t := p.trace;
    && 1 <= p.sequence <= MAX_SAFE_INTEGER
    && t.expectedEvidenceId == c.expected
    && t.candidateCount == |c.candidates|
    && t.candidates == WithLabels(InOrder(c.candidates, t.order))
    && (t.outcome.Selected? ==>
          && t.selection.Some? && t.selection != Some(Abstain) && Truthy(t.mappedEvidenceId)
          && Find(t.candidates, t.selection.value) == t.mappedEvidenceId)
    && (t.elapsedMs.Some? ==> t.elapsedMs.value >= 0)
  }

  /** The same, read off the case; the classification is not looked at. */
  lemma MatchesExactly(p: Persisted, c: Case)
    ensures Matches(p, c) <==>
              var t := p.trace;
              && 1 <= p.sequence <= 0x1F_FFFF_FFFF_FFFF
              && t.expectedEvidenceId == c.expected && t.candidateCount == |c.candidates|
              && Shows(c.candidates, t.order, t.candidates)
              && (t.outcome.Selected? ==>
                    && t.selection.Some? && t.selection.value.Choice? && t.mappedEvidenceId.Some?
                    && t.mappedEvidenceId.value != ""
                    && Named(c.candidates, t.order, t.selection.value.tag) == t.mappedEvidenceId)
              && (t.elapsedMs.Some? ==> t.elapsedMs.value >= 0)
  {
    var t := p.trace;
    ShowsExactly(c.candidates, t.order, t.candidates);
    if t.selection.Some? && t.selection.value.Choice? { FindsNamed(c.candidates, t.order, t.selection.value.tag); }
  }

  predicate Acceptable(cases: seq<Case>, p: Persisted) {
    var known := Semantic.Known(cases, p.trace.caseId);
    known.Some? && Matches(p, known.value)
  }

  predicate Journalled(cases: seq<Case>, s: seq<Persisted>) {
    s == [] || (
      var init, last := s[..|s| - 1], s[|s| - 1];
      Journalled(cases, init) && Acceptable(cases, last) && Key(last) !in Keys(init) && last.sequence !in Numbers(init))
  }

  predicate Covers(cases: seq<Case>, keys: set<(string, Order)>, n: nat)
    requires n <= |cases|
  {
    forall i :: 0 <= i < n ==> (cases[i].caseId, Primary) in keys && (cases[i].caseId, Reversed) in keys
  }

  predicate ValidJournal(cases: seq<Case>, persisted: seq<Persisted>) {
    && Journalled(cases, persisted)
    && |persisted| == 2 * |cases|
    && Covers(cases, Keys(persisted), |cases|)
    && Contiguous(SortBySequence(persisted))
  }

  datatype Rebuilt = Complete(traces: seq<Trace>, metrics: Metrics, gatePassed: bool) | InfrastructureBlocked

  function Report(cases: seq<Case>, traces: seq<Trace>): Rebuilt {
    var m := MetricsOf(cases, traces);
    Complete(traces, m, GatePassed(cases, m))
  }

  function Rebuild(cases: seq<Case>, persisted: seq<Persisted>): Rebuilt {
    if ValidJournal(cases, persisted) then Report(cases, Stripped(SortBySequence(persisted))) else InfrastructureBlocked
  }

  lemma JournalledStep(cases: seq<Case>, s: seq<Persisted>, n: nat)
    requires n < |s|
    ensures Journalled(cases, s[..n + 1]) <==>
              Journalled(cases, s[..n]) && Acceptable(cases, s[n]) && Key(s[n]) !in Keys(s[..n])
                && s[n].sequence !in Numbers(s[..n])
    ensures Keys(s[..n + 1]) == Keys(s[..n]) + {Key(s[n])} && Numbers(s[..n + 1]) == Numbers(s[..n]) + {s[n].sequence}
  {
    assert s[..n + 1][..n] == s[..n];
  }

  lemma {:induction false} JournalledPrefix(cases: seq<Case>, s: seq<Persisted>, n: nat)
    requires n <= |s| && Journalled(cases, s)
    ensures Journalled(cases, s[..n])
  {
    if n < |s| {
      assert s[..|s| - 1][..n] == s[..n];
      JournalledPrefix(cases, s[..|s| - 1], n);
    } else {
      assert s[..n] == s;
    }
  }

  /** The seen sets of the first loop; ok is false as soon as a trace is unknown, repeated, renumbered or mismatched. */
  method Index(cases: seq<Case>, persisted: seq<Persisted>) returns (ok: bool, seenKeys: set<(string, Order)>)
    ensures ok <==> Journalled(cases, persisted)
    ensures ok ==> seenKeys == Keys(persisted)
  {
    seenKeys := {};
    var seenSequences: set<int> := {};
    for n := 0 to |persisted|
      invariant Journalled(cases, persisted[..n])
      invariant seenKeys == Keys(persisted[..n]) && seenSequences == Numbers(persisted[..n])
    {
      var p := persisted[n];
      JournalledStep(cases, persisted, n);
      if !Acceptable(cases, p) || Key(p) in seenKeys || p.sequence in seenSequences {
        if Journalled(cases, persisted) { JournalledPrefix(cases, persisted, n + 1); }
        return false, seenKeys;
      }
      seenKeys := seenKeys + {Key(p)};
      seenSequences := seenSequences + {p.sequence};
    }
    assert persisted[..|persisted|] == persisted;
    ok := true;
  }

  method Covered(cases: seq<Case>, seenKeys: set<(string, Order)>) returns (ok: bool)
    ensures ok <==> Covers(cases, seenKeys, |cases|)
  {
    for i := 0 to |cases|
      invariant Covers(cases, seenKeys, i)
    {
      if (cases[i].caseId, Primary) !in seenKeys || (cases[i].caseId, Reversed) !in seenKeys {
        return false;
      }
    }
    ok := true;
  }

  /** reconstructHoldoutV21Evaluation */
  method Reconstruct(cases: seq<Case>, persisted: seq<Persisted>) returns (r: Rebuilt)
    ensures r == Rebuild(cases, persisted)
  {
    var ok, seenKeys := Index(cases, persisted);
    if !ok || |persisted| != 2 * |cases| {
      return InfrastructureBlocked;
    }
    ok := Covered(cases, seenKeys);
    if !ok {
      return InfrastructureBlocked;
    }
    var ordered := SortBySequence(persisted);
    ok := Semantic.IsContiguous(ordered);
    if !ok {
      return InfrastructureBlocked;
    }
    var traces := Stripped(ordered);
    var metrics := MetricsFromTraces(cases, traces);
    var passed := ExactGatePassed(cases, metrics);
    r := Complete(traces, metrics, passed);
  }

  // What a complete rebuild certifies, whatever the order of the journal

  predicate DistinctNumbers(s: seq<Persisted>) {
    forall i, j :: 0 <= i < j < |s| ==> s[i].sequence != s[j].sequence
  }

  predicate AllAcceptable(cases: seq<Case>, s: seq<Persisted>) {
    forall i :: 0 <= i < |s| ==> Acceptable(cases, s[i])
  }

  predicate Pairwise(cases: seq<Case>, s: seq<Persisted>) {
    AllAcceptable(cases, s) && DistinctKeys(s) && DistinctNumbers(s)
  }

  lemma PairwiseStep(cases: seq<Case>, s: seq<Persisted>, n: nat)
    requires |s| == n + 1
    ensures Pairwise(cases, s) <==>
              Pairwise(cases, s[..n]) && Acceptable(cases, s[n])
                && !Present(s[..n], s[n].trace.caseId, s[n].trace.order)
              && !HasNumber(s[..n], s[n].sequence)
  {
    assert forall i :: 0 <= i < n ==> s[..n][i] == s[i];
  }

  lemma {:induction false} JournalledPairwise(cases: seq<Case>, s: seq<Persisted>)
    ensures Journalled(cases, s) <==> Pairwise(cases, s)
  {
    if s != [] {
      var n := |s| - 1;
      JournalledPairwise(cases, s[..n]);
      KeysOf(s[..n], Key(s[n]));
      NumbersOf(s[..n], s[n].sequence);
      PairwiseStep(cases, s, n);
    }
  }

  lemma ShufflePairwise(cases: seq<Case>, s: seq<Persisted>, shuffled: seq<Persisted>)
    requires Pairwise(cases, s) && multiset(s) == multiset(shuffled)
    ensures Pairwise(cases, shuffled)
  {
    ShuffleDistinctKeys(s, shuffled);
    forall i | 0 <= i < |shuffled| ensures Acceptable(cases, shuffled[i]) {
      assert shuffled[i] in multiset(s);
    }
    forall i, j | 0 <= i < j < |shuffled| ensures shuffled[i].sequence != shuffled[j].sequence {
      ShuffledNumbers(s, shuffled, i, j);
    }
  }

  lemma ShuffledNumbers(s: seq<Persisted>, shuffled: seq<Persisted>, i: nat, j: nat)
    requires multiset(s) == multiset(shuffled) && DistinctNumbers(s) && DistinctKeys(shuffled) && i < j < |shuffled|
    ensures shuffled[i].sequence != shuffled[j].sequence
  {
    assert shuffled[i] in multiset(s) && shuffled[j] in multiset(s);
    var x :| 0 <= x < |s| && s[x] == shuffled[i];
    var y :| 0 <= y < |s| && s[y] == shuffled[j];
    assert Key(shuffled[i]) != Key(shuffled[j]);
    assert x != y;
    if x < y { assert s[x].sequence != s[y].sequence; } else { assert s[y].sequence != s[x].sequence; }
  }

  lemma SortIgnoresOrder(s: seq<Persisted>, shuffled: seq<Persisted>)
    requires multiset(s) == multiset(shuffled) && Contiguous(SortBySequence(s))
    ensures SortBySequence(shuffled) == SortBySequence(s)
  {
    SortSorts(s);
    SortSorts(shuffled);
    NumberedUnique(SortBySequence(s), SortBySequence(shuffled));
  }

  lemma ValidIgnoresOrder(cases: seq<Case>, s: seq<Persisted>, shuffled: seq<Persisted>)
    requires multiset(s) == multiset(shuffled) && ValidJournal(cases, s)
    ensures ValidJournal(cases, shuffled) && SortBySequence(shuffled) == SortBySequence(s)
  {
    JournalledPairwise(cases, s);
    ShufflePairwise(cases, s, shuffled);
    JournalledPairwise(cases, shuffled);
    SameLength(s, shuffled);
    ShuffleKeys(s, shuffled);
    SortIgnoresOrder(s, shuffled);
  }

  /** The rebuild does not depend on the order of the journal. */
  lemma RebuildIgnoresOrder(cases: seq<Case>, s: seq<Persisted>, shuffled: seq<Persisted>)
    requires multiset(s) == multiset(shuffled)
    ensures Rebuild(cases, s) == Rebuild(cases, shuffled)
  {
    if ValidJournal(cases, s) {
      ValidIgnoresOrder(cases, s, shuffled);
    } else if ValidJournal(cases, shuffled) {
      ValidIgnoresOrder(cases, shuffled, s);
    }
  }

  ghost predicate Exact(cases: seq<Case>, persisted: seq<Persisted>) {
    && Pairwise(cases, persisted)
    && |persisted| == 2 * |cases|
    && (forall i, o :: 0 <= i < |cases| ==> Present(persisted, cases[i].caseId, o))
    && (forall q :: 1 <= q <= |persisted| ==> HasNumber(persisted, q))
  }

  lemma CoversAt(cases: seq<Case>, keys: set<(string, Order)>, i: nat, o: Order)
    requires Covers(cases, keys, |cases|) && i < |cases|
    ensures (cases[i].caseId, o) in keys
  {
    assert (cases[i].caseId, Primary) in keys && (cases[i].caseId, Reversed) in keys;
    if o.Primary? {} else {}
  }

  /** Metrics are rebuilt exactly from a journal that has both invocations of every case exactly once, matching, and
  numbered 1 to 2N without a gap or a repeat. */
  lemma CompleteIsExact(cases: seq<Case>, persisted: seq<Persisted>)
    ensures Rebuild(cases, persisted).Complete? <==> Exact(cases, persisted)
  {
    if Exact(cases, persisted) { ExactIsValid(cases, persisted); }
    if ValidJournal(cases, persisted) { ValidIsExact(cases, persisted); }
  }

  lemma ExactIsValid(cases: seq<Case>, persisted: seq<Persisted>)
    requires Exact(cases, persisted)
    ensures ValidJournal(cases, persisted)
  {
    JournalledPairwise(cases, persisted);
    NumbersFill(persisted);
    forall i | 0 <= i < |cases|
      ensures (cases[i].caseId, Primary) in Keys(persisted) && (cases[i].caseId, Reversed) in Keys(persisted)
    {
      KeysOf(persisted, (cases[i].caseId, Primary));
      KeysOf(persisted, (cases[i].caseId, Reversed));
      assert Present(persisted, cases[i].caseId, Primary) && Present(persisted, cases[i].caseId, Reversed);
    }
  }

  lemma ValidIsExact(cases: seq<Case>, persisted: seq<Persisted>)
    requires ValidJournal(cases, persisted)
    ensures Exact(cases, persisted)
  {
    JournalledPairwise(cases, persisted);
    forall i, o | 0 <= i < |cases| ensures Present(persisted, cases[i].caseId, o) {
      CoversAt(cases, Keys(persisted), i, o);
      KeysOf(persisted, (cases[i].caseId, o));
    }
    forall q | 1 <= q <= |persisted| ensures HasNumber(persisted, q) {
      SortedNumber(persisted, q);
    }
  }

  // The rebuild of a run

  lemma SlotMatches(cases: seq<Case>, answers: Answers, x: nat)
    requires WellFormed(cases) && x < 2 * |cases|
    ensures Acceptable(cases, Persisted(x + 1, Slot(cases, answers, x)))
  {
    var c := cases[x / 2];
    Semantic.KnownById(cases, x / 2);
    AllFitAt(cases, x / 2);
    var ids := InOrder(c.candidates, OrderOf(x));
    var answer := answers(x);
    if answer.selection.Choice? {
      FindLabelled(ids, answer.selection.tag);
      if Position(answer.selection.tag) < |ids| { assert ids[Position(answer.selection.tag)] in c.candidates; }
    }
  }

  lemma AllFitAt(cases: seq<Case>, i: nat)
    requires AllFit(cases, |cases|) && i < |cases|
    ensures Fits(cases[i])
  {
  }

  lemma FreshPairwise(cases: seq<Case>, answers: Answers)
    requires WellFormed(cases)
    ensures Pairwise(cases, Numbered(Fresh(cases, answers)))
  {
    var s := Numbered(Fresh(cases, answers));
    forall x | 0 <= x < |s| ensures Acceptable(cases, s[x]) {
      SlotMatches(cases, answers, x);
    }
    forall x, y | 0 <= x < y < |s| ensures Key(s[x]) != Key(s[y]) {
      FreshDistinct(cases, answers, x, y);
    }
  }

  lemma FreshHas(cases: seq<Case>, answers: Answers, s: seq<Persisted>, i: nat, o: Order)
    requires s == Numbered(Fresh(cases, answers)) && i < |cases|
    ensures (cases[i].caseId, o) in Keys(s)
  {
    var x := SlotOf(i, o);
    FreshKey(cases, answers, x);
    assert Key(s[x]) == (cases[i].caseId, o);
    KeysOf(s, (cases[i].caseId, o));
  }

  lemma FreshCovers(cases: seq<Case>, answers: Answers)
    ensures Covers(cases, Keys(Numbered(Fresh(cases, answers))), |cases|)
  {
    var s := Numbered(Fresh(cases, answers));
    forall i | 0 <= i < |cases|
      ensures (cases[i].caseId, Primary) in Keys(s) && (cases[i].caseId, Reversed) in Keys(s) {
      FreshHas(cases, answers, s, i, Primary);
      FreshHas(cases, answers, s, i, Reversed);
    }
  }

  /** Rebuilding from any shuffle of a run's journaled traces is complete and yields exactly the traces, metrics and
  verdict of the run. */
  lemma RebuildEqualsRun(cases: seq<Case>, answers: Answers, persisted: seq<Persisted>)
    requires WellFormed(cases) && multiset(persisted) == multiset(Numbered(Fresh(cases, answers)))
    ensures Rebuild(cases, persisted) == Report(cases, Fresh(cases, answers))
  {
    var traces := Fresh(cases, answers);
    FreshPairwise(cases, answers);
    JournalledPairwise(cases, Numbered(traces));
    FreshCovers(cases, answers);
    ShuffleSorts(traces, Numbered(traces));
    RebuildIgnoresOrder(cases, Numbered(traces), persisted);
  }

  // What the gate verdict says

  /** The right answer to a case: abstain when nothing supports it, otherwise select the expected evidence. */
  predicate Right(c: Case, t: Trace) {
    if Abstains(c) then t.outcome.Abstained? else t.outcome.Selected? && t.mappedEvidenceId == Some(c.expected)
  }

  predicate AllRight(cases: seq<Case>, traces: seq<Trace>, n: nat)
    requires n <= |cases| && |traces| == 2 * |cases|
  {
    forall i :: 0 <= i < n ==> RightAt(cases, traces, i)
  }

  predicate RightAt(cases: seq<Case>, traces: seq<Trace>, i: nat)
    requires i < |cases| && |traces| == 2 * |cases|
  {
    Right(cases[i], traces[2 * i]) && Right(cases[i], traces[2 * i + 1])
  }

  function Hits(m: Metrics): nat {
    m.primary.positiveCorrect + m.primary.abstainCorrect + m.reversed.positiveCorrect + m.reversed.abstainCorrect
  }

  function TwoShares(cases: seq<Case>, traces: seq<Trace>, i: nat): Metrics
    requires i < |cases| && |traces| == 2 * |cases|
  {
    Plus(Share(cases, traces[2 * i]), Share(cases, traces[2 * i + 1]))
  }

  /** The trace is right exactly when it scores a hit, and then it adds nothing else. */
  predicate Scores(cases: seq<Case>, c: Case, t: Trace) {
    var share := OrderShare(Abstains(c), t);
    && Share(cases, t) == Metrics(if t.order.Primary? then share else None5, if t.order.Primary? then None5 else share,
                                  One(t.outcome.Invalid?), One(t.outcome.ProviderError?), One(t.outcome.Timeout?), 0, 0)
    && share.positiveCorrect + share.abstainCorrect == One(Right(c, t))
    && (Right(c, t) ==> t.classification.Correct? && Shown(t) == (t.outcome, if Abstains(c) then "" else c.expected))
  }

  /** The classification of the trace is the one the evaluator gives. */
  predicate Honest(c: Case, t: Trace) {
    && t.caseId == c.caseId
    && (Abstains(c) && t.outcome.Abstained? ==> t.classification.Correct? && t.mappedEvidenceId.None?)
    && (!Abstains(c) ==> (t.classification.Correct? <==> t.outcome.Selected? && t.mappedEvidenceId == Some(c.expected)))
  }

  lemma SlotHonest(c: Case, order: Order, ids: seq<string>, answer: Answer)
    requires |ids| <= 3 && "" !in ids
    ensures Honest(c, AsTrace(c, order, ids, answer))
  {
    if answer.selection.Choice? && Position(answer.selection.tag) < |ids| {
      assert ids[Position(answer.selection.tag)] in ids;
    }
  }

  lemma HonestScores(cases: seq<Case>, i: nat, t: Trace)
    requires Semantic.UniqueIds(cases) && i < |cases| && Honest(cases[i], t)
    ensures Scores(cases, cases[i], t)
  {
    Semantic.KnownById(cases, i);
  }

  /** A run's traces come in pairs, and each scores. */
  predicate Paired(cases: seq<Case>, traces: seq<Trace>) {
    |traces| == 2 * |cases| && forall i :: 0 <= i < |cases| ==> PairAt(cases, traces, i)
  }

  predicate PairAt(cases: seq<Case>, traces: seq<Trace>, i: nat)
    requires i < |cases| && |traces| == 2 * |cases|
  {
    ScoresPair(cases, cases[i], traces[2 * i], traces[2 * i + 1])
  }

  predicate ScoresPair(cases: seq<Case>, c: Case, primary: Trace, reversed: Trace) {
    && TraceKey(primary) == (c.caseId, Primary) && TraceKey(reversed) == (c.caseId, Reversed)
    && Scores(cases, c, primary) && Scores(cases, c, reversed)
  }

  lemma FreshHonest(cases: seq<Case>, answers: Answers, x: nat)
    requires WellFormed(cases) && x < 2 * |cases|
    ensures Honest(cases[x / 2], Fresh(cases, answers)[x])
    ensures TraceKey(Fresh(cases, answers)[x]) == (cases[x / 2].caseId, OrderOf(x))
  {
    var c := cases[x / 2];
    AllFitAt(cases, x / 2);
    SlotHonest(c, OrderOf(x), InOrder(c.candidates, OrderOf(x)), answers(x));
  }

  lemma FreshPairAt(cases: seq<Case>, answers: Answers, traces: seq<Trace>, i: nat)
    requires WellFormed(cases) && i < |cases| && traces == Fresh(cases, answers)
    ensures PairAt(cases, traces, i)
  {
    var x := 2 * i;
    assert x / 2 == i && (x + 1) / 2 == i && OrderOf(x) == Primary && OrderOf(x + 1) == Reversed;
    FreshHonest(cases, answers, x);
    FreshHonest(cases, answers, x + 1);
    HonestScores(cases, i, traces[x]);
    HonestScores(cases, i, traces[x + 1]);
  }

  lemma FreshIsPaired(cases: seq<Case>, answers: Answers)
    requires WellFormed(cases)
    ensures Paired(cases, Fresh(cases, answers))
  {
    forall i | 0 <= i < |cases| ensures PairAt(cases, Fresh(cases, answers), i) {
      FreshPairAt(cases, answers, Fresh(cases, answers), i);
    }
  }

  lemma ShareOfRight(cases: seq<Case>, c: Case, t: Trace)
    requires Scores(cases, c, t) && Right(c, t)
    ensures var g := Good(1, One(!Abstains(c))).primary;
            Share(cases, t) == Metrics(if t.order.Primary? then g else None5, if t.order.Primary? then None5 else g, 0,
              0, 0, 0, 0)
  {
  }

  lemma ShareHits(cases: seq<Case>, c: Case, t: Trace)
    requires Scores(cases, c, t)
    ensures Hits(Share(cases, t)) == One(Right(c, t))
  {
  }

  lemma CaseHits(cases: seq<Case>, c: Case, primary: Trace, reversed: Trace)
    requires ScoresPair(cases, c, primary, reversed)
    ensures Hits(Plus(Share(cases, primary), Share(cases, reversed))) == One(Right(c, primary))
      + One(Right(c, reversed))
  {
    ShareHits(cases, c, primary);
    ShareHits(cases, c, reversed);
    HitsPlus(Share(cases, primary), Share(cases, reversed));
  }

  lemma CaseRight(cases: seq<Case>, c: Case, primary: Trace, reversed: Trace)
    requires ScoresPair(cases, c, primary, reversed) && Right(c, primary) && Right(c, reversed)
    ensures Plus(Share(cases, primary), Share(cases, reversed)) == Good(1, One(!Abstains(c)))
  {
    ShareOfRight(cases, c, primary);
    ShareOfRight(cases, c, reversed);
    GoodHalves(Share(cases, primary), Share(cases, reversed), One(!Abstains(c)));
  }

  lemma GoodHalves(a: Metrics, b: Metrics, p: nat)
    requires p <= 1
    requires a == Metrics(Good(1, p).primary, None5, 0, 0, 0, 0, 0)
      && b == Metrics(None5, Good(1, p).primary, 0, 0, 0, 0, 0)
    ensures Plus(a, b) == Good(1, p)
  {
  }

  lemma HitsPlus(a: Metrics, b: Metrics)
    ensures Hits(Plus(a, b)) == Hits(a) + Hits(b)
  {
  }

  lemma TallyTwo(cases: seq<Case>, traces: seq<Trace>, i: nat)
    requires i < |cases| && |traces| == 2 * |cases|
    ensures Tally(cases, traces[..2 * (i + 1)]) == Plus(Tally(cases, traces[..2 * i]), TwoShares(cases, traces, i))
  {
    var x := 2 * i;
    TallyStep(cases, traces, x);
    TallyStep(cases, traces, x + 1);
    PlusAssociates(Tally(cases, traces[..x]), Share(cases, traces[x]), Share(cases, traces[x + 1]));
  }

  /** The hits of n cases reach 2n exactly when all their answers are right, and then nothing else is counted. */
  ghost predicate Scored(tally: Metrics, n: nat, positives: nat, right: bool) {
    positives <= n && Hits(tally) <= 2 * n && (Hits(tally) == 2 * n <==> right)
      && (right ==> tally == Good(n, positives))
  }

  ghost predicate RunScored(cases: seq<Case>, traces: seq<Trace>, n: nat)
    requires n <= |cases| && |traces| == 2 * |cases|
  {
    Scored(Tally(cases, traces[..2 * n]), n, Positives(cases[..n]), AllRight(cases, traces, n))
  }

  lemma AllRightStep(cases: seq<Case>, traces: seq<Trace>, n: nat)
    requires n < |cases| && |traces| == 2 * |cases|
    ensures AllRight(cases, traces, n + 1) <==> AllRight(cases, traces, n) && RightAt(cases, traces, n)
    ensures Positives(cases[..n + 1]) == Positives(cases[..n]) + One(!Abstains(cases[n]))
  {
    assert cases[..n + 1][..n] == cases[..n];
  }

  lemma GoodPlus(n: nat, p: nat, abstains: bool)
    requires p <= n
    ensures Plus(Good(n, p), Good(1, One(!abstains))) == Good(n + 1, p + One(!abstains))
  {
  }

  /** One more case, from its tally so far and its two shares. */
  lemma ScoredSum(tally: Metrics, two: Metrics, n: nat, p: nat, abstains: bool, before: bool, now: bool)
    requires Scored(tally, n, p, before) && Scored(two, 1, One(!abstains), now)
    ensures Scored(Plus(tally, two), n + 1, p + One(!abstains), before && now)
  {
    HitsPlus(tally, two);
    if before && now { GoodPlus(n, p, abstains); }
  }

  lemma CaseScored(cases: seq<Case>, traces: seq<Trace>, n: nat)
    requires n < |cases| && Paired(cases, traces)
    ensures Scored(TwoShares(cases, traces, n), 1, One(!Abstains(cases[n])), RightAt(cases, traces, n))
  {
    assert PairAt(cases, traces, n);
    CaseHits(cases, cases[n], traces[2 * n], traces[2 * n + 1]);
    if RightAt(cases, traces, n) { CaseRight(cases, cases[n], traces[2 * n], traces[2 * n + 1]); }
  }

  lemma ScoredStep(cases: seq<Case>, traces: seq<Trace>, n: nat)
    requires n < |cases| && Paired(cases, traces) && RunScored(cases, traces, n)
    ensures RunScored(cases, traces, n + 1)
  {
    CaseScored(cases, traces, n);
    TallyTwo(cases, traces, n);
    AllRightStep(cases, traces, n);
    ScoredJoin(Tally(cases, traces[..2 * n]), TwoShares(cases, traces, n), Tally(cases, traces[..2 * (n + 1)]), n,
      Positives(cases[..n]), Positives(cases[..n + 1]), Abstains(cases[n]), AllRight(cases, traces, n),
      RightAt(cases, traces, n), AllRight(cases, traces, n + 1));
  }

  lemma ScoredJoin(tally: Metrics, two: Metrics, next: Metrics, n: nat, p: nat, q: nat, abstains: bool, before: bool,
      now: bool, after: bool)
    requires Scored(tally, n, p, before) && Scored(two, 1, One(!abstains), now)
    requires next == Plus(tally, two) && q == p + One(!abstains) && after == (before && now)
    ensures Scored(next, n + 1, q, after)
  {
    ScoredSum(tally, two, n, p, abstains, before, now);
  }

  lemma {:induction false} RunIsScored(cases: seq<Case>, traces: seq<Trace>, n: nat)
    requires n <= |cases| && Paired(cases, traces)
    ensures RunScored(cases, traces, n)
  {
    if n > 0 {
      RunIsScored(cases, traces, n - 1);
      ScoredStep(cases, traces, n - 1);
    }
  }

  lemma {:induction false} LatestFound(traces: seq<Trace>, x: nat)
    requires DistinctTraces(traces) && x < |traces|
    ensures Latest(traces, TraceKey(traces[x])) == Some(traces[x])
  {
    var n := |traces| - 1;
    if x < n { LatestFound(traces[..n], x); }
  }

  lemma RightPair(cases: seq<Case>, c: Case, primary: Trace, reversed: Trace)
    requires ScoresPair(cases, c, primary, reversed) && Right(c, primary) && Right(c, reversed)
    ensures PairShare(Some(primary), Some(reversed)) == Zero
  {
  }

  lemma PairFound(cases: seq<Case>, traces: seq<Trace>, i: nat)
    requires Paired(cases, traces) && DistinctTraces(traces) && i < |cases|
    ensures Latest(traces, (cases[i].caseId, Primary)) == Some(traces[2 * i])
    ensures Latest(traces, (cases[i].caseId, Reversed)) == Some(traces[2 * i + 1])
  {
    assert PairAt(cases, traces, i);
    LatestFound(traces, 2 * i);
    LatestFound(traces, 2 * i + 1);
  }

  lemma {:induction false} NoDisagreement(cases: seq<Case>, traces: seq<Trace>, n: nat)
    requires Paired(cases, traces) && DistinctTraces(traces) && n <= |cases| && AllRight(cases, traces, |cases|)
    ensures PairTally(cases[..n], traces) == Zero
  {
    if n > 0 {
      var i := n - 1;
      NoDisagreement(cases, traces, i);
      PairTallyStep(cases, traces, i);
      PairFound(cases, traces, i);
      assert PairAt(cases, traces, i) && RightAt(cases, traces, i);
      RightPair(cases, cases[i], traces[2 * i], traces[2 * i + 1]);
      PlusZero(PairTally(cases[..i], traces));
    }
  }

  lemma PlusZero(m: Metrics)
    ensures Plus(m, Zero) == m
  {
  }

  lemma GateSum(tally: Metrics, pairs: Metrics, n: nat, p: nat, right: bool)
    requires Scored(tally, n, p, right) && Hits(pairs) == 0 && (right ==> pairs == Zero)
    ensures Plus(tally, pairs) == Good(n, p) <==> right
  {
    HitsPlus(tally, pairs);
    if right { PlusZero(tally); }
  }

  lemma GateOfPairs(cases: seq<Case>, traces: seq<Trace>)
    requires Paired(cases, traces) && DistinctTraces(traces)
    ensures GatePassed(cases, MetricsOf(cases, traces)) <==> AllRight(cases, traces, |cases|)
  {
    var n := |cases|;
    RunIsScored(cases, traces, n);
    assert traces[..2 * n] == traces && cases[..n] == cases;
    PairHits(cases, traces);
    if AllRight(cases, traces, n) { NoDisagreement(cases, traces, n); }
    GateSum(Tally(cases, traces), PairTally(cases, traces), n, Positives(cases), AllRight(cases, traces, n));
  }

  /** The answer to a case in one order is the expected one. */
  predicate AnsweredRight(c: Case, order: Order, a: Answer) {
    if c.expected == "ABSTAIN" then a.outcome.Abstained? else ChosenBy(c, order, a) == Some(c.expected)
  }

  /** The answers to case i, in slots 2i and 2i + 1, are. */
  predicate BothRight(cases: seq<Case>, answers: Answers, i: nat)
    requires i < |cases|
  {
    AnsweredRight(cases[i], Primary, answers(2 * i)) && AnsweredRight(cases[i], Reversed, answers(2 * i + 1))
  }

  /** The gate passes if and only if every case is answered right in both orders. */
  lemma GateIsExact(cases: seq<Case>, answers: Answers)
    requires WellFormed(cases)
    ensures Report(cases, Fresh(cases, answers)).gatePassed <==>
              AllRight(cases, Fresh(cases, answers), |cases|)
    ensures Report(cases, Fresh(cases, answers)).gatePassed <==>
              forall i: nat :: i < |cases| ==> BothRight(cases, answers, i)
  {
    FreshIsPaired(cases, answers);
    FreshIsDistinct(cases, answers);
    GateOfPairs(cases, Fresh(cases, answers));
    AllRightIsAnswered(cases, answers);
  }

  lemma AllRightIsAnswered(cases: seq<Case>, answers: Answers)
    requires WellFormed(cases)
    ensures AllRight(cases, Fresh(cases, answers), |cases|)
       <==> forall i: nat :: i < |cases| ==> BothRight(cases, answers, i)
  {
    forall i: nat | i < |cases| ensures RightAt(cases, Fresh(cases, answers), i) <==> BothRight(cases, answers, i) {
      RightIsAnswered(cases, answers, i);
    }
  }

  lemma RightIsAnswered(cases: seq<Case>, answers: Answers, i: nat)
    requires i < |cases| && "" !in cases[i].candidates
    ensures RightAt(cases, Fresh(cases, answers), i) <==> BothRight(cases, answers, i)
  {
    SlotIsAnswered(cases, answers, i, Primary);
    SlotIsAnswered(cases, answers, i, Reversed);
  }

  lemma SlotIsAnswered(cases: seq<Case>, answers: Answers, i: nat, o: Order)
    requires i < |cases| && "" !in cases[i].candidates
    ensures SlotOf(i, o) < 2 * |cases|
    ensures Right(cases[i], Fresh(cases, answers)[SlotOf(i, o)]) <==> AnsweredRight(cases[i], o, answers(SlotOf(i, o)))
  {
    var x := SlotOf(i, o);
    OrderIsAnswered(cases[i], o, answers(x));
    assert Fresh(cases, answers)[x] == Slot(cases, answers, x);
  }

  lemma OrderIsAnswered(c: Case, order: Order, a: Answer)
    requires "" !in c.candidates
    ensures Right(c, AsTrace(c, order, InOrder(c.candidates, order), a)) <==> AnsweredRight(c, order, a)
  {
    TraceIsExact(c, order, a);
  }

  lemma {:induction false} PairHits(cases: seq<Case>, traces: seq<Trace>)
    ensures Hits(PairTally(cases, traces)) == 0
  {
    if cases != [] { PairHits(cases[..|cases| - 1], traces); }
  }
}
