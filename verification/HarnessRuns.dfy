/** The offline harness: a declared run, its receipt, and the integrity check of a report against them
(harness/suites.ts, harness/runner.ts, harness/evaluate.ts). A hash is taken to stand for the value it was computed
from, as CanonicalJson justifies; the values here have fixed keys, so that being the same is being equal. */
module HarnessRuns {
  import opened Wrappers

  /** context and input are what the service is called with. */
  datatype Case = Case(caseId: string, context: Id, input: Id)

  datatype Limits = Limits(maxAgentTurns: nat, maxToolCalls: nat, overallTurnTimeoutMs: nat, perToolTimeoutMs: nat)

  datatype Config = Config(
    sourceCommit: string, sourceTree: string, deterministic: bool, provider: string, model: string,
    retrievalStrategy: string,
    embeddingProfile: Option<string>, limits: Limits, sequential: bool)

  /** corpus is None when it was not observed. */
  datatype Inputs = Inputs(suiteId: string, cases: seq<Case>, config: Config, corpus: Option<Id>)

  datatype Declaration = Declaration(
    runId: string, suiteId: string, suite: seq<Case>, config: Config, corpus: Option<Id>, expectedCaseIds: seq<string>)

  datatype HarnessError = EmptySuite | DuplicateCase | InvalidIdentity | InvalidSourceIdentity | UnsupportedConfig
    | DeclarationMismatch

  predicate Distinct(ids: seq<string>) { forall i, j :: 0 <= i < j < |ids| ==> ids[i] != ids[j] }

  predicate SourceIdentity(id: string) {
    id == "unknown" || (|id| == 40 && forall i :: 0 <= i < 40 ==> 'a' <= id[i] <= 'f' || '0' <= id[i] <= '9')
  }

  predicate Supported(c: Config) {
    && c.deterministic && c.embeddingProfile.None? && c.retrievalStrategy in {"lexical", "fake"} && c.sequential
    && c.limits == Limits(4, 6, 10000, 2000)
  }

  function IdsOf(cases: seq<Case>): (r: seq<string>)
    ensures |r| == |cases|
  {
    seq(|cases|, i requires 0 <= i < |cases| => cases[i].caseId)
  }

  /** declareRun */
  function Declare(runId: string, inputs: Inputs): Result<Declaration, HarnessError> {
    var ids := IdsOf(inputs.cases);
    if inputs.cases == [] then Err(EmptySuite)
    else if !Distinct(ids) then Err(DuplicateCase)
    else if !(NotBlank(runId) && NotBlank(inputs.suiteId) && (forall id :: id in ids ==> NotBlank(id))
              && NotBlank(inputs.config.provider) && NotBlank(inputs.config.model)) then Err(InvalidIdentity)
    else if !(SourceIdentity(inputs.config.sourceCommit) && SourceIdentity(inputs.config.sourceTree)) then
      Err(InvalidSourceIdentity)
    else if !Supported(inputs.config) then Err(UnsupportedConfig)
    else Ok(Declaration(runId, inputs.suiteId, inputs.cases, inputs.config, inputs.corpus, ids))
  }

  /** Every case has an id of its own. */
  predicate OwnIds(cases: seq<Case>) {
    forall i, j :: 0 <= i < |cases| && 0 <= j < |cases| && cases[i].caseId == cases[j].caseId ==> i == j
  }

  predicate Identified(runId: string, inputs: Inputs) {
    && NotBlank(runId) && NotBlank(inputs.suiteId)
    && NotBlank(inputs.config.provider) && NotBlank(inputs.config.model)
    && forall i :: 0 <= i < |inputs.cases| ==> NotBlank(inputs.cases[i].caseId)
  }

  /** Forty hexadecimal digits, or the word. */
  predicate Commit(id: string) { id == "unknown" || (|id| == 40 && forall c :: c in id ==> c in "0123456789abcdef") }

  predicate FirstStage(c: Config) {
    && c.deterministic && c.sequential && c.embeddingProfile == None
    && (c.retrievalStrategy == "lexical" || c.retrievalStrategy == "fake")
    && c.limits.maxAgentTurns == 4 && c.limits.maxToolCalls == 6
    && c.limits.overallTurnTimeoutMs == 10000 && c.limits.perToolTimeoutMs == 2000
  }

  /** A run is declared exactly for distinct named cases from a known source under the supported configuration, and is
  refused for the first of these that fails; the declaration is of these very cases, in order. */
  lemma DeclareIsExact(runId: string, inputs: Inputs)
    ensures var r := Declare(runId, inputs);
            var known := Commit(inputs.config.sourceCommit) && Commit(inputs.config.sourceTree);
            && (r == Err(EmptySuite) <==> |inputs.cases| == 0)
            && (r == Err(DuplicateCase) <==> |inputs.cases| > 0 && !OwnIds(inputs.cases))
            && (r == Err(InvalidIdentity) <==>
                  |inputs.cases| > 0 && OwnIds(inputs.cases) && !Identified(runId, inputs))
            && (r == Err(InvalidSourceIdentity) <==>
                  |inputs.cases| > 0 && OwnIds(inputs.cases) && Identified(runId, inputs) && !known)
            && (r == Err(UnsupportedConfig) <==>
                  && |inputs.cases| > 0 && OwnIds(inputs.cases) && Identified(runId, inputs) && known
                  && !FirstStage(inputs.config))
            && (r.Ok? ==>
                  && r.value.runId == runId && r.value.suiteId == inputs.suiteId && r.value.suite == inputs.cases
                  && r.value.config == inputs.config && r.value.corpus == inputs.corpus
                  && |r.value.expectedCaseIds| == |inputs.cases|
                  && forall i :: 0 <= i < |inputs.cases| ==> r.value.expectedCaseIds[i] == inputs.cases[i].caseId)
            && r != Err(DeclarationMismatch)
  {
    var ids := IdsOf(inputs.cases);
    forall i, j | 0 <= i < |inputs.cases| && 0 <= j < |inputs.cases| && Distinct(ids)
      ensures inputs.cases[i].caseId == inputs.cases[j].caseId ==> i == j
    {
      assert ids[i] == inputs.cases[i].caseId && ids[j] == inputs.cases[j].caseId;
    }
    forall i, j | 0 <= i < j < |ids| && OwnIds(inputs.cases) ensures ids[i] != ids[j] {
    }
    assert (forall id :: id in ids ==> NotBlank(id)) <==>
        forall i :: 0 <= i < |inputs.cases| ==> NotBlank(inputs.cases[i].caseId) by {
      forall i | 0 <= i < |inputs.cases| ensures inputs.cases[i].caseId in ids {
        assert ids[i] == inputs.cases[i].caseId;
      }
    }
    CommitExactly(inputs.config.sourceCommit);
    CommitExactly(inputs.config.sourceTree);
  }

  lemma CommitExactly(id: string)
    ensures SourceIdentity(id) <==> Commit(id)
  {
    var digits := "0123456789abcdef";
    assert digits[0] == '0' && digits[1] == '1' && digits[2] == '2' && digits[3] == '3' && digits[4] == '4';
    assert digits[5] == '5' && digits[6] == '6' && digits[7] == '7' && digits[8] == '8' && digits[9] == '9';
    assert digits[10] == 'a' && digits[11] == 'b' && digits[12] == 'c' && digits[13] == 'd' && digits[14] == 'e';
    assert digits[15] == 'f';
    forall c: char ensures c in digits <==> 'a' <= c <= 'f' || '0' <= c <= '9' {
      DigitExactly(c);
    }
    assert |id| == 40 ==> forall i :: 0 <= i < 40 ==> id[i] in id;
  }

  lemma DigitExactly(c: char)
    ensures c in "0123456789abcdef" <==> 'a' <= c <= 'f' || '0' <= c <= '9'
  {
    var digits := "0123456789abcdef";
    if '0' <= c <= '9' { assert digits[c as int - '0' as int] == c; }
    if 'a' <= c <= 'f' { assert digits[10 + c as int - 'a' as int] == c; }
  }

  // Running

  datatype ResultType = Answer | Fallback | Escalation | ExecutionError

  datatype Reference = Reference(id: string, version: string, sourceRef: string, kind: Id)

  /** What the service does for one case; a returned type is one of the first three. */
  datatype Reply = Throws | Returns(type_: ResultType, evidence: seq<Reference>, toolsCalled: seq<string>)

  datatype Measurement = Measurement(
    caseId: string, finalResult: ResultType, evidence: Option<seq<Reference>>, attemptedOperations: Option<seq<string>>)

  datatype HarnessRun = HarnessRun(
    declaration: Declaration, measurements: seq<Measurement>, complete: bool, marker: Option<seq<Measurement>>)

  /** assertReturnedResult passes. */
  predicate Good(r: Reply) {
    && r.Returns? && !r.type_.ExecutionError?
    && forall i :: 0 <= i < |r.evidence|
         ==> NotBlank(r.evidence[i].id) && NotBlank(r.evidence[i].version) && NotBlank(r.evidence[i].sourceRef)
  }

  function Measured(c: Case, r: Reply): Measurement {
    if Good(r) then Measurement(c.caseId, r.type_, Some(r.evidence), Some(r.toolsCalled))
    else Measurement(c.caseId, ExecutionError, None, None)
  }

  function MeasuredAll(cases: seq<Case>, replies: nat -> Reply): (r: seq<Measurement>)
    ensures |r| == |cases|
  {
    seq(|cases|, i requires 0 <= i < |cases| => Measured(cases[i], replies(i)))
  }

  /** The suite completes: the abort signal is not seen at any of the checks 0 to |cases|, and every reply is good. */
  predicate Completes(cases: seq<Case>, replies: nat -> Reply, abortAt: nat) {
    abortAt > |cases| && forall i :: 0 <= i < |cases| ==> Good(replies(i))
  }

  /** n cases were measured: all before were good, and it stopped there for a reason. */
  predicate StopsAt(cases: seq<Case>, replies: nat -> Reply, abortAt: nat, n: nat) {
    && n <= |cases| && n <= abortAt
    && (forall i :: 0 <= i < n - 1 ==> Good(replies(i)))
    && (n < |cases| ==> abortAt == n || (n > 0 && !Good(replies(n - 1))))
  }

  /** runSuite; abortAt is the first check of the signal that sees it aborted. The receipt is the returned run. */
  method RunSuite(declaration: Declaration, inputs: Inputs, replies: nat -> Reply, abortAt: nat)
    returns (r: Result<HarnessRun, HarnessError>, calls: nat)
    ensures r.Ok? <==> Declare(declaration.runId, inputs) == Ok(declaration)
    ensures r.Ok? ==>
              && StopsAt(inputs.cases, replies, abortAt, calls)
              && r.value.declaration == declaration
              && r.value.measurements == MeasuredAll(inputs.cases, replies)[..calls]
              && r.value.complete == Completes(inputs.cases, replies, abortAt)
              && r.value.marker == if r.value.complete then Some(r.value.measurements) else None
    ensures r.Ok? ==> Ran(r.value, declaration, inputs, replies, abortAt)
    ensures r.Err? ==> calls == 0
  {
    calls := 0;
    var actual := Declare(declaration.runId, inputs);
    if actual.Err? {
      return Err(actual.error), calls;
    }
    if actual.value != declaration {
      return Err(DeclarationMismatch), calls;
    }
    var cases := inputs.cases;
    var measurements: seq<Measurement> := [];
    var stopped := false;
    while calls < |cases| && !stopped
      invariant calls <= |cases| && calls <= abortAt && measurements == MeasuredAll(cases, replies)[..calls]
      invariant forall i :: 0 <= i < calls - 1 ==> Good(replies(i))
      invariant !stopped && calls > 0 ==> Good(replies(calls - 1))
      invariant stopped ==> abortAt == calls || (calls > 0 && !Good(replies(calls - 1)))
      decreases |cases| - calls, !stopped
    {
      if abortAt <= calls {
        stopped := true;
      } else {
        measurements := measurements + [Measured(cases[calls], replies(calls))];
        stopped := !Good(replies(calls));
        calls := calls + 1;
      }
    }
    var failed := Failed(measurements);
    ghost var all := MeasuredAll(cases, replies);
    assert calls == |cases| ==> all[..calls] == all;
    var complete := abortAt > |cases| && |measurements| == |declaration.expectedCaseIds| && !failed;
    assert complete ==> forall i :: 0 <= i < |cases| ==> Good(replies(i)) by {
      if complete {
        forall i | 0 <= i < |cases| ensures Good(replies(i)) {
          assert measurements[i] == Measured(cases[i], replies(i)) && !measurements[i].finalResult.ExecutionError?;
        }
      }
    }
    assert Completes(cases, replies, abortAt) ==> complete;
    r := Ok(HarnessRun(declaration, measurements, complete, if complete then Some(measurements) else None));
  }

  predicate HasError(measurements: seq<Measurement>) {
    exists i :: 0 <= i < |measurements| && measurements[i].finalResult.ExecutionError?
  }

  method Failed(measurements: seq<Measurement>) returns (failed: bool)
    ensures failed == HasError(measurements)
  {
    for i := 0 to |measurements|
      invariant forall k :: 0 <= k < i ==> !measurements[k].finalResult.ExecutionError?
    {
      if measurements[i].finalResult.ExecutionError? {
        return true;
      }
    }
    failed := false;
  }

  // Checking

  datatype Issue =
    | ReceiptMismatch | DeclarationDiffers | DuplicateCases | CasePopulationMismatch | ExecutionFailed
    | ExecutionIncomplete
    | CompletionMarkerMissing | CompletionMarkerMismatch | MalformedRun

  /** A report as it comes back: its declaration may be missing, and its measurements missing or no list of
  measurements. */
  datatype Report = Report(
    declaration: Option<Declaration>, measurements: Option<seq<Measurement>>, complete: bool,
    marker: Option<seq<Measurement>>)

  function Reported(run: HarnessRun): Report {
    Report(Some(run.declaration), Some(run.measurements), run.complete, run.marker)
  }

  predicate WellFormed(report: Report) { report.declaration.Some? && report.measurements.Some? }

  function RunOf(report: Report): HarnessRun
    requires WellFormed(report)
  {
    HarnessRun(report.declaration.value, report.measurements.value, report.complete, report.marker)
  }

  function MeasuredIds(measurements: seq<Measurement>): (r: seq<string>)
    ensures |r| == |measurements|
  {
    seq(|measurements|, i requires 0 <= i < |measurements| => measurements[i].caseId)
  }

  /** When each issue is raised; a malformed report stops the checks. */
  predicate Raised(issue: Issue, report: Report, expected: Declaration, receipt: HarnessRun) {
    match issue
    case ReceiptMismatch => report != Reported(receipt)
    case DeclarationDiffers => report.declaration.Some? && report.declaration.value != expected
    case MalformedRun => !WellFormed(report)
    case _ => WellFormed(report) && RaisedByRun(issue, RunOf(report), expected)
  }

  predicate RaisedByRun(issue: Issue, run: HarnessRun, expected: Declaration) {
    match issue
    case DuplicateCases => !Distinct(MeasuredIds(run.measurements)) || !Distinct(expected.expectedCaseIds)
    case CasePopulationMismatch =>
      expected.expectedCaseIds == [] || MeasuredIds(run.measurements) != expected.expectedCaseIds
    case ExecutionFailed => HasError(run.measurements)
    case ExecutionIncomplete => !run.complete
    case CompletionMarkerMissing => run.marker.None?
    case CompletionMarkerMismatch => run.marker.Some? && run.marker.value != run.measurements
    case _ => false
  }

  /** evaluateRun; the report is verified if there are no issues. */
  method EvaluateRun(report: Report, expected: Declaration, receipt: HarnessRun) returns (issues: seq<Issue>)
    ensures forall issue :: issue in issues <==> Raised(issue, report, expected, receipt)
    ensures issues == [] <==> WellFormed(report) && Verified(RunOf(report), expected, receipt)
  {
    issues := [];
    if report != Reported(receipt) { issues := issues + [ReceiptMismatch]; }
    if report.declaration.Some? && report.declaration.value != expected { issues := issues + [DeclarationDiffers]; }
    if report.declaration.None? || report.measurements.None? {
      issues := issues + [MalformedRun];
    } else {
      var more := EvaluateMeasurements(RunOf(report), expected);
      issues := issues + more;
    }
    NoIssues(report, expected, receipt, issues);
  }

  /** Its checks of the measurements and of how the run ended. */
  method EvaluateMeasurements(run: HarnessRun, expected: Declaration) returns (issues: seq<Issue>)
    ensures forall issue :: issue in issues <==> RaisedByRun(issue, run, expected)
  {
    issues := [];
    var actualIds := MeasuredIds(run.measurements);
    if !Distinct(actualIds) || !Distinct(expected.expectedCaseIds) { issues := issues + [DuplicateCases]; }
    if |expected.expectedCaseIds| == 0 || actualIds != expected.expectedCaseIds {
      issues := issues + [CasePopulationMismatch];
    }
    var failed := Failed(run.measurements);
    if failed { issues := issues + [ExecutionFailed]; }
    if !run.complete { issues := issues + [ExecutionIncomplete]; }
    if run.marker.None? {
      issues := issues + [CompletionMarkerMissing];
    } else if run.marker.value != run.measurements {
      issues := issues + [CompletionMarkerMismatch];
    }
  }

  predicate Silent(run: HarnessRun, expected: Declaration) {
    && !RaisedByRun(DuplicateCases, run, expected) && !RaisedByRun(CasePopulationMismatch, run, expected)
    && !RaisedByRun(ExecutionFailed, run, expected) && !RaisedByRun(ExecutionIncomplete, run, expected)
    && !RaisedByRun(CompletionMarkerMissing, run, expected) && !RaisedByRun(CompletionMarkerMismatch, run, expected)
  }

  lemma SilentIsVerified(run: HarnessRun, expected: Declaration, receipt: HarnessRun)
    ensures Verified(run, expected, receipt) <==> run == receipt && run.declaration == expected && Silent(run, expected)
  {
  }

  lemma NoIssues(report: Report, expected: Declaration, receipt: HarnessRun, issues: seq<Issue>)
    requires forall issue :: issue in issues <==> Raised(issue, report, expected, receipt)
    ensures issues == [] <==> WellFormed(report) && Verified(RunOf(report), expected, receipt)
  {
    if WellFormed(report) { SilentIsVerified(RunOf(report), expected, receipt); }
    if issues == [] {
      forall issue ensures !Raised(issue, report, expected, receipt) {
        assert issue !in issues;
      }
      assert !Raised(MalformedRun, report, expected, receipt) && !Raised(ReceiptMismatch, report, expected, receipt);
      assert !Raised(DeclarationDiffers, report, expected, receipt);
      assert !Raised(DuplicateCases, report, expected, receipt)
        && !Raised(CasePopulationMismatch, report, expected, receipt);
      assert !Raised(ExecutionFailed, report, expected, receipt)
        && !Raised(ExecutionIncomplete, report, expected, receipt);
      assert !Raised(CompletionMarkerMissing, report, expected, receipt);
      assert !Raised(CompletionMarkerMismatch, report, expected, receipt);
    } else {
      assert Raised(issues[0], report, expected, receipt);
    }
  }

  /** What a verified run is: the one the receipt was made for, of the expected declaration, with every expected case
  measured exactly once, in order and without an error. */
  predicate Verified(run: HarnessRun, expected: Declaration, receipt: HarnessRun) {
    && run == receipt && run.declaration == expected && run.complete && run.marker == Some(run.measurements)
    && run.measurements != [] && MeasuredIds(run.measurements) == expected.expectedCaseIds
    && Distinct(expected.expectedCaseIds)
    && forall i :: 0 <= i < |run.measurements| ==> !run.measurements[i].finalResult.ExecutionError?
  }

  /** What runSuite returns for a declared run. */
  ghost predicate Ran(run: HarnessRun, declaration: Declaration, inputs: Inputs, replies: nat -> Reply, abortAt: nat) {
    && Declare(declaration.runId, inputs) == Ok(declaration) && run.declaration == declaration
    && (exists n: nat :: StopsAt(inputs.cases, replies, abortAt, n)
         && run.measurements == MeasuredAll(inputs.cases, replies)[..n])
    && run.complete == Completes(inputs.cases, replies, abortAt)
    && run.marker == if run.complete then Some(run.measurements) else None
  }

  /** A run and its own receipt are verified if and only if the run was neither aborted nor met a failing service. */
  lemma OwnReceiptVerifies(run: HarnessRun, declaration: Declaration, inputs: Inputs, replies: nat -> Reply,
      abortAt: nat)
    requires Ran(run, declaration, inputs, replies, abortAt)
    ensures Verified(run, declaration, run) <==> Completes(inputs.cases, replies, abortAt)
  {
    var all := MeasuredAll(inputs.cases, replies);
    var n: nat :| StopsAt(inputs.cases, replies, abortAt, n) && run.measurements == all[..n];
    if Completes(inputs.cases, replies, abortAt) {
      assert n == |inputs.cases| && all[..n] == all;
      assert MeasuredIds(run.measurements) == IdsOf(inputs.cases);
    }
  }

  /** What a verified report certifies about the suite that was declared: each case was answered, once and in order, and
  its measurement is that answer. */
  lemma VerifiedIsWhole(report: HarnessRun, run: HarnessRun, declaration: Declaration, inputs: Inputs,
      replies: nat -> Reply, abortAt: nat)
    requires Ran(run, declaration, inputs, replies, abortAt) && Verified(report, declaration, run)
    ensures report.measurements == MeasuredAll(inputs.cases, replies)
    ensures forall i :: 0 <= i < |inputs.cases| ==>
              Good(replies(i)) && report.measurements[i].caseId == inputs.cases[i].caseId
              && report.measurements[i].finalResult == replies(i).type_
              && report.measurements[i].evidence == Some(replies(i).evidence)
  {
    OwnReceiptVerifies(run, declaration, inputs, replies, abortAt);
    var all := MeasuredAll(inputs.cases, replies);
    var n: nat :| StopsAt(inputs.cases, replies, abortAt, n) && run.measurements == all[..n];
    assert n == |inputs.cases| && all[..n] == all;
  }

  lemma IdsAgree(all: seq<Measurement>, ids: seq<string>)
    ensures MeasuredIds(all) != ids <==> |all| != |ids| || exists i :: 0 <= i < |ids| && all[i].caseId != ids[i]
    ensures Distinct(MeasuredIds(all)) <==> !exists i, j :: 0 <= i < j < |all| && all[i].caseId == all[j].caseId
  {
    assert forall i :: 0 <= i < |all| ==> MeasuredIds(all)[i] == all[i].caseId;
    if MeasuredIds(all) == ids {
      assert forall i :: 0 <= i < |ids| ==> all[i].caseId == ids[i];
    }
  }

  /** The issues of the measurements, read off the run. */
  lemma RunIssuesAreExact(run: HarnessRun, expected: Declaration)
    ensures var all, ids := run.measurements, expected.expectedCaseIds;
            && (RaisedByRun(DuplicateCases, run, expected) <==>
                  || (exists i, j :: 0 <= i < j < |all| && all[i].caseId == all[j].caseId)
                  || (exists i, j :: 0 <= i < j < |ids| && ids[i] == ids[j]))
            && (RaisedByRun(CasePopulationMismatch, run, expected) <==>
                  |ids| == 0 || |all| != |ids| || exists i :: 0 <= i < |ids| && all[i].caseId != ids[i])
            && (RaisedByRun(ExecutionFailed, run, expected) <==>
                  exists i :: 0 <= i < |all| && all[i].finalResult == ExecutionError)
            && (RaisedByRun(ExecutionIncomplete, run, expected) <==> !run.complete)
            && (RaisedByRun(CompletionMarkerMissing, run, expected) <==> run.marker == None)
            && (RaisedByRun(CompletionMarkerMismatch, run, expected) <==> run.marker != None && run.marker != Some(all))
  {
    IdsAgree(run.measurements, expected.expectedCaseIds);
  }

  /** Each issue and its condition, read off the report. */
  lemma IssuesAreExact(report: Report, expected: Declaration, receipt: HarnessRun)
    ensures Raised(ReceiptMismatch, report, expected, receipt) <==>
              report != Report(Some(receipt.declaration), Some(receipt.measurements), receipt.complete, receipt.marker)
    ensures Raised(DeclarationDiffers, report, expected, receipt) <==>
              report.declaration.Some? && report.declaration != Some(expected)
    ensures Raised(MalformedRun, report, expected, receipt) <==> report.declaration.None? || report.measurements.None?
    ensures forall issue :: issue !in {ReceiptMismatch, DeclarationDiffers, MalformedRun} ==>
              (Raised(issue, report, expected, receipt) <==>
                && report.declaration.Some? && report.measurements.Some?
                && RaisedByRun(issue, HarnessRun(report.declaration.value, report.measurements.value, report.complete,
                                                 report.marker), expected))
  {
  }

  /** A result of one of the three kinds, whose references all have an id, a version and a source. */
  predicate Acceptable(r: Reply) {
    && r.Returns? && r.type_ in {Answer, Fallback, Escalation}
    && forall e :: e in r.evidence ==> NotBlank(e.id) && NotBlank(e.version) && NotBlank(e.sourceRef)
  }

  lemma GoodExactly(r: Reply)
    ensures Good(r) <==> Acceptable(r)
  {
    assert r.Returns? ==> (r.type_ in {Answer, Fallback, Escalation} <==> r.type_ != ExecutionError);
  }

  /** What a run measures: the declared cases in order, each with the service's answer or as an error, up to the first
  error or the abort; it is complete exactly if neither came and no abort was seen after the last case. */
  lemma RunIsExact(run: HarnessRun, declaration: Declaration, inputs: Inputs, replies: nat -> Reply, abortAt: nat)
    requires Ran(run, declaration, inputs, replies, abortAt)
    ensures var cases, all := inputs.cases, run.measurements;
            var n := |all|;
            && n <= |cases| && n <= abortAt
            && (forall i :: 0 <= i < n ==>
                  all[i] == if Acceptable(replies(i))
                    then Measurement(cases[i].caseId, replies(i).type_, Some(replies(i).evidence),
                                     Some(replies(i).toolsCalled))
                    else Measurement(cases[i].caseId, ExecutionError, None, None))
            && (forall i :: 0 <= i < n - 1 ==> Acceptable(replies(i)))
            && (n < |cases| ==> abortAt == n || (n > 0 && !Acceptable(replies(n - 1))))
            && (run.complete <==>
                  abortAt > |cases| && n == |cases| && forall i :: 0 <= i < n ==> Acceptable(replies(i)))
  {
    var n: nat :| StopsAt(inputs.cases, replies, abortAt, n)
                  && run.measurements == MeasuredAll(inputs.cases, replies)[..n];
    forall i: nat ensures Good(replies(i)) <==> Acceptable(replies(i)) {
      GoodExactly(replies(i));
    }
  }
}
