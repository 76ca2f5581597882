/** Publishing the final gate report as a transition system: any number of publishers over one directory, each file
operation one step that may fail before or after taking effect, and a crash possible between any two steps
(evals/selection/semantic/durable-journal.ts, writeFinalSemanticGateReportOnce). */
module ReportPublication {
  import opened Wrappers

  type Byte = bv8

  type Bytes = seq<Byte>

  /** The destination, and the temporary name of a publisher, which its random part makes its own. */
  datatype Path = Final | Temp(publisher: Id)

  datatype Operation = Exists | Open | Write | Sync | Close | Recheck | Link | Unlink

  /** Cleaning remembers the operation that threw, and whether it had taken effect by then. */
  datatype Stage =
    | Checking
    | Opening
    | Writing(offset: nat)
    | Syncing
    | Closing
    | Rechecking
    | Linking
    | Unlinking
    | CleanClosing(failed: Operation, applied: bool)
    | CleanChecking(failed: Operation, applied: bool)
    | CleanUnlinking(failed: Operation, applied: bool)
    | Returned
    | Threw(failed: Operation, applied: bool)

  /** A publisher's temporary file is the inode of its own number; a hard link is a second name of it. */
  datatype System = System(names: map<Path, Id>, contents: map<Id, Bytes>, reports: map<Id, Bytes>,
    stages: map<Id, Stage>)

  const Init := System(map[], map[], map[], map[])

  datatype Outcome = Works(written: nat) | Fails(applied: bool)

  datatype Step = Begin(publisher: Id, report: Bytes) | Advance(publisher: Id, outcome: Outcome) | Crash(publisher: Id)

  function At(s: System, p: Id, stage: Stage): System { s.(stages := s.stages[p := stage]) }

  function Named(s: System, path: Path, p: Id): System { s.(names := s.names[path := p]) }

  function Unnamed(s: System, path: Path): System { s.(names := map k | k in s.names && k != path :: s.names[k]) }

  function Filled(s: System, p: Id, content: Bytes): System { s.(contents := s.contents[p := content]) }

  /** openSync with "wx" creates the file or fails; one that took effect leaves an empty file. */
  function OpenStep(s: System, p: Id, o: Outcome): System {
    if Temp(p) in s.names then At(s, p, CleanChecking(Open, false))
    else
      var created := Filled(Named(s, Temp(p), p), p, []);
      match o
      case Works(_) => At(created, p, Writing(0))
      case Fails(applied) => At(if applied then created else s, p, CleanChecking(Open, applied))
  }

  /** One round of writeAll. */
  function WriteStep(s: System, p: Id, offset: nat, o: Outcome): System
    requires p in s.reports && p in s.contents
  {
    var report := s.reports[p];
    if offset >= |report| then At(s, p, Syncing)
    else
      match o
      case Fails(applied) => At(s, p, CleanClosing(Write, applied))
      case Works(written) =>
        var n := if written < |report| - offset then written else |report| - offset;
        At(Filled(s, p, s.contents[p] + report[offset..offset + n]), p, Writing(offset + n))
  }

  function LinkStep(s: System, p: Id, o: Outcome): System {
    if Final in s.names then At(s, p, CleanChecking(Link, false))
    else
      match o
      case Works(_) => At(Named(s, Final, p), p, Unlinking)
      case Fails(applied) => At(if applied then Named(s, Final, p) else s, p, CleanChecking(Link, applied))
  }

  function AdvanceStage(s: System, p: Id, o: Outcome): System
    requires p in s.stages && p in s.reports && (s.stages[p].Writing? ==> p in s.contents)
  {
    match s.stages[p]
    case Checking => At(s, p, if Final in s.names then Threw(Exists, false) else Opening)
    case Opening => OpenStep(s, p, o)
    case Writing(offset) => WriteStep(s, p, offset, o)
    case Syncing => At(s, p, if o.Works? then Closing else CleanClosing(Sync, o.applied))
    case Closing => At(s, p, if o.Works? then Rechecking else CleanClosing(Close, o.applied))
    case Rechecking => At(s, p, if Final in s.names then CleanChecking(Recheck, false) else Linking)
    case Linking => LinkStep(s, p, o)
    case Unlinking =>
      if o.Works? then At(Unnamed(s, Temp(p)), p, Returned)
      else At(if o.applied then Unnamed(s, Temp(p)) else s, p, CleanChecking(Unlink, o.applied))
    case CleanClosing(failed, applied) => At(s, p, CleanChecking(failed, applied))
    case CleanChecking(failed, applied) =>
      At(s, p, if Temp(p) in s.names then CleanUnlinking(failed, applied) else Threw(failed, applied))
    case CleanUnlinking(failed, applied) =>
      At(if o == Fails(false) then s else Unnamed(s, Temp(p)), p, Threw(failed, applied))
    case Returned => s
    case Threw(_, _) => s
  }

  /** One step; a publisher that crashed leaves its files behind and never goes on. */
  function Apply(s: System, step: Step): System {
    match step
    case Begin(p, report) => if p in s.reports then s else At(s.(reports := s.reports[p := report]), p, Checking)
    case Advance(p, o) =>
      if p in s.stages && p in s.reports && (s.stages[p].Writing? ==> p in s.contents) then AdvanceStage(s, p, o) else s
    case Crash(p) => s.(stages := map k | k in s.stages && k != p :: s.stages[k])
  }

  function Run(s: System, steps: seq<Step>): System {
    if steps == [] then s else Apply(Run(s, steps[..|steps| - 1]), steps[|steps| - 1])
  }

  // Invariants

  /** The publisher has not yet linked its file. */
  predicate Before(stage: Stage) {
    stage.Checking? || stage.Opening? || stage.Writing? || stage.Syncing? || stage.Closing? || stage.Rechecking?
      || stage.Linking?
  }

  /** Its link took effect: it was the link itself that threw after that, or the removal of the temporary name. */
  predicate LinkedBefore(failed: Operation, applied: bool) { failed.Unlink? || (failed.Link? && applied) }

  predicate Linked(stage: Stage) {
    match stage
    case Unlinking => true
    case Returned => true
    case CleanClosing(failed, applied) => LinkedBefore(failed, applied)
    case CleanChecking(failed, applied) => LinkedBefore(failed, applied)
    case CleanUnlinking(failed, applied) => LinkedBefore(failed, applied)
    case Threw(failed, applied) => LinkedBefore(failed, applied)
    case _ => false
  }

  predicate Opened(stage: Stage) {
    stage.Writing? || stage.Syncing? || stage.Closing? || stage.Rechecking? || stage.Linking? || stage.Unlinking?
  }

  /** The destination is this publisher's file. */
  predicate Owns(s: System, p: Id) { Final in s.names && s.names[Final] == p }

  /** What a publisher's stage says of its file and of the destination. */
  predicate StageOk(s: System, p: Id) {
    p in s.stages ==>
      && p in s.reports
      && (Opened(s.stages[p]) ==> p in s.contents)
      && (s.stages[p].Writing?
          ==> s.stages[p].offset <= |s.reports[p]| && s.contents[p] == s.reports[p][..s.stages[p].offset])
      && (Opened(s.stages[p]) && !s.stages[p].Writing? ==> s.contents[p] == s.reports[p])
      && (Linked(s.stages[p]) <==> Owns(s, p))
      && (s.stages[p].Returned? ==> Temp(p) !in s.names)
  }

  /** The destination is absent, or the complete report of one publisher. */
  predicate FinalOk(s: System) {
    Final in s.names ==>
      var p := s.names[Final]; p in s.reports && p in s.contents && s.contents[p] == s.reports[p]
  }

  ghost predicate Invariant(s: System) {
    && FinalOk(s) && (forall p :: StageOk(s, p))
    && (forall p :: Temp(p) in s.names || p in s.contents ==> p in s.reports)
  }

  /** Whatever is at the destination stays there, byte for byte. */
  ghost predicate KeepsFinal(s: System, n: System) {
    Final in s.names ==>
      && Final in n.names && n.names[Final] == s.names[Final]
      && (s.names[Final] in s.contents
          ==> s.names[Final] in n.contents && n.contents[s.names[Final]] == s.contents[s.names[Final]])
  }

  /** A step of publisher p touches only its own stage, file and temporary name, and the destination while that is
  free. */
  ghost predicate Touches(s: System, n: System, p: Id) {
    && n.reports == s.reports
    && (forall q :: q in s.stages && q != p ==> q in n.stages && n.stages[q] == s.stages[q])
    && (forall q :: q in n.stages && q != p ==> q in s.stages)
    && (forall q :: q in s.contents ==> q in n.contents && (q != p ==> n.contents[q] == s.contents[q]))
    && (forall q :: q in n.contents && q != p ==> q in s.contents)
    && (forall q :: q != p ==> (Temp(q) in n.names <==> Temp(q) in s.names))
    && (if Final in s.names then Owns(n, s.names[Final]) else Final in n.names ==> n.names[Final] == p)
  }

  lemma OthersKeep(s: System, n: System, p: Id, q: Id)
    requires Touches(s, n, p) && StageOk(s, q) && q != p
    ensures StageOk(n, q)
  {
  }

  /** What one step of p does: its stage stays right, and a file at the destination is not written to. */
  ghost predicate Steps(s: System, n: System, p: Id) {
    && Touches(s, n, p) && StageOk(n, p) && p in n.reports
    && (Owns(s, p) ==> p in s.contents ==> n.contents[p] == s.contents[p])
    && (Final !in s.names && Owns(n, p) ==> p in n.contents && n.contents[p] == n.reports[p])
  }

  lemma OpenSteps(s: System, p: Id, o: Outcome)
    requires StageOk(s, p) && p in s.stages && s.stages[p].Opening?
    ensures Steps(s, OpenStep(s, p, o), p)
  {
  }

  lemma WriteSteps(s: System, p: Id, o: Outcome)
    requires StageOk(s, p) && p in s.stages && s.stages[p].Writing?
    ensures Steps(s, WriteStep(s, p, s.stages[p].offset, o), p)
  {
    var offset, report := s.stages[p].offset, s.reports[p];
    if offset >= |report| {
      assert report[..offset] == report;
    } else if o.Works? {
      var n := if o.written < |report| - offset then o.written else |report| - offset;
      assert report[..offset] + report[offset..offset + n] == report[..offset + n];
    }
  }

  lemma LinkSteps(s: System, p: Id, o: Outcome)
    requires StageOk(s, p) && p in s.stages && s.stages[p].Linking?
    ensures Steps(s, LinkStep(s, p, o), p)
  {
  }

  /** Only the stage changes, to one that asks no more of the file. */
  lemma StageSteps(s: System, p: Id, stage: Stage)
    requires StageOk(s, p) && p in s.stages && Linked(stage) == Linked(s.stages[p]) && !stage.Writing?
      && !stage.Returned?
    requires Opened(stage) ==> Opened(s.stages[p]) && s.contents[p] == s.reports[p]
    ensures Steps(s, At(s, p, stage), p)
  {
  }

  lemma SameSteps(s: System, p: Id)
    requires StageOk(s, p) && p in s.stages
    ensures Steps(s, s, p)
  {
  }

  lemma OnlyStageSteps(s: System, p: Id, o: Outcome)
    requires StageOk(s, p) && p in s.stages
    requires var stage := s.stages[p];
             stage.Checking? || stage.Syncing? || stage.Closing? || stage.Rechecking? || stage.CleanClosing?
               || stage.CleanChecking?
    ensures Steps(s, AdvanceStage(s, p, o), p)
  {
    var n := AdvanceStage(s, p, o);
    assert n == At(s, p, n.stages[p]);
    StageSteps(s, p, n.stages[p]);
  }

  lemma UnlinkSteps(s: System, p: Id, stage: Stage)
    requires StageOk(s, p) && p in s.stages && Linked(stage) == Linked(s.stages[p]) && !Opened(stage)
    ensures Steps(s, At(Unnamed(s, Temp(p)), p, stage), p)
  {
  }

  lemma CleanSteps(s: System, p: Id, o: Outcome)
    requires StageOk(s, p) && p in s.stages && (s.stages[p].Unlinking? || s.stages[p].CleanUnlinking?)
    ensures Steps(s, AdvanceStage(s, p, o), p)
  {
    if s.stages[p].Unlinking? {
      if o.Works? {
        UnlinkSteps(s, p, Returned);
      } else if o.applied {
        UnlinkSteps(s, p, CleanChecking(Unlink, true));
      } else {
        StageSteps(s, p, CleanChecking(Unlink, false));
      }
    } else {
      var over := Threw(s.stages[p].failed, s.stages[p].applied);
      StageSteps(s, p, over);
      UnlinkSteps(s, p, over);
    }
  }

  lemma AdvanceSteps(s: System, p: Id, o: Outcome)
    requires StageOk(s, p) && p in s.stages
    ensures Steps(s, AdvanceStage(s, p, o), p)
  {
    match s.stages[p]
    case Opening => OpenSteps(s, p, o);
    case Writing(_) => WriteSteps(s, p, o);
    case Linking => LinkSteps(s, p, o);
    case Unlinking => CleanSteps(s, p, o);
    case CleanUnlinking(_, _) => CleanSteps(s, p, o);
    case Returned => SameSteps(s, p);
    case Threw(_, _) => SameSteps(s, p);
    case _ => OnlyStageSteps(s, p, o);
  }

  lemma StepsKeep(s: System, n: System, p: Id)
    requires Invariant(s) && Steps(s, n, p)
    ensures Invariant(n) && KeepsFinal(s, n)
  {
    forall q ensures StageOk(n, q) {
      if q != p { OthersKeep(s, n, p, q); }
    }
  }

  lemma StepKeeps(s: System, step: Step)
    requires Invariant(s)
    ensures Invariant(Apply(s, step)) && KeepsFinal(s, Apply(s, step))
  {
    match step
    case Begin(p, report) =>
      var n := Apply(s, step);
      if p !in s.reports {
        forall q ensures StageOk(n, q) {
          assert StageOk(s, q);
        }
      }
    case Advance(p, o) =>
      if p in s.stages && p in s.reports && (s.stages[p].Writing? ==> p in s.contents) {
        AdvanceSteps(s, p, o);
        StepsKeep(s, AdvanceStage(s, p, o), p);
      }
    case Crash(p) =>
      var n := Apply(s, step);
      forall q ensures StageOk(n, q) {
        assert StageOk(s, q);
      }
  }

  lemma KeepsTwice(a: System, b: System, c: System)
    requires KeepsFinal(a, b) && KeepsFinal(b, c)
    ensures KeepsFinal(a, c)
  {
  }

  lemma {:induction false} RunKeeps(s: System, steps: seq<Step>)
    requires Invariant(s)
    ensures Invariant(Run(s, steps)) && KeepsFinal(s, Run(s, steps))
  {
    if steps != [] {
      var init := steps[..|steps| - 1];
      RunKeeps(s, init);
      StepKeeps(Run(s, init), steps[|steps| - 1]);
      KeepsTwice(s, Run(s, init), Run(s, steps));
    }
  }

  // The promises, for every interleaving, failure and crash

  /** At every moment the destination is absent or holds the whole report of one publisher. */
  lemma FinalIsComplete(steps: seq<Step>)
    requires Final in Run(Init, steps).names
    ensures var s := Run(Init, steps);
            var p := s.names[Final]; p in s.reports && p in s.contents && s.contents[p] == s.reports[p]
  {
    RunKeeps(Init, steps);
  }

  /** A published report is never replaced or altered. */
  lemma FinalNeverChanges(steps: seq<Step>, more: seq<Step>)
    requires Final in Run(Init, steps).names
    ensures var s, n := Run(Init, steps), Run(Run(Init, steps), more);
            && Final in n.names && n.names[Final] == s.names[Final]
            && n.names[Final] in n.contents && n.names[Final] in s.reports
            && n.contents[n.names[Final]] == s.reports[n.names[Final]]
  {
    RunKeeps(Init, steps);
    RunKeeps(Run(Init, steps), more);
  }

  /** Of all publishers at most one returns normally, and then the destination holds its report and its temporary name
  is gone. */
  lemma OnePublisherReturns(steps: seq<Step>, p: Id, q: Id)
    requires var s := Run(Init, steps); p in s.stages && q in s.stages && s.stages[p].Returned? && s.stages[q].Returned?
    ensures p == q && Owns(Run(Init, steps), p) && Temp(p) !in Run(Init, steps).names
  {
    RunKeeps(Init, steps);
    var s := Run(Init, steps);
    assert StageOk(s, p) && StageOk(s, q);
  }

  /** A publisher that throws has published nothing, unless its link took effect first: what threw was the removal of
  the temporary name, or a link that had already been made. */
  lemma ThrewIsExact(steps: seq<Step>, p: Id)
    requires var s := Run(Init, steps); p in s.stages && s.stages[p].Threw?
    ensures var s := Run(Init, steps);
            Owns(s, p) <==> LinkedBefore(s.stages[p].failed, s.stages[p].applied)
  {
    RunKeeps(Init, steps);
    assert StageOk(Run(Init, steps), p);
  }

  // A run whose publisher throws although its report is published

  lemma RunLast(steps: seq<Step>, step: Step)
    ensures Run(Init, steps + [step]) == Apply(Run(Init, steps), step)
  {
    assert (steps + [step])[..|steps|] == steps;
  }

  lemma RunThree(steps: seq<Step>, a: Step, b: Step, c: Step)
    ensures Run(Init, steps + [a] + [b] + [c]) == Apply(Apply(Apply(Run(Init, steps), a), b), c)
  {
    RunLast(steps, a);
    RunLast(steps + [a], b);
    RunLast(steps + [a] + [b], c);
  }

  lemma Written(report: Bytes) returns (steps: seq<Step>)
    requires |report| == 1
    ensures Run(Init, steps) == System(map[Temp(0) := 0], map[0 := report], map[0 := report], map[0 := Syncing])
  {
    var go := Advance(0, Works(1));
    var begun := [] + [Begin(0, report)] + [go] + [go];
    RunThree([], Begin(0, report), go, go);
    assert Run(Init, begun) == System(map[Temp(0) := 0], map[0 := []], map[0 := report], map[0 := Writing(0)]);
    steps := begun + [go] + [go];
    RunLast(begun, go);
    RunLast(begun + [go], go);
    assert [] + report[0..1] == report;
  }

  lemma LinkedTwice(report: Bytes) returns (steps: seq<Step>)
    requires |report| == 1
    ensures Run(Init, steps)
      == System(map[Temp(0) := 0, Final := 0], map[0 := report], map[0 := report], map[0 := Unlinking])
  {
    var go := Advance(0, Works(1));
    var written := Written(report);
    steps := written + [go] + [go] + [go];
    RunThree(written, go, go, go);
    RunLast(steps, go);
    steps := steps + [go];
  }

  /** The report is published and complete, and the caller is told that publication failed. */
  lemma PublishedYetThrew(report: Bytes) returns (steps: seq<Step>)
    requires |report| == 1
    ensures var s := Run(Init, steps);
            Owns(s, 0) && s.contents == map[0 := report] && s.stages == map[0 := Threw(Unlink, false)]
  {
    var linked := LinkedTwice(report);
    var go := Advance(0, Works(1));
    steps := linked + [Advance(0, Fails(false))] + [go] + [go];
    RunThree(linked, Advance(0, Fails(false)), go, go);
  }
}
