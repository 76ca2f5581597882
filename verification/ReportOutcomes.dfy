/** What one publisher does when no other comes in between: whether it returns or throws, and what it leaves in the
directory, read off the outcomes of its file operations (evals/selection/semantic/durable-journal.ts,
writeFinalSemanticGateReportOnce). */
module ReportOutcomes {
  import opened Wrappers
  import opened ReportPublication

  /** How each file operation ends; an operation that works writes all there is to write. */
  datatype Result = Good | Bad(applied: bool)

  datatype Script = Script(
    open: Result, write: Result, sync: Result, close: Result, link: Result, unlink: Result, cleanup: Result)

  function OutcomeOf(r: Result, size: nat): Outcome { if r.Good? then Works(size) else Fails(r.applied) }

  function OutcomeFor(s: Script, stage: Stage, size: nat): Outcome {
    match stage
    case Opening => OutcomeOf(s.open, size)
    case Writing(_) => OutcomeOf(s.write, size)
    case Syncing => OutcomeOf(s.sync, size)
    case Closing => OutcomeOf(s.close, size)
    case Linking => OutcomeOf(s.link, size)
    case Unlinking => OutcomeOf(s.unlink, size)
    case CleanUnlinking(_, _) => OutcomeOf(s.cleanup, size)
    case _ => Works(size)
  }

  /** Publisher p goes on for n more steps. */
  function Play(st: System, p: Id, s: Script, n: nat): System
    decreases n
  {
    if n == 0 || p !in st.stages || p !in st.reports then st
    else Play(Apply(st, Advance(p, OutcomeFor(s, st.stages[p], |st.reports[p]|))), p, s, n - 1)
  }

  type Names = map<Path, Id>

  /** The publisher is at a stage, with these names in the directory and this content in its file. */
  function Mid(st: System, p: Id, report: Bytes, stage: Stage, names: Names, contents: map<Id, Bytes>): System {
    System(names, contents, st.reports[p := report], st.stages[p := stage])
  }

  function Without(names: Names, path: Path): Names { map k | k in names && k != path :: names[k] }

  /** The temporary name is gone unless its removal failed. */
  function Cleaned(names: Names, p: Id, s: Script): Names {
    if Temp(p) in names && s.cleanup == Bad(false) then names else Without(names, Temp(p))
  }

  lemma FromCleanUnlinking(st: System, p: Id, report: Bytes, s: Script, names: Names, contents: map<Id, Bytes>,
      failed: Operation, applied: bool, n: nat)
    requires n >= 1 && Temp(p) in names
    ensures Play(Mid(st, p, report, CleanUnlinking(failed, applied), names, contents), p, s, n)
         == Mid(st, p, report, Threw(failed, applied), Cleaned(names, p, s), contents)
  {
    var at := Mid(st, p, report, CleanUnlinking(failed, applied), names, contents);
    var over := Mid(st, p, report, Threw(failed, applied), Cleaned(names, p, s), contents);
    assert at.stages[p := Threw(failed, applied)] == over.stages;
    assert Apply(at, Advance(p, OutcomeFor(s, at.stages[p], |report|))) == over;
    Stays(over, p, s, n - 1);
  }

  lemma {:induction false} Stays(over: System, p: Id, s: Script, n: nat)
    requires p in over.stages && (over.stages[p].Threw? || over.stages[p].Returned?)
    ensures Play(over, p, s, n) == over
  {
    if n > 0 && p in over.reports { Stays(over, p, s, n - 1); }
  }

  lemma FromCleanChecking(st: System, p: Id, report: Bytes, s: Script, names: Names, contents: map<Id, Bytes>,
      failed: Operation, applied: bool, n: nat)
    requires n >= 2
    ensures Play(Mid(st, p, report, CleanChecking(failed, applied), names, contents), p, s, n)
         == Mid(st, p, report, Threw(failed, applied), Cleaned(names, p, s), contents)
  {
    var at := Mid(st, p, report, CleanChecking(failed, applied), names, contents);
    var next := Apply(at, Advance(p, OutcomeFor(s, at.stages[p], |report|)));
    if Temp(p) in names {
      assert next == Mid(st, p, report, CleanUnlinking(failed, applied), names, contents);
      FromCleanUnlinking(st, p, report, s, names, contents, failed, applied, n - 1);
    } else {
      assert Without(names, Temp(p)) == names;
      assert next == Mid(st, p, report, Threw(failed, applied), names, contents);
      Stays(next, p, s, n - 1);
    }
  }

  lemma FromCleanClosing(st: System, p: Id, report: Bytes, s: Script, names: Names, contents: map<Id, Bytes>,
      failed: Operation, applied: bool, n: nat)
    requires n >= 3
    ensures Play(Mid(st, p, report, CleanClosing(failed, applied), names, contents), p, s, n)
         == Mid(st, p, report, Threw(failed, applied), Cleaned(names, p, s), contents)
  {
    var at := Mid(st, p, report, CleanClosing(failed, applied), names, contents);
    assert Apply(at, Advance(p, OutcomeFor(s, at.stages[p], |report|)))
        == Mid(st, p, report, CleanChecking(failed, applied), names, contents);
    FromCleanChecking(st, p, report, s, names, contents, failed, applied, n - 1);
  }

  // From the link on

  /** How it ends once the file is complete and closed, and the destination free. */
  function LinkedStage(s: Script): Stage {
    if s.link.Bad? then Threw(Link, s.link.applied)
    else if s.unlink.Bad? then Threw(Unlink, s.unlink.applied)
    else Returned
  }

  /** The destination is there if the link took effect; the temporary name is gone, unless its removal failed. */
  function LinkedNames(names: Names, p: Id, s: Script): Names {
    if s.link.Bad? then Cleaned(if s.link.applied then names[Final := p] else names, p, s)
    else if s.unlink == Bad(false) then Cleaned(names[Final := p], p, s)
    else Without(names[Final := p], Temp(p))
  }

  lemma Unlinks(st: System, p: Id, report: Bytes, s: Script, names: Names, contents: map<Id, Bytes>, n: nat)
    requires n >= 1 && s.unlink.Good?
    ensures Play(Mid(st, p, report, Unlinking, names, contents), p, s, n)
         == Play(Mid(st, p, report, Returned, Without(names, Temp(p)), contents), p, s, n - 1)
  {
    var at := Mid(st, p, report, Unlinking, names, contents);
    assert Apply(at, Advance(p, OutcomeFor(s, at.stages[p], |report|)))
        == Mid(st, p, report, Returned, Without(names, Temp(p)), contents);
  }

  lemma UnlinkFails(st: System, p: Id, report: Bytes, s: Script, names: Names, contents: map<Id, Bytes>, left: Names,
      n: nat)
    requires n >= 1 && s.unlink.Bad? && left == (if s.unlink.applied then Without(names, Temp(p)) else names)
    ensures Play(Mid(st, p, report, Unlinking, names, contents), p, s, n)
         == Play(Mid(st, p, report, CleanChecking(Unlink, s.unlink.applied), left, contents), p, s, n - 1)
  {
    var at := Mid(st, p, report, Unlinking, names, contents);
    assert Apply(at, Advance(p, OutcomeFor(s, at.stages[p], |report|)))
        == Mid(st, p, report, CleanChecking(Unlink, s.unlink.applied), left, contents);
  }

  lemma FromUnlinking(st: System, p: Id, report: Bytes, s: Script, names: Names, contents: map<Id, Bytes>, n: nat)
    requires n >= 3
    ensures Play(Mid(st, p, report, Unlinking, names, contents), p, s, n)
         == if s.unlink.Good? then Mid(st, p, report, Returned, Without(names, Temp(p)), contents)
            else Mid(st, p, report, Threw(Unlink, s.unlink.applied),
                     Cleaned(if s.unlink.applied then Without(names, Temp(p)) else names, p, s), contents)
  {
    if s.unlink.Good? {
      Unlinks(st, p, report, s, names, contents, n);
      Stays(Mid(st, p, report, Returned, Without(names, Temp(p)), contents), p, s, n - 1);
    } else {
      var left := if s.unlink.applied then Without(names, Temp(p)) else names;
      UnlinkFails(st, p, report, s, names, contents, left, n);
      FromCleanChecking(st, p, report, s, left, contents, Unlink, s.unlink.applied, n - 1);
    }
  }

  lemma Links(st: System, p: Id, report: Bytes, s: Script, names: Names, contents: map<Id, Bytes>, n: nat)
    requires n >= 1 && s.link.Good? && Final !in names
    ensures Play(Mid(st, p, report, Linking, names, contents), p, s, n)
         == Play(Mid(st, p, report, Unlinking, names[Final := p], contents), p, s, n - 1)
  {
    var at := Mid(st, p, report, Linking, names, contents);
    assert Apply(at, Advance(p, OutcomeFor(s, at.stages[p], |report|)))
        == Mid(st, p, report, Unlinking, names[Final := p], contents);
  }

  lemma LinkFails(st: System, p: Id, report: Bytes, s: Script, names: Names, contents: map<Id, Bytes>, left: Names,
      n: nat)
    requires n >= 1 && s.link.Bad? && Final !in names && left == (if s.link.applied then names[Final := p] else names)
    ensures Play(Mid(st, p, report, Linking, names, contents), p, s, n)
         == Play(Mid(st, p, report, CleanChecking(Link, s.link.applied), left, contents), p, s, n - 1)
  {
    var at := Mid(st, p, report, Linking, names, contents);
    assert Apply(at, Advance(p, OutcomeFor(s, at.stages[p], |report|)))
        == Mid(st, p, report, CleanChecking(Link, s.link.applied), left, contents);
  }

  lemma FromLinking(st: System, p: Id, report: Bytes, s: Script, names: Names, contents: map<Id, Bytes>, n: nat)
    requires n >= 4 && Final !in names
    ensures Play(Mid(st, p, report, Linking, names, contents), p, s, n)
         == Mid(st, p, report, LinkedStage(s), LinkedNames(names, p, s), contents)
  {
    if s.link.Good? {
      Links(st, p, report, s, names, contents, n);
      FromUnlinking(st, p, report, s, names[Final := p], contents, n - 1);
      assert Without(Without(names[Final := p], Temp(p)), Temp(p)) == Without(names[Final := p], Temp(p));
    } else {
      var left := if s.link.applied then names[Final := p] else names;
      LinkFails(st, p, report, s, names, contents, left, n);
      FromCleanChecking(st, p, report, s, left, contents, Link, s.link.applied, n - 1);
    }
  }

  // Up to the link

  /** How it ends, and the names it leaves, once the file is synced. */
  function ClosedStage(s: Script): Stage { if s.close.Bad? then Threw(Close, s.close.applied) else LinkedStage(s) }

  function ClosedNames(names: Names, p: Id, s: Script): Names {
    if s.close.Bad? then Cleaned(names, p, s) else LinkedNames(names, p, s)
  }

  /** How it ends, and the names it leaves, once the file is written. */
  function SyncedStage(s: Script): Stage { if s.sync.Bad? then Threw(Sync, s.sync.applied) else ClosedStage(s) }

  function SyncedNames(names: Names, p: Id, s: Script): Names {
    if s.sync.Bad? then Cleaned(names, p, s) else ClosedNames(names, p, s)
  }

  /** An empty report takes no write. */
  predicate WriteFails(report: Bytes, s: Script) { report != [] && s.write.Bad? }

  /** How it ends, and what it leaves: its names, and of its file nothing, an empty file, or the whole report. */
  function EndStage(report: Bytes, s: Script): Stage {
    if s.open.Bad? then Threw(Open, s.open.applied)
    else if WriteFails(report, s) then Threw(Write, s.write.applied)
    else SyncedStage(s)
  }

  function NamesLeft(names: Names, p: Id, report: Bytes, s: Script): Names {
    if s.open == Bad(false) then names
    else if s.open.Bad? || WriteFails(report, s) then Cleaned(names[Temp(p) := p], p, s)
    else SyncedNames(names[Temp(p) := p], p, s)
  }

  function FileLeft(contents: map<Id, Bytes>, p: Id, report: Bytes, s: Script): map<Id, Bytes> {
    if s.open == Bad(false) then contents
    else contents[p := if s.open.Good? && s.write.Good? then report else []]
  }

  lemma Closes(st: System, p: Id, report: Bytes, s: Script, names: Names, contents: map<Id, Bytes>, n: nat)
    requires n >= 1
    ensures Play(Mid(st, p, report, Closing, names, contents), p, s, n)
         == Play(Mid(st, p, report, if s.close.Good? then Rechecking else CleanClosing(Close, s.close.applied), names,
                     contents), p, s, n - 1)
  {
    var at := Mid(st, p, report, Closing, names, contents);
    assert Apply(at, Advance(p, OutcomeFor(s, at.stages[p], |report|)))
        == Mid(st, p, report, if s.close.Good? then Rechecking else CleanClosing(Close, s.close.applied), names,
               contents);
  }

  lemma Rechecks(st: System, p: Id, report: Bytes, s: Script, names: Names, contents: map<Id, Bytes>, n: nat)
    requires n >= 1 && Final !in names
    ensures Play(Mid(st, p, report, Rechecking, names, contents), p, s, n)
         == Play(Mid(st, p, report, Linking, names, contents), p, s, n - 1)
  {
    var at := Mid(st, p, report, Rechecking, names, contents);
    assert Apply(at, Advance(p, OutcomeFor(s, at.stages[p], |report|))) == Mid(st, p, report, Linking, names, contents);
  }

  lemma ClosedFine(st: System, p: Id, report: Bytes, s: Script, names: Names, contents: map<Id, Bytes>, over: System,
      n: nat)
    requires n >= 2 && Final !in names && s.close.Good?
    requires Play(Mid(st, p, report, Linking, names, contents), p, s, n - 2) == over
    ensures Play(Mid(st, p, report, Closing, names, contents), p, s, n) == over
  {
    Closes(st, p, report, s, names, contents, n);
    Rechecks(st, p, report, s, names, contents, n - 1);
  }

  lemma ClosedBadly(st: System, p: Id, report: Bytes, s: Script, names: Names, contents: map<Id, Bytes>, n: nat)
    requires n >= 4 && s.close.Bad?
    ensures Play(Mid(st, p, report, Closing, names, contents), p, s, n)
         == Mid(st, p, report, Threw(Close, s.close.applied), Cleaned(names, p, s), contents)
  {
    Closes(st, p, report, s, names, contents, n);
    FromCleanClosing(st, p, report, s, names, contents, Close, s.close.applied, n - 1);
  }

  lemma FromClosing(st: System, p: Id, report: Bytes, s: Script, names: Names, contents: map<Id, Bytes>, n: nat)
    requires n >= 6 && Final !in names
    ensures Play(Mid(st, p, report, Closing, names, contents), p, s, n)
         == Mid(st, p, report, ClosedStage(s), ClosedNames(names, p, s), contents)
  {
    if s.close.Good? {
      FromLinking(st, p, report, s, names, contents, n - 2);
      ClosedFine(st, p, report, s, names, contents,
                 Mid(st, p, report, LinkedStage(s), LinkedNames(names, p, s), contents), n);
    } else {
      ClosedBadly(st, p, report, s, names, contents, n);
    }
  }

  lemma FromSyncing(st: System, p: Id, report: Bytes, s: Script, names: Names, contents: map<Id, Bytes>, n: nat)
    requires n >= 7 && Final !in names
    ensures Play(Mid(st, p, report, Syncing, names, contents), p, s, n)
         == Mid(st, p, report, SyncedStage(s), SyncedNames(names, p, s), contents)
  {
    var at := Mid(st, p, report, Syncing, names, contents);
    var next := Apply(at, Advance(p, OutcomeFor(s, at.stages[p], |report|)));
    if s.sync.Good? {
      assert next == Mid(st, p, report, Closing, names, contents);
      FromClosing(st, p, report, s, names, contents, n - 1);
    } else {
      assert next == Mid(st, p, report, CleanClosing(Sync, s.sync.applied), names, contents);
      FromCleanClosing(st, p, report, s, names, contents, Sync, s.sync.applied, n - 1);
    }
  }

  lemma WritesNothing(st: System, p: Id, s: Script, names: Names, contents: map<Id, Bytes>, n: nat)
    requires n >= 1 && p in contents && contents[p] == []
    ensures Play(Mid(st, p, [], Writing(0), names, contents), p, s, n)
         == Play(Mid(st, p, [], Syncing, names, contents), p, s, n - 1)
  {
    var at := Mid(st, p, [], Writing(0), names, contents);
    assert Apply(at, Advance(p, OutcomeFor(s, at.stages[p], 0))) == Mid(st, p, [], Syncing, names, contents);
  }

  lemma WriteBreaks(st: System, p: Id, report: Bytes, s: Script, names: Names, contents: map<Id, Bytes>, n: nat)
    requires n >= 4 && p in contents && contents[p] == [] && WriteFails(report, s)
    ensures Play(Mid(st, p, report, Writing(0), names, contents), p, s, n)
         == Mid(st, p, report, Threw(Write, s.write.applied), Cleaned(names, p, s), contents)
  {
    var at := Mid(st, p, report, Writing(0), names, contents);
    assert Apply(at, Advance(p, OutcomeFor(s, at.stages[p], |report|)))
        == Mid(st, p, report, CleanClosing(Write, s.write.applied), names, contents);
    FromCleanClosing(st, p, report, s, names, contents, Write, s.write.applied, n - 1);
  }

  lemma WritesAll(st: System, p: Id, report: Bytes, s: Script, names: Names, contents: map<Id, Bytes>,
      filled: map<Id, Bytes>, over: System, n: nat)
    requires n >= 2 && p in contents && contents[p] == [] && report != [] && s.write.Good?
    requires filled == contents[p := report]
    requires Play(Mid(st, p, report, Syncing, names, filled), p, s, n - 2) == over
    ensures Play(Mid(st, p, report, Writing(0), names, contents), p, s, n) == over
  {
    var at := Mid(st, p, report, Writing(0), names, contents);
    var next := Apply(at, Advance(p, OutcomeFor(s, at.stages[p], |report|)));
    assert [] + report[0..0 + |report|] == report;
    assert next == Mid(st, p, report, Writing(|report|), names, filled);
    assert Apply(next, Advance(p, OutcomeFor(s, next.stages[p], |report|)))
        == Mid(st, p, report, Syncing, names, filled);
  }

  lemma Opens(st: System, p: Id, report: Bytes, s: Script, n: nat)
    requires n >= 1 && Temp(p) !in st.names && s.open.Good?
    ensures Play(Mid(st, p, report, Opening, st.names, st.contents), p, s, n)
         == Play(Mid(st, p, report, Writing(0), st.names[Temp(p) := p], st.contents[p := []]), p, s, n - 1)
  {
    var at := Mid(st, p, report, Opening, st.names, st.contents);
    assert Apply(at, Advance(p, OutcomeFor(s, at.stages[p], |report|)))
        == Mid(st, p, report, Writing(0), st.names[Temp(p) := p], st.contents[p := []]);
  }

  lemma OpenFails(st: System, p: Id, report: Bytes, s: Script, names: Names, contents: map<Id, Bytes>, n: nat)
    requires n >= 1 && Temp(p) !in st.names && s.open.Bad?
    requires names == (if s.open.applied then st.names[Temp(p) := p] else st.names)
    requires contents == (if s.open.applied then st.contents[p := []] else st.contents)
    ensures Play(Mid(st, p, report, Opening, st.names, st.contents), p, s, n)
         == Play(Mid(st, p, report, CleanChecking(Open, s.open.applied), names, contents), p, s, n - 1)
  {
    var at := Mid(st, p, report, Opening, st.names, st.contents);
    assert Apply(at, Advance(p, OutcomeFor(s, at.stages[p], |report|)))
        == Mid(st, p, report, CleanChecking(Open, s.open.applied), names, contents);
  }

  lemma OpenedWriteFails(st: System, p: Id, report: Bytes, s: Script, n: nat)
    requires n >= 5 && Temp(p) !in st.names && s.open.Good? && WriteFails(report, s)
    ensures Play(Mid(st, p, report, Opening, st.names, st.contents), p, s, n)
         == Mid(st, p, report, Threw(Write, s.write.applied), Cleaned(st.names[Temp(p) := p], p, s),
                st.contents[p := []])
  {
    Opens(st, p, report, s, n);
    WriteBreaks(st, p, report, s, st.names[Temp(p) := p], st.contents[p := []], n - 1);
  }

  lemma OpenedEmpty(st: System, p: Id, s: Script, over: System, n: nat)
    requires n >= 2 && Temp(p) !in st.names && s.open.Good?
    requires Play(Mid(st, p, [], Syncing, st.names[Temp(p) := p], st.contents[p := []]), p, s, n - 2) == over
    ensures Play(Mid(st, p, [], Opening, st.names, st.contents), p, s, n) == over
  {
    Opens(st, p, [], s, n);
    WritesNothing(st, p, s, st.names[Temp(p) := p], st.contents[p := []], n - 1);
  }

  lemma Overwritten(contents: map<Id, Bytes>, filled: map<Id, Bytes>, p: Id, report: Bytes)
    requires filled == contents[p := report]
    ensures filled == contents[p := []][p := report]
  {
    assert contents[p := []][p := report] == contents[p := report];
  }

  lemma OpenedFull(st: System, p: Id, report: Bytes, s: Script, filled: map<Id, Bytes>, over: System, n: nat)
    requires n >= 3 && Temp(p) !in st.names && s.open.Good? && report != [] && s.write.Good?
    requires filled == st.contents[p := report]
    requires Play(Mid(st, p, report, Syncing, st.names[Temp(p) := p], filled), p, s, n - 3) == over
    ensures Play(Mid(st, p, report, Opening, st.names, st.contents), p, s, n) == over
  {
    Overwritten(st.contents, filled, p, report);
    WritesAll(st, p, report, s, st.names[Temp(p) := p], st.contents[p := []], filled, over, n - 1);
    Opens(st, p, report, s, n);
  }

  lemma OpenedBadly(st: System, p: Id, report: Bytes, s: Script, n: nat)
    requires n >= 3 && Temp(p) !in st.names && s.open.Bad?
    ensures Play(Mid(st, p, report, Opening, st.names, st.contents), p, s, n)
         == Mid(st, p, report, Threw(Open, s.open.applied), NamesLeft(st.names, p, report, s),
                FileLeft(st.contents, p, report, s))
  {
    var names := if s.open.applied then st.names[Temp(p) := p] else st.names;
    var contents := if s.open.applied then st.contents[p := []] else st.contents;
    OpenFails(st, p, report, s, names, contents, n);
    FromCleanChecking(st, p, report, s, names, contents, Open, s.open.applied, n - 1);
    assert !s.open.applied ==> Without(names, Temp(p)) == names;
  }

  lemma FromOpening(st: System, p: Id, report: Bytes, s: Script, n: nat)
    requires n >= 10 && Final !in st.names && Temp(p) !in st.names
    ensures Play(Mid(st, p, report, Opening, st.names, st.contents), p, s, n)
         == Mid(st, p, report, EndStage(report, s), NamesLeft(st.names, p, report, s),
                FileLeft(st.contents, p, report, s))
  {
    if s.open.Bad? {
      OpenedBadly(st, p, report, s, n);
    } else if WriteFails(report, s) {
      OpenedWriteFails(st, p, report, s, n);
    } else {
      var names, contents := st.names[Temp(p) := p], st.contents[p := report];
      var over := Mid(st, p, report, SyncedStage(s), SyncedNames(names, p, s), contents);
      FromSyncing(st, p, report, s, names, contents, if report == [] then n - 2 else n - 3);
      if report == [] {
        OpenedEmpty(st, p, s, over, n);
      } else {
        OpenedFull(st, p, report, s, contents, over, n);
      }
    }
  }

  /** A publisher alone: over a report that is there it throws and changes nothing; otherwise it returns with its report
  published, or throws at the first operation that failed, with its temporary name left behind only if the removal of
  that failed, and its report published only if the link took effect. */
  lemma PublishedAlone(st: System, p: Id, report: Bytes, s: Script, n: nat)
    requires p !in st.reports && Temp(p) !in st.names && n >= 11
    ensures Play(Apply(st, Begin(p, report)), p, s, n)
         == if Final in st.names then Mid(st, p, report, Threw(Exists, false), st.names, st.contents)
            else Mid(st, p, report, EndStage(report, s), NamesLeft(st.names, p, report, s),
                     FileLeft(st.contents, p, report, s))
  {
    var begun := Apply(st, Begin(p, report));
    var next := Apply(begun, Advance(p, OutcomeFor(s, Checking, |report|)));
    assert begun == Mid(st, p, report, Checking, st.names, st.contents);
    if Final in st.names {
      assert next == Mid(st, p, report, Threw(Exists, false), st.names, st.contents);
      Stays(next, p, s, n - 1);
    } else {
      assert next == Mid(st, p, report, Opening, st.names, st.contents);
      FromOpening(st, p, report, s, n - 1);
    }
  }

  /** A crash leaves every other publisher where it is, and everything in the directory. */
  lemma CrashedAlone(st: System, p: Id)
    ensures var after := Apply(st, Crash(p));
            && p !in after.stages && (forall q :: q in after.stages <==> q in st.stages && q != p)
            && (forall q :: q in after.stages ==> after.stages[q] == st.stages[q])
            && after.names == st.names && after.contents == st.contents && after.reports == st.reports
  {
  }

  /** A publisher that finds the destination taken, when it looks again or when it links, throws, leaves the published
  report alone, and removes its temporary name. */
  lemma BeatenToIt(st: System, p: Id, report: Bytes, s: Script, names: Names, contents: map<Id, Bytes>, n: nat)
    requires n >= 3 && Final in names
    ensures Play(Mid(st, p, report, Rechecking, names, contents), p, s, n)
         == Mid(st, p, report, Threw(Recheck, false), Cleaned(names, p, s), contents)
    ensures Play(Mid(st, p, report, Linking, names, contents), p, s, n)
         == Mid(st, p, report, Threw(Link, false), Cleaned(names, p, s), contents)
    ensures Final in Cleaned(names, p, s) && Cleaned(names, p, s)[Final] == names[Final]
  {
    BeatenAt(st, p, report, s, names, contents, Rechecking, Recheck, n);
    BeatenAt(st, p, report, s, names, contents, Linking, Link, n);
  }

  lemma BeatenAt(st: System, p: Id, report: Bytes, s: Script, names: Names, contents: map<Id, Bytes>, stage: Stage,
      failed: Operation, n: nat)
    requires n >= 3 && Final in names
    requires (stage == Rechecking && failed == Recheck) || (stage == Linking && failed == Link)
    ensures Play(Mid(st, p, report, stage, names, contents), p, s, n)
         == Mid(st, p, report, Threw(failed, false), Cleaned(names, p, s), contents)
  {
    var at := Mid(st, p, report, stage, names, contents);
    assert Apply(at, Advance(p, OutcomeFor(s, at.stages[p], |report|)))
        == Mid(st, p, report, CleanChecking(failed, false), names, contents);
    FromCleanChecking(st, p, report, s, names, contents, failed, false, n - 1);
  }
}
