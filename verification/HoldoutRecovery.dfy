/** The holdout gate over its journal: any number of sessions, each resuming what the last one left and dying at any
byte (evals/selection/semantic/run-holdout-v2-1-gate.ts). */
module HoldoutRecovery {
  import opened Wrappers
  import opened SemanticTraces
  import opened DurableJournal
  import opened HoldoutEvaluation

  /** One session: the answers the selector would give, and how many of the bytes it would append reach the file. */
  datatype Session = Session(answers: Answers, survives: nat)

  /** The records a session appends after the ones it resumed: number 1 + |resumed| and on. */
  function NewRecords(cases: seq<Case>, answers: Answers, resumed: seq<Persisted>): seq<Persisted> {
    var all := Merged(Stripped(resumed), Fresh(cases, answers));
    if |resumed| <= |all| then Numbered(all)[|resumed|..] else []
  }

  function Cut(bytes: Bytes, n: nat): Bytes { if n < |bytes| then bytes[..n] else bytes }

  function AfterSession(codec: Codec, cases: seq<Case>, content: Bytes, s: Session): Bytes {
    if ResumeRefusal(codec, true, false, content).Some? then content
    else content + Cut(Stream(codec, NewRecords(cases, s.answers, Reading(codec, content).value.traces)), s.survives)
  }

  /** The file after the sessions, the first of which found it just created. */
  function AfterSessions(codec: Codec, cases: seq<Case>, sessions: seq<Session>): Bytes {
    if sessions == [] then []
    else AfterSession(codec, cases, AfterSessions(codec, cases, sessions[..|sessions| - 1]), sessions[|sessions| - 1])
  }

  /** The journal of an uninterrupted run. */
  function FullJournal(cases: seq<Case>, answers: Answers): seq<Persisted> { Numbered(Fresh(cases, answers)) }

  lemma SlotValid(c: Case, order: Order, answer: Answer, n: nat)
    requires Fits(c) && c.caseId != "" && "" !in c.candidates && n <= MAX_SAFE_INTEGER && n >= 1
    ensures Valid(Persisted(n, AsTrace(c, order, InOrder(c.candidates, order), answer)))
  {
    var ids := InOrder(c.candidates, order);
    forall i | 0 <= i < |ids| ensures WithLabels(ids)[i].tag.Some? && WithLabels(ids)[i].evidenceId != "" {
      assert ids[i] in c.candidates;
    }
  }

  lemma FullValid(cases: seq<Case>, answers: Answers, x: nat)
    requires WellFormed(cases) && x < 2 * |cases|
    ensures Valid(FullJournal(cases, answers)[x])
  {
    AllFitAt(cases, x / 2);
    SlotValid(cases[x / 2], OrderOf(x), answers(x), x + 1);
  }

  lemma {:induction false} PairwiseAccepted(cases: seq<Case>, ts: seq<Persisted>)
    requires Journalled(cases, ts) && (forall x :: 0 <= x < |ts| ==> Valid(ts[x]))
    ensures Accepted(ts)
  {
    if ts != [] { PairwiseAccepted(cases, ts[..|ts| - 1]); }
  }

  lemma FullAccepted(cases: seq<Case>, answers: Answers)
    requires WellFormed(cases)
    ensures Accepted(FullJournal(cases, answers))
  {
    var ts := FullJournal(cases, answers);
    FreshPairwise(cases, answers);
    JournalledPairwise(cases, ts);
    forall x | 0 <= x < |ts| ensures Valid(ts[x]) {
      FullValid(cases, answers, x);
    }
    PairwiseAccepted(cases, ts);
  }

  lemma {:induction false} StreamConcat(codec: Codec, a: seq<Persisted>, b: seq<Persisted>)
    ensures Stream(codec, a + b) == Stream(codec, a) + Stream(codec, b)
  {
    if b == [] {
      assert a + b == a;
    } else {
      var n := |b| - 1;
      assert (a + b)[..|a| + n] == a + b[..n];
      StreamConcat(codec, a, b[..n]);
    }
  }

  lemma StreamParts(codec: Codec, ts: seq<Persisted>, n: nat)
    requires n <= |ts|
    ensures Stream(codec, ts) == Stream(codec, ts[..n]) + Stream(codec, ts[n..])
  {
    TakeDrop(ts, n);
    StreamConcat(codec, ts[..n], ts[n..]);
  }

  /** The file holds the first k bytes of an uninterrupted run's journal. */
  ghost predicate Holds(codec: Codec, cases: seq<Case>, content: Bytes, answers: Answers, k: nat) {
    var full := Stream(codec, FullJournal(cases, answers));
    k <= |full| && content == full[..k]
  }

  lemma NewRecordsContinue(cases: seq<Case>, earlier: Answers, later: Answers, n: nat)
    requires WellFormed(cases) && n <= 2 * |cases|
    ensures var resumed, full := FullJournal(cases, earlier)[..n], FullJournal(cases, Combined(earlier, later, n));
            resumed == full[..n] && NewRecords(cases, later, resumed) == full[n..]
  {
    var resumed := FullJournal(cases, earlier)[..n];
    assert Stripped(resumed) == Fresh(cases, earlier)[..n];
    ContinuedIsFresh(cases, earlier, later, n);
    assert resumed == FullJournal(cases, Combined(earlier, later, n))[..n];
  }

  /** What a session resumes with is the whole-record prefix of the journal. */
  lemma ResumesWith(codec: Codec, cases: seq<Case>, content: Bytes, earlier: Answers, k: nat) returns (n: nat)
    requires Faithful(codec) && WellFormed(cases) && Holds(codec, cases, content, earlier, k)
    requires ResumeRefusal(codec, true, false, content).None?
    ensures n <= 2 * |cases| && Reading(codec, content) == Ok(Recovered(FullJournal(cases, earlier)[..n], false))
    ensures content == Stream(codec, FullJournal(cases, earlier)[..n])
  {
    var full := FullJournal(cases, earlier);
    FullAccepted(cases, earlier);
    EveryCrashPoint(codec, full, k);
    ResumesAtRecordEnds(codec, full, k);
    n := Whole(codec, full, k);
    StreamPrefix(codec, full, n);
  }

  lemma ExtendedBy(codec: Codec, full: seq<Persisted>, n: nat, survives: nat) returns (k: nat)
    requires n <= |full|
    ensures k <= |Stream(codec, full)|
    ensures Stream(codec, full[..n]) + Cut(Stream(codec, full[n..]), survives) == Stream(codec, full)[..k]
  {
    StreamParts(codec, full, n);
    var head, rest := Stream(codec, full[..n]), Stream(codec, full[n..]);
    k := |head| + if survives < |rest| then survives else |rest|;
    assert (head + rest)[..k] == head + Cut(rest, survives);
  }

  lemma SessionKeeps(codec: Codec, cases: seq<Case>, content: Bytes, s: Session, earlier: Answers, k: nat)
    returns (answers: Answers, j: nat)
    requires Faithful(codec) && WellFormed(cases) && Holds(codec, cases, content, earlier, k)
    ensures Holds(codec, cases, AfterSession(codec, cases, content, s), answers, j)
    ensures forall x :: answers(x) == earlier(x) || answers(x) == s.answers(x)
  {
    if ResumeRefusal(codec, true, false, content).Some? {
      answers, j := earlier, k;
    } else {
      var n := ResumesWith(codec, cases, content, earlier, k);
      NewRecordsContinue(cases, earlier, s.answers, n);
      answers := Combined(earlier, s.answers, n);
      j := ExtendedBy(codec, FullJournal(cases, answers), n, s.survives);
    }
  }

  /** Some session's selector gave this answer to this invocation. */
  ghost predicate Given(sessions: seq<Session>, x: nat, answer: Answer) {
    exists i :: 0 <= i < |sessions| && sessions[i].answers(x) == answer
  }

  lemma GivenBefore(sessions: seq<Session>, x: nat, answer: Answer)
    requires sessions != [] && Given(sessions[..|sessions| - 1], x, answer)
    ensures Given(sessions, x, answer)
  {
    var i :| 0 <= i < |sessions| - 1 && sessions[..|sessions| - 1][i].answers(x) == answer;
    assert sessions[i].answers(x) == answer;
  }

  lemma {:induction false} SessionsFrom(codec: Codec, cases: seq<Case>, sessions: seq<Session>, unused: Answers)
    returns (answers: Answers, k: nat)
    requires Faithful(codec) && WellFormed(cases)
    ensures Holds(codec, cases, AfterSessions(codec, cases, sessions), answers, k)
    ensures forall x :: answers(x) == unused(x) || Given(sessions, x, answers(x))
  {
    if sessions == [] {
      answers, k := unused, 0;
    } else {
      var init, last := sessions[..|sessions| - 1], sessions[|sessions| - 1];
      var earlier;
      earlier, k := SessionsFrom(codec, cases, init, unused);
      answers, k := SessionKeeps(codec, cases, AfterSessions(codec, cases, init), last, earlier, k);
      forall x ensures answers(x) == unused(x) || Given(sessions, x, answers(x)) {
        if answers(x) == last.answers(x) {
          assert sessions[|sessions| - 1].answers(x) == answers(x);
        } else if answers(x) != unused(x) {
          GivenBefore(sessions, x, answers(x));
        }
      }
    }
  }

  /** After any number of sessions, wherever each of them died, the file is a byte prefix of the journal of one
  uninterrupted run, every answer of which some session's selector gave. */
  lemma SessionsAreOneRun(codec: Codec, cases: seq<Case>, sessions: seq<Session>) returns (answers: Answers, k: nat)
    requires Faithful(codec) && WellFormed(cases) && sessions != []
    ensures Holds(codec, cases, AfterSessions(codec, cases, sessions), answers, k)
    ensures forall x :: Given(sessions, x, answers(x))
  {
    answers, k := SessionsFrom(codec, cases, sessions, sessions[0].answers);
    forall x ensures Given(sessions, x, answers(x)) {
      if answers(x) == sessions[0].answers(x) { assert Given(sessions, x, sessions[0].answers(x)); }
    }
  }

  /** The recovered traces are the first n of an uninterrupted run; with all of them the rebuild is that run's report,
  and with fewer it is blocked. */
  ghost predicate RecoversRun(codec: Codec, cases: seq<Case>, content: Bytes, answers: Answers, n: nat) {
    && n <= 2 * |cases|
    && Reading(codec, content).Ok?
    && Reading(codec, content).value.traces == FullJournal(cases, answers)[..n]
    && Rebuild(cases, FullJournal(cases, answers)[..n])
       == if n == 2 * |cases| then Report(cases, Fresh(cases, answers)) else InfrastructureBlocked
  }

  lemma PrefixRebuild(cases: seq<Case>, answers: Answers, n: nat)
    requires WellFormed(cases) && n <= 2 * |cases|
    ensures Rebuild(cases, FullJournal(cases, answers)[..n])
         == if n == 2 * |cases| then Report(cases, Fresh(cases, answers)) else InfrastructureBlocked
  {
    var full := FullJournal(cases, answers);
    if n == 2 * |cases| {
      assert full[..n] == full;
      RebuildEqualsRun(cases, answers, full);
    }
  }

  /** Whatever the sessions and crash points, a read of the file succeeds with the first traces of one uninterrupted
  run, numbered 1, 2, 3, ...; once all are there, the rebuilt traces, metrics and verdict are those of that run. Every
  answer of that run is one that some session's selector gave. */
  lemma InterruptedEqualsUninterrupted(codec: Codec, cases: seq<Case>, sessions: seq<Session>)
    returns (answers: Answers, n: nat)
    requires Faithful(codec) && WellFormed(cases) && sessions != []
    ensures RecoversRun(codec, cases, AfterSessions(codec, cases, sessions), answers, n)
    ensures forall x :: Given(sessions, x, answers(x))
  {
    var k;
    answers, k := SessionsAreOneRun(codec, cases, sessions);
    FullAccepted(cases, answers);
    EveryCrashPoint(codec, FullJournal(cases, answers), k);
    n := Whole(codec, FullJournal(cases, answers), k);
    PrefixRebuild(cases, answers, n);
  }

  predicate Uncut(codec: Codec, cases: seq<Case>, content: Bytes, s: Session) {
    && ResumeRefusal(codec, true, false, content).None?
    && s.survives >= |Stream(codec, NewRecords(cases, s.answers, Reading(codec, content).value.traces))|
  }

  lemma UncutKeeps(codec: Codec, cases: seq<Case>, content: Bytes, s: Session, earlier: Answers, k: nat)
    returns (answers: Answers)
    requires Faithful(codec) && WellFormed(cases) && Holds(codec, cases, content, earlier, k)
      && Uncut(codec, cases, content, s)
    ensures AfterSession(codec, cases, content, s) == Stream(codec, FullJournal(cases, answers))
    ensures forall x :: answers(x) == earlier(x) || answers(x) == s.answers(x)
  {
    var n := ResumesWith(codec, cases, content, earlier, k);
    answers := Combined(earlier, s.answers, n);
    NewRecordsContinue(cases, earlier, s.answers, n);
    StreamParts(codec, FullJournal(cases, answers), n);
  }

  /** A session that resumes and is not cut short finishes the journal, with answers that it or an earlier session
  gave. */
  lemma UncutSessionFinishes(codec: Codec, cases: seq<Case>, sessions: seq<Session>, last: Session)
    returns (answers: Answers)
    requires Faithful(codec) && WellFormed(cases) && Uncut(codec, cases, AfterSessions(codec, cases, sessions), last)
    ensures AfterSession(codec, cases, AfterSessions(codec, cases, sessions), last)
      == Stream(codec, FullJournal(cases, answers))
    ensures forall x :: answers(x) == last.answers(x) || Given(sessions, x, answers(x))
  {
    var earlier, k := SessionsFrom(codec, cases, sessions, last.answers);
    answers := UncutKeeps(codec, cases, AfterSessions(codec, cases, sessions), last, earlier, k);
  }
}
