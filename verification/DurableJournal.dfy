/** The append-only trace journal (evals/selection/semantic/durable-journal.ts): one JSON line per trace, written in
pieces by the operating system, read back up to its last newline. The file is a sequence of bytes; in UTF-8 the newline
byte is part of no other character, so cutting the text at newlines and cutting the bytes at them is the same. */
module DurableJournal {
  import opened Wrappers
  import opened SemanticTraces

  type Byte = bv8

  const NEWLINE: Byte := 10

  type Bytes = seq<Byte>

  datatype JournalError =
    MissingFile | Finalised | Malformed | InvalidTrace | DuplicateTrace | DuplicateSequence | IncompleteLine
    | NotContiguous | Closed | WriteFailed

  /** JSON.stringify and JSON.parse of one trace. */
  datatype Codec = Codec(encode: Persisted -> Bytes, decode: Bytes -> Option<Persisted>)

  /** What the journal needs of JSON: a trace survives the round trip on one non-empty line, and no trace is an empty
  line. */
  ghost predicate Faithful(codec: Codec) {
    && (forall p :: codec.decode(codec.encode(p)) == Some(p) && NEWLINE !in codec.encode(p))
    && codec.decode([]) == None
  }

  /** validateTrace; orders and outcomes outside their enumerations are already malformed here. */
  predicate Valid(p: Persisted) {
    && 1 <= p.sequence <= MAX_SAFE_INTEGER
    && p.trace.caseId != ""
    && 2 <= p.trace.candidateCount <= 3 && |p.trace.candidates| == p.trace.candidateCount
    && (forall i :: 0 <= i < |p.trace.candidates|
         ==> p.trace.candidates[i].tag.Some? && p.trace.candidates[i].evidenceId != "")
  }

  /** The checks before a trace is taken up, in their order. */
  function Refusal(p: Persisted, keys: set<(string, Order)>, numbers: set<int>): Option<JournalError> {
    if !Valid(p) then Some(InvalidTrace)
    else if Key(p) in keys then Some(DuplicateTrace)
    else if p.sequence in numbers then Some(DuplicateSequence)
    else None
  }

  /** Each refusal has its reason: a trace without a number, a case or two to three labelled candidates, and one whose
  invocation, or else whose number, was taken before. */
  lemma RefusalIsExact(p: Persisted, keys: set<(string, Order)>, numbers: set<int>)
    ensures var r, t := Refusal(p, keys, numbers), p.trace;
            var sound := && 1 <= p.sequence <= 0x1F_FFFF_FFFF_FFFF && |t.caseId| > 0
                         && (|t.candidates| == 2 || |t.candidates| == 3) && t.candidateCount == |t.candidates|
                         && forall c :: c in t.candidates ==> c.tag.Some? && |c.evidenceId| > 0;
            && (r == Some(InvalidTrace) <==> !sound)
            && (r == Some(DuplicateTrace) <==> sound && (t.caseId, t.order) in keys)
            && (r == Some(DuplicateSequence) <==> sound && (t.caseId, t.order) !in keys && p.sequence in numbers)
            && (r == None <==> sound && (t.caseId, t.order) !in keys && p.sequence !in numbers)
  {
    var t := p.trace;
    assert (forall c :: c in t.candidates ==> c.tag.Some? && |c.evidenceId| > 0) <==>
        forall i :: 0 <= i < |t.candidates| ==> t.candidates[i].tag.Some? && t.candidates[i].evidenceId != "";
  }

  predicate Accepted(ts: seq<Persisted>) {
    ts == [] || (
      var init, last := ts[..|ts| - 1], ts[|ts| - 1];
      Accepted(init) && Refusal(last, Keys(init), Numbers(init)).None?)
  }

  // Writing

  function Line(codec: Codec, p: Persisted): (r: Bytes)
    ensures |r| > 0
  {
    codec.encode(p) + [NEWLINE]
  }

  /** The file after the traces were appended to an empty one. */
  function Stream(codec: Codec, ts: seq<Persisted>): Bytes {
    if ts == [] then [] else Stream(codec, ts[..|ts| - 1]) + Line(codec, ts[|ts| - 1])
  }

  // Reading

  function LastNewline(c: Bytes): (n: int)
    ensures -1 <= n < |c|
    ensures n >= 0 ==> c[n] == NEWLINE
    ensures forall i :: n < i < |c| ==> c[i] != NEWLINE
  {
    if c == [] then -1 else if c[|c| - 1] == NEWLINE then |c| - 1 else LastNewline(c[..|c| - 1])
  }

  /** String.split at newlines. */
  function Split(c: Bytes): (r: seq<Bytes>)
    ensures |r| > 0
    decreases |c|
  {
    var n := LastNewline(c);
    if n < 0 then [c] else Split(c[..n]) + [c[n + 1..]]
  }

  /** The newline-terminated lines; a file that starts with its only newline has none. */
  function Lines(c: Bytes): seq<Bytes> {
    var n := LastNewline(c);
    if n <= 0 then [] else Split(c[..n])
  }

  function Tail(c: Bytes): Bytes { if LastNewline(c) < 0 then c else c[LastNewline(c) + 1..] }

  function ReadLines(codec: Codec, lines: seq<Bytes>): Result<seq<Persisted>, JournalError> {
    if lines == [] then Ok([])
    else
      var before := ReadLines(codec, lines[..|lines| - 1]);
      if before.Err? then before
      else
        var p := codec.decode(lines[|lines| - 1]);
        if p.None? then Err(Malformed)
        else
          var refusal := Refusal(p.value, Keys(before.value), Numbers(before.value));
          if refusal.Some? then Err(refusal.value) else Ok(before.value + [p.value])
  }

  datatype Recovered = Recovered(traces: seq<Persisted>, incompleteTrailingLine: bool)

  function Reading(codec: Codec, content: Bytes): Result<Recovered, JournalError> {
    var lines := ReadLines(codec, Lines(content));
    if lines.Err? then Err(lines.error) else Ok(Recovered(lines.value, Tail(content) != []))
  }

  lemma ReadLinesStep(codec: Codec, lines: seq<Bytes>, n: nat)
    requires n < |lines|
    ensures ReadLines(codec, lines[..n + 1])
         == var before := ReadLines(codec, lines[..n]);
            if before.Err? then before
            else
              var p := codec.decode(lines[n]);
              if p.None? then Err(Malformed)
              else
                var refusal := Refusal(p.value, Keys(before.value), Numbers(before.value));
                if refusal.Some? then Err(refusal.value) else Ok(before.value + [p.value])
  {
    assert lines[..n + 1][..n] == lines[..n];
  }

  lemma {:induction false} ErrorStays(codec: Codec, lines: seq<Bytes>, n: nat)
    requires n <= |lines| && ReadLines(codec, lines[..n]).Err?
    ensures ReadLines(codec, lines) == ReadLines(codec, lines[..n])
  {
    if n < |lines| {
      var init := lines[..|lines| - 1];
      assert init[..n] == lines[..n];
      ErrorStays(codec, init, n);
    } else {
      assert lines[..n] == lines;
    }
  }

  lemma SetsGrow(ts: seq<Persisted>, p: Persisted)
    ensures Keys(ts + [p]) == Keys(ts) + {Key(p)} && Numbers(ts + [p]) == Numbers(ts) + {p.sequence}
  {
    assert (ts + [p])[..|ts|] == ts;
  }

  /** readDurableSemanticGateTraces */
  method Read(codec: Codec, content: Bytes) returns (r: Result<Recovered, JournalError>)
    ensures r == Reading(codec, content)
  {
    var lines := Lines(content);
    var traces: seq<Persisted> := [];
    var seenInvocationKeys: set<(string, Order)> := {};
    var seenSequences: set<int> := {};
    for n := 0 to |lines|
      invariant ReadLines(codec, lines[..n]) == Ok(traces)
      invariant seenInvocationKeys == Keys(traces) && seenSequences == Numbers(traces)
    {
      ReadLinesStep(codec, lines, n);
      var decoded := codec.decode(lines[n]);
      if decoded.None? {
        ErrorStays(codec, lines, n + 1);
        return Err(Malformed);
      }
      var trace := decoded.value;
      var refusal := Refusal(trace, seenInvocationKeys, seenSequences);
      if refusal.Some? {
        ErrorStays(codec, lines, n + 1);
        return Err(refusal.value);
      }
      SetsGrow(traces, trace);
      seenInvocationKeys := seenInvocationKeys + {Key(trace)};
      seenSequences := seenSequences + {trace.sequence};
      traces := traces + [trace];
    }
    assert lines[..|lines|] == lines;
    r := Ok(Recovered(traces, Tail(content) != []));
  }

  /** What a read returns was accepted trace by trace. */
  lemma {:induction false} ReadIsAccepted(codec: Codec, lines: seq<Bytes>)
    requires ReadLines(codec, lines).Ok?
    ensures Accepted(ReadLines(codec, lines).value)
  {
    if lines != [] {
      ReadIsAccepted(codec, lines[..|lines| - 1]);
      var before := ReadLines(codec, lines[..|lines| - 1]).value;
      var p := codec.decode(lines[|lines| - 1]).value;
      assert (before + [p])[..|before|] == before;
    }
  }

  // Appending to a file that ends at a line boundary

  predicate AtBoundary(c: Bytes) { c == [] || c[|c| - 1] == NEWLINE }

  lemma BoundaryTail(c: Bytes)
    ensures AtBoundary(c) <==> Tail(c) == []
  {
  }

  lemma {:induction false} LastNewlineIs(c: Bytes, n: int)
    requires -1 <= n < |c| && (n >= 0 ==> c[n] == NEWLINE) && (forall i :: n < i < |c| ==> c[i] != NEWLINE)
    ensures LastNewline(c) == n
  {
    if c != [] && n < |c| - 1 { LastNewlineIs(c[..|c| - 1], n); }
  }

  /** Bytes without a newline after a line boundary are left over; the lines before them are read as before. */
  lemma TornTail(codec: Codec, c: Bytes, tail: Bytes)
    requires AtBoundary(c) && NEWLINE !in tail
    ensures Lines(c + tail) == Lines(c) && Tail(c + tail) == tail
  {
    LastNewlineIs(c, |c| - 1);
    LastNewlineIs(c + tail, |c| - 1);
    if c != [] { assert (c + tail)[..|c| - 1] == c[..|c| - 1]; }
  }

  lemma SplitOnce(text: Bytes, n: nat)
    requires n < |text| && text[n] == NEWLINE && forall i :: n < i < |text| ==> text[i] != NEWLINE
    ensures Split(text) == Split(text[..n]) + [text[n + 1..]]
  {
    LastNewlineIs(text, n);
  }

  lemma LastLine(c: Bytes, line: Bytes)
    requires AtBoundary(c) && NEWLINE !in line && line != []
    ensures Split(c + line) == (if c == [] then [] else Split(c[..|c| - 1])) + [line]
  {
    var text := c + line;
    if c == [] {
      assert text == line;
      LastNewlineIs(text, -1);
    } else {
      SplitOnce(text, |c| - 1);
      assert text[|c|..] == line && text[..|c| - 1] == c[..|c| - 1];
    }
  }

  /** A whole line after a line boundary is one more line, unless the file was a lone newline. */
  lemma WholeLine(c: Bytes, line: Bytes)
    requires AtBoundary(c) && NEWLINE !in line && line != []
    ensures Lines(c + line + [NEWLINE]) == (if c == [NEWLINE] then [[]] else Lines(c)) + [line]
    ensures Tail(c + line + [NEWLINE]) == []
  {
    var text, whole := c + line, c + line + [NEWLINE];
    LastNewlineIs(whole, |text|);
    assert whole[..|text|] == text;
    LastLine(c, line);
    LastNewlineIs(c, |c| - 1);
    if c == [NEWLINE] { SplitEmpty(c[..0]); }
  }

  lemma SplitEmpty(text: Bytes)
    requires |text| == 0
    ensures Split(text) == [[]]
  {
    assert text == [];
  }

  /** A crash at any byte of an append leaves a file that reads as before, with the leftover flagged; this holds for
  every file that ends at a line boundary. */
  lemma CrashedAppend(codec: Codec, c: Bytes, ts: seq<Persisted>, p: Persisted, k: nat)
    requires Faithful(codec) && Reading(codec, c) == Ok(Recovered(ts, false)) && k < |Line(codec, p)|
    ensures Reading(codec, c + Line(codec, p)[..k]) == Ok(Recovered(ts, k > 0))
  {
    BoundaryTail(c);
    var tail := Line(codec, p)[..k];
    assert tail == codec.encode(p)[..k];
    TornTail(codec, c, tail);
  }

  /** A completed append is read back after what was there before, if and only if the file was not a lone newline: such
  a file reads as an empty journal, but its empty line stops every read once a record follows. */
  lemma CompletedAppend(codec: Codec, c: Bytes, ts: seq<Persisted>, p: Persisted)
    requires Faithful(codec) && Reading(codec, c) == Ok(Recovered(ts, false)) && Refusal(p, Keys(ts), Numbers(ts)).None?
    ensures Reading(codec, c + Line(codec, p)) == Ok(Recovered(ts + [p], false)) <==> c != [NEWLINE]
    ensures c == [NEWLINE] ==> Reading(codec, c + Line(codec, p)) == Err(Malformed)
  {
    BoundaryTail(c);
    var line := codec.encode(p);
    assert line != [] by {
      assert codec.decode(line) == Some(p);
    }
    assert c + Line(codec, p) == c + line + [NEWLINE];
    WholeLine(c, line);
    var lines := Lines(c + Line(codec, p));
    if c == [NEWLINE] {
      ReadLinesStep(codec, lines, 0);
      assert lines[..1] == [[]];
      ErrorStays(codec, lines, 1);
    } else {
      assert lines[..|Lines(c)|] == Lines(c);
      ReadLinesStep(codec, lines, |Lines(c)|);
      assert lines[..|Lines(c)| + 1] == lines;
    }
  }

  // Every crash point of a whole journal

  lemma AcceptedPrefix(ts: seq<Persisted>, n: nat)
    requires Accepted(ts) && n <= |ts|
    ensures Accepted(ts[..n])
  {
    if n < |ts| {
      AcceptedPrefix(ts[..|ts| - 1], n);
      assert ts[..|ts| - 1][..n] == ts[..n];
    } else {
      assert ts[..n] == ts;
    }
  }

  lemma {:induction false} StreamIsNotLone(codec: Codec, ts: seq<Persisted>)
    requires Faithful(codec)
    ensures Stream(codec, ts) != [NEWLINE]
  {
    if ts != [] {
      var p := ts[|ts| - 1];
      assert codec.decode(codec.encode(p)) == Some(p);
      assert |codec.encode(p)| > 0;
      assert |Stream(codec, ts)| >= 2;
    }
  }

  lemma WholeStep(codec: Codec, init: seq<Persisted>, p: Persisted)
    requires Faithful(codec) && Reading(codec, Stream(codec, init)) == Ok(Recovered(init, false))
      && Refusal(p, Keys(init), Numbers(init)).None?
    ensures Reading(codec, Stream(codec, init) + Line(codec, p)) == Ok(Recovered(init + [p], false))
  {
    StreamIsNotLone(codec, init);
    CompletedAppend(codec, Stream(codec, init), init, p);
  }

  predicate ReadsAs(codec: Codec, content: Bytes, ts: seq<Persisted>) {
    Reading(codec, content) == Ok(Recovered(ts, false))
  }

  lemma WholeGrows(codec: Codec, ts: seq<Persisted>)
    requires Faithful(codec) && Accepted(ts) && ts != []
      && ReadsAs(codec, Stream(codec, ts[..|ts| - 1]), ts[..|ts| - 1])
    ensures ReadsAs(codec, Stream(codec, ts), ts)
  {
    WholeStep(codec, ts[..|ts| - 1], ts[|ts| - 1]);
    Rejoined(ts);
  }

  /** The round trip of a whole journal. */
  lemma {:induction false} WholeJournal(codec: Codec, ts: seq<Persisted>)
    requires Faithful(codec) && Accepted(ts)
    ensures ReadsAs(codec, Stream(codec, ts), ts)
  {
    if ts == [] {
      EmptyJournal(codec, Stream(codec, ts), ts);
    } else {
      WholeJournal(codec, ts[..|ts| - 1]);
      WholeGrows(codec, ts);
    }
  }

  lemma NoLines(c: Bytes)
    requires |c| == 0
    ensures Lines(c) == [] && Tail(c) == []
  {
    assert LastNewline(c) == -1;
  }

  lemma NothingRead(codec: Codec, content: Bytes, ts: seq<Persisted>)
    requires Lines(content) == [] && Tail(content) == [] && |ts| == 0
    ensures ReadsAs(codec, content, ts)
  {
    assert ReadLines(codec, Lines(content)) == Ok(ts);
  }

  lemma EmptyJournal(codec: Codec, content: Bytes, ts: seq<Persisted>)
    requires |content| == 0 && |ts| == 0
    ensures ReadsAs(codec, content, ts)
  {
    NoLines(content);
    NothingRead(codec, content, ts);
  }

  lemma Rejoined(ts: seq<Persisted>)
    requires ts != []
    ensures ts[..|ts| - 1] + [ts[|ts| - 1]] == ts
  {
  }

  /** How many whole records the first k bytes hold. */
  function Whole(codec: Codec, ts: seq<Persisted>, k: nat): (n: nat)
    ensures n <= |ts|
  {
    if |Stream(codec, ts)| <= k || ts == [] then |ts| else Whole(codec, ts[..|ts| - 1], k)
  }

  lemma {:induction false} WholeBound(codec: Codec, ts: seq<Persisted>, k: nat)
    ensures var n := Whole(codec, ts, k);
            |Stream(codec, ts[..n])| <= k && (n < |ts| ==> k < |Stream(codec, ts[..n + 1])|)
  {
    if |Stream(codec, ts)| <= k || ts == [] {
      assert ts[..|ts|] == ts;
    } else {
      var init := ts[..|ts| - 1];
      WholeBound(codec, init, k);
      var n := Whole(codec, init, k);
      assert init[..n] == ts[..n];
      if n < |init| { assert init[..n + 1] == ts[..n + 1]; } else { assert ts[..n + 1] == ts; }
    }
  }

  lemma {:induction false} StreamPrefix(codec: Codec, ts: seq<Persisted>, n: nat)
    requires n <= |ts|
    ensures Stream(codec, ts[..n]) <= Stream(codec, ts)
  {
    if n < |ts| {
      StreamPrefix(codec, ts[..|ts| - 1], n);
      assert ts[..|ts| - 1][..n] == ts[..n];
    } else {
      assert ts[..n] == ts;
    }
  }

  /** The first k bytes are the whole records that fit and the beginning of the next one. */
  lemma CutAt(codec: Codec, ts: seq<Persisted>, k: nat)
    requires k < |Stream(codec, ts)|
    ensures var n := Whole(codec, ts, k);
            && n < |ts|
            && 0 <= k - |Stream(codec, ts[..n])| < |Line(codec, ts[n])|
            && Stream(codec, ts)[..k] == Stream(codec, ts[..n]) + Line(codec, ts[n])[..k - |Stream(codec, ts[..n])|]
  {
    WholeBound(codec, ts, k);
    var n := Whole(codec, ts, k);
    assert ts[..|ts|] == ts;
    assert n < |ts|;
    assert ts[..n + 1][..n] == ts[..n];
    StreamPrefix(codec, ts, n + 1);
    assert Stream(codec, ts)[..k] == Stream(codec, ts[..n + 1])[..k];
  }

  /** A read returns exactly the first n records, which are those that end by byte k, and flags leftover bytes. */
  ghost predicate ReadsWhole(codec: Codec, ts: seq<Persisted>, k: nat, n: nat)
    requires n <= |ts| && k <= |Stream(codec, ts)|
  {
    && |Stream(codec, ts[..n])| <= k
    && (n < |ts| ==> k < |Stream(codec, ts[..n + 1])|)
    && Reading(codec, Stream(codec, ts)[..k]) == Ok(Recovered(ts[..n], k > |Stream(codec, ts[..n])|))
  }

  lemma WholeCrashPoint(codec: Codec, ts: seq<Persisted>)
    requires Faithful(codec) && Accepted(ts)
    ensures ReadsWhole(codec, ts, |Stream(codec, ts)|, |ts|)
  {
    var whole, n := Stream(codec, ts), |ts|;
    assert ts[..n] == ts && whole[..|whole|] == whole;
    assert Reading(codec, whole) == Ok(Recovered(ts, false)) by { WholeJournal(codec, ts); }
  }

  lemma TornReading(codec: Codec, whole: Bytes, k: nat, c: Bytes, ts: seq<Persisted>, p: Persisted)
    requires Faithful(codec) && Reading(codec, c) == Ok(Recovered(ts, false)) && k <= |whole|
      && 0 <= k - |c| < |Line(codec, p)|
    requires whole[..k] == c + Line(codec, p)[..k - |c|]
    ensures Reading(codec, whole[..k]) == Ok(Recovered(ts, k > |c|))
  {
    CrashedAppend(codec, c, ts, p, k - |c|);
  }

  lemma TornPrefix(codec: Codec, ts: seq<Persisted>, k: nat, n: nat)
    requires Faithful(codec) && Accepted(ts) && k < |Stream(codec, ts)| && n == Whole(codec, ts, k)
    ensures Reading(codec, Stream(codec, ts)[..k]) == Ok(Recovered(ts[..n], k > |Stream(codec, ts[..n])|))
  {
    CutAt(codec, ts, k);
    AcceptedPrefix(ts, n);
    WholeJournal(codec, ts[..n]);
    TornReading(codec, Stream(codec, ts), k, Stream(codec, ts[..n]), ts[..n], ts[n]);
  }

  lemma TornCrashPoint(codec: Codec, ts: seq<Persisted>, k: nat)
    requires Faithful(codec) && Accepted(ts) && k < |Stream(codec, ts)|
    ensures ReadsWhole(codec, ts, k, Whole(codec, ts, k))
  {
    WholeBound(codec, ts, k);
    TornPrefix(codec, ts, k, Whole(codec, ts, k));
  }

  /** For every byte at which the process dies, a read returns exactly the whole records before it and flags leftover
  bytes. */
  lemma EveryCrashPoint(codec: Codec, ts: seq<Persisted>, k: nat)
    requires Faithful(codec) && Accepted(ts) && k <= |Stream(codec, ts)|
    ensures ReadsWhole(codec, ts, k, Whole(codec, ts, k))
  {
    if k == |Stream(codec, ts)| {
      WholeCrashPoint(codec, ts);
    } else {
      TornCrashPoint(codec, ts, k);
    }
  }

  // Resuming

  lemma {:induction false} AcceptedDistinct(ts: seq<Persisted>)
    requires Accepted(ts)
    ensures DistinctKeys(ts)
  {
    if ts != [] {
      var n := |ts| - 1;
      AcceptedDistinct(ts[..n]);
      KeysOf(ts[..n], Key(ts[n]));
      assert forall i :: 0 <= i < n ==> ts[..n][i] == ts[i];
      forall i | 0 <= i < n ensures Key(ts[i]) != Key(ts[n]) {
        assert Key(ts[..n][i]) == Key(ts[i]);
      }
    }
  }

  /** Why a file cannot be resumed. */
  function ResumeRefusal(codec: Codec, present: bool, finalised: bool, content: Bytes): Option<JournalError> {
    if !present then Some(MissingFile)
    else if finalised then Some(Finalised)
    else
      var read := Reading(codec, content);
      if read.Err? then Some(read.error)
      else if read.value.incompleteTrailingLine then Some(IncompleteLine)
      else if !Contiguous(SortBySequence(read.value.traces)) then Some(NotContiguous)
      else None
  }

  /** Resuming is refused for the first of these that holds; the numbers go on from 1 without a gap when sorted. */
  lemma ResumeRefusalIsExact(codec: Codec, present: bool, finalised: bool, content: Bytes)
    ensures var r, read := ResumeRefusal(codec, present, finalised, content), Reading(codec, content);
            var whole := read.Ok? && !read.value.incompleteTrailingLine;
            && (r == Some(MissingFile) <==> !present || (!finalised && read == Err(MissingFile)))
            && (r == Some(Finalised) <==> present && (finalised || read == Err(Finalised)))
            && (r == Some(IncompleteLine) <==>
                  present && !finalised && (read == Err(IncompleteLine) || (read.Ok? && !whole)))
            && (present && !finalised && read.Err? ==> r == Some(read.error))
            && (r == None <==>
                  && present && !finalised && whole
                  && var sorted := SortBySequence(read.value.traces);
                     forall i :: 0 <= i < |sorted| ==> sorted[i].sequence == i + 1)
            && (present && !finalised && whole && r != None ==> r == Some(NotContiguous))
  {
    var read := Reading(codec, content);
    if read.Ok? {
      var sorted := SortBySequence(read.value.traces);
      assert Contiguous(sorted) <==> forall i :: 0 <= i < |sorted| ==> sorted[i].sequence == i + 1;
    }
    var r := ResumeRefusal(codec, present, finalised, content);
    var whole := read.Ok? && !read.value.incompleteTrailingLine;
    assert r == None ==> Contiguous(SortBySequence(read.value.traces));
    assert present && !finalised && whole && Contiguous(SortBySequence(read.value.traces)) ==> r == None;
  }

  lemma FreshInOrder(sorted: seq<Persisted>, i: nat)
    requires i < |sorted| && DistinctKeys(sorted) && Contiguous(sorted[..i]) && sorted[i].sequence == i + 1
    ensures Key(sorted[i]) !in Keys(sorted[..i]) && sorted[i].sequence !in Numbers(sorted[..i])
    ensures Contiguous(sorted[..i + 1])
    ensures Keys(sorted[..i + 1]) == Keys(sorted[..i]) + {Key(sorted[i])}
    ensures Numbers(sorted[..i + 1]) == Numbers(sorted[..i]) + {sorted[i].sequence}
  {
    KeysOf(sorted[..i], Key(sorted[i]));
    NumbersOf(sorted[..i], i + 1);
    assert sorted[..i + 1] == sorted[..i] + [sorted[i]];
    SetsGrow(sorted[..i], sorted[i]);
  }

  lemma SortedJournal(ts: seq<Persisted>, sorted: seq<Persisted>)
    requires Accepted(ts) && sorted == SortBySequence(ts)
    ensures DistinctKeys(sorted) && Keys(sorted) == Keys(ts) && Numbers(sorted) == Numbers(ts)
    ensures sorted[..|sorted|] == sorted
  {
    SortSorts(ts);
    AcceptedDistinct(ts);
    ShuffleDistinctKeys(ts, sorted);
    ShuffleKeys(ts, sorted);
    ShuffleNumbers(ts, sorted);
  }

  /** The checks of the resume loop over the sorted traces, which also fills the seen sets. */
  method Replay(ts: seq<Persisted>)
    returns (error: Option<JournalError>, seenInvocationKeys: set<(string, Order)>, seenSequences: set<int>)
    requires Accepted(ts)
    ensures error == if Contiguous(SortBySequence(ts)) then None else Some(NotContiguous)
    ensures error.None? ==> seenInvocationKeys == Keys(ts) && seenSequences == Numbers(ts)
  {
    var sorted := SortBySequence(ts);
    SortedJournal(ts, sorted);
    seenInvocationKeys, seenSequences := {}, {};
    for index := 0 to |sorted|
      invariant Contiguous(sorted[..index])
      invariant seenInvocationKeys == Keys(sorted[..index]) && seenSequences == Numbers(sorted[..index])
    {
      var trace := sorted[index];
      if trace.sequence != index + 1 {
        return Some(NotContiguous), seenInvocationKeys, seenSequences;
      }
      FreshInOrder(sorted, index);
      if Key(trace) in seenInvocationKeys || trace.sequence in seenSequences {
        return Some(DuplicateTrace), seenInvocationKeys, seenSequences;
      }
      seenInvocationKeys := seenInvocationKeys + {Key(trace)};
      seenSequences := seenSequences + {trace.sequence};
    }
    error := None;
  }

  /** A journal of traces numbered 1, 2, 3, ... that died at byte k resumes if and only if k is the end of a record. */
  lemma ResumesAtRecordEnds(codec: Codec, ts: seq<Persisted>, k: nat)
    requires Faithful(codec) && Accepted(ts) && Contiguous(ts) && k <= |Stream(codec, ts)|
    ensures ResumeRefusal(codec, true, false, Stream(codec, ts)[..k]).None? <==>
              k == |Stream(codec, ts[..Whole(codec, ts, k)])|
  {
    EveryCrashPoint(codec, ts, k);
    var n := Whole(codec, ts, k);
    SortSorts(ts[..n]);
    NumberedUnique(ts[..n], SortBySequence(ts[..n]));
  }

  // The journal object

  function Sum(writes: seq<nat>): nat {
    if writes == [] then 0 else Sum(writes[..|writes| - 1]) + writes[|writes| - 1]
  }

  /** How many of n bytes reach the file when the successive writes take at most the given numbers before the process
  stops or a write throws. */
  function Written(n: nat, writes: seq<nat>): (r: nat)
    ensures r <= n
  {
    if Sum(writes) < n then Sum(writes) else n
  }

  lemma {:induction false} SumGrows(writes: seq<nat>, i: nat)
    requires i <= |writes|
    ensures Sum(writes[..i]) <= Sum(writes)
    ensures i < |writes| ==> Sum(writes[..i + 1]) == Sum(writes[..i]) + writes[i]
  {
    if i < |writes| { assert writes[..i + 1][..i] == writes[..i]; }
    if i == |writes| {
      assert writes[..i] == writes;
    } else {
      SumGrows(writes[..|writes| - 1], i);
      assert writes[..|writes| - 1][..i] == writes[..i];
    }
  }

  /** The seen sets are those of the recorded traces. */
  predicate Tracks(keys: set<(string, Order)>, numbers: set<int>, ts: seq<Persisted>) {
    keys == Keys(ts) && numbers == Numbers(ts)
  }

  /** The journal file is whole. */
  predicate WholeFile(codec: Codec, content: Bytes, ts: seq<Persisted>) {
    content != [NEWLINE] && ReadsAs(codec, content, ts)
  }

  /** What a read finds after k bytes of a line were added to a whole file: everything as before, with a leftover, or
  the new trace too. */
  lemma AppendReads(codec: Codec, before: Bytes, ts: seq<Persisted>, trace: Persisted, k: nat)
    requires Faithful(codec) && k <= |Line(codec, trace)| && WholeFile(codec, before, ts)
    requires Refusal(trace, Keys(ts), Numbers(ts)).None?
    ensures if k == |Line(codec, trace)| then WholeFile(codec, before + Line(codec, trace)[..k], ts + [trace])
            else Reading(codec, before + Line(codec, trace)[..k]) == Ok(Recovered(ts, k > 0))
  {
    if k == |Line(codec, trace)| {
      TakeAll(Line(codec, trace));
      CompletedAppend(codec, before, ts, trace);
      assert codec.decode(codec.encode(trace)) == Some(trace);
      assert |codec.encode(trace)| > 0;
    } else {
      CrashedAppend(codec, before, ts, trace, k);
    }
  }

  // After a failed append

  /** What a read makes of one more line. */
  function OneMore(codec: Codec, ts: seq<Persisted>, line: Bytes): Result<Recovered, JournalError> {
    var p := codec.decode(line);
    if p.None? then Err(Malformed)
    else
      var refusal := Refusal(p.value, Keys(ts), Numbers(ts));
      if refusal.Some? then Err(refusal.value) else Ok(Recovered(ts + [p.value], false))
  }

  lemma LineAdded(codec: Codec, c: Bytes, line: Bytes)
    requires AtBoundary(c) && c != [NEWLINE] && NEWLINE !in line && line != []
    ensures Lines(c + line + [NEWLINE]) == Lines(c) + [line] && Tail(c + line + [NEWLINE]) == []
    ensures ReadLines(codec, Lines(c)).Err? ==> ReadLines(codec, Lines(c) + [line]) == ReadLines(codec, Lines(c))
  {
    WholeLine(c, line);
    assert (Lines(c) + [line])[..|Lines(c)|] == Lines(c);
    if ReadLines(codec, Lines(c)).Err? { ErrorStays(codec, Lines(c) + [line], |Lines(c)|); }
  }

  lemma LineRead(codec: Codec, c: Bytes, ts: seq<Persisted>, line: Bytes)
    requires WholeFile(codec, c, ts) && NEWLINE !in line && line != []
    ensures Reading(codec, c + line + [NEWLINE]) == OneMore(codec, ts, line)
  {
    BoundaryTail(c);
    LineAdded(codec, c, line);
    var lines, n := Lines(c) + [line], |Lines(c)|;
    ReadLinesStep(codec, lines, n);
    assert lines[..n] == Lines(c) && lines[..n + 1] == lines;
  }

  lemma LineNotEmpty(codec: Codec, p: Persisted)
    requires Faithful(codec)
    ensures codec.encode(p) != [] && NEWLINE !in codec.encode(p)
  {
    assert codec.decode(codec.encode(p)) == Some(p);
  }

  /** The next append after a torn one ends up on the torn bytes' line: what a read then finds hangs on whether the two
  together happen to be a trace, and otherwise the file is unreadable. */
  lemma TornThenAppended(codec: Codec, c: Bytes, ts: seq<Persisted>, torn: Bytes, q: Persisted)
    requires Faithful(codec) && WholeFile(codec, c, ts) && NEWLINE !in torn
    ensures Reading(codec, c + torn + Line(codec, q)) == OneMore(codec, ts, torn + codec.encode(q))
  {
    var line := torn + codec.encode(q);
    LineNotEmpty(codec, q);
    assert c + torn + Line(codec, q) == c + line + [NEWLINE];
    LineRead(codec, c, ts, line);
  }

  lemma TwiceIsRefused(codec: Codec, ts: seq<Persisted>, p: Persisted)
    requires Faithful(codec) && Refusal(p, Keys(ts), Numbers(ts)).None?
    ensures OneMore(codec, ts + [p], codec.encode(p)) == Err(DuplicateTrace)
  {
    SetsGrow(ts, p);
  }

  /** An append whose fsync fails reports a failure, but its trace is in the file; the journal would take it again, and
  then every read refuses the file. */
  lemma UnsyncedRetry(codec: Codec, c: Bytes, ts: seq<Persisted>, p: Persisted)
    requires Faithful(codec) && WholeFile(codec, c, ts) && Refusal(p, Keys(ts), Numbers(ts)).None?
    ensures WholeFile(codec, c + Line(codec, p), ts + [p])
    ensures Reading(codec, c + Line(codec, p) + Line(codec, p)) == Err(DuplicateTrace)
  {
    var kept, line := c + Line(codec, p), codec.encode(p);
    CompletedAppend(codec, c, ts, p);
    LineNotEmpty(codec, p);
    assert kept + Line(codec, p) == kept + line + [NEWLINE];
    LineRead(codec, kept, ts + [p], line);
    TwiceIsRefused(codec, ts, p);
  }

  /** Another trace that the journal takes after a failed fsync leaves the file readable if and only if it shares
  neither the invocation nor the number of the trace that is already there. */
  lemma UnsyncedThenAppended(codec: Codec, c: Bytes, ts: seq<Persisted>, p: Persisted, q: Persisted)
    requires Faithful(codec) && WholeFile(codec, c, ts)
    requires Refusal(p, Keys(ts), Numbers(ts)).None? && Refusal(q, Keys(ts), Numbers(ts)).None?
    ensures Reading(codec, c + Line(codec, p) + Line(codec, q)).Ok? <==> Key(q) != Key(p) && q.sequence != p.sequence
  {
    var kept, line := c + Line(codec, p), codec.encode(q);
    UnsyncedRetry(codec, c, ts, p);
    LineNotEmpty(codec, q);
    assert kept + Line(codec, q) == kept + line + [NEWLINE];
    LineRead(codec, kept, ts + [p], line);
    SetsGrow(ts, p);
  }

  /** The file after an append of p that left k bytes, and a whole one of q. */
  function AfterFailed(codec: Codec, c: Bytes, p: Persisted, k: nat, q: Persisted): Bytes
    requires k <= |Line(codec, p)|
  {
    c + Line(codec, p)[..k] + Line(codec, q)
  }

  /** Wherever an append fails, the next one leaves the file readable exactly if: the whole line is there, and the two
  share neither invocation nor number; or only part of it, and that part and the next trace happen to be one acceptable
  trace. */
  lemma FailedThenAppended(codec: Codec, c: Bytes, ts: seq<Persisted>, p: Persisted, k: nat, q: Persisted)
    requires Faithful(codec) && WholeFile(codec, c, ts) && k <= |Line(codec, p)|
    requires Refusal(p, Keys(ts), Numbers(ts)).None? && Refusal(q, Keys(ts), Numbers(ts)).None?
    ensures Reading(codec, AfterFailed(codec, c, p, k, q)).Ok? <==>
              if k == |Line(codec, p)| then Key(q) != Key(p) && q.sequence != p.sequence
              else OneMore(codec, ts, codec.encode(p)[..k] + codec.encode(q)).Ok?
  {
    if k == |Line(codec, p)| {
      TakeAll(Line(codec, p));
      UnsyncedThenAppended(codec, c, ts, p, q);
    } else {
      LineNotEmpty(codec, p);
      var torn := codec.encode(p)[..k];
      assert Line(codec, p)[..k] == torn;
      TornThenAppended(codec, c, ts, torn, q);
    }
  }

  /** An unreadable file stays so, whatever is appended to it. */
  lemma BrokenForGood(codec: Codec, c: Bytes, q: Persisted)
    requires Faithful(codec) && AtBoundary(c) && Reading(codec, c).Err?
    ensures Reading(codec, c + Line(codec, q)) == Reading(codec, c)
  {
    var line := codec.encode(q);
    assert codec.decode(line) == Some(q);
    if c == [NEWLINE] { LastNewlineIs(c, 0); }
    assert c + Line(codec, q) == c + line + [NEWLINE];
    LineAdded(codec, c, line);
  }

  lemma EmptyIsWhole(codec: Codec, content: Bytes, keys: set<(string, Order)>, numbers: set<int>, ts: seq<Persisted>)
    requires |content| == 0 && keys == {} && numbers == {} && |ts| == 0
    ensures Tracks(keys, numbers, ts) && WholeFile(codec, content, ts)
  {
    EmptyJournal(codec, content, ts);
  }

  lemma TracksOneMore(keys: set<(string, Order)>, numbers: set<int>, ts: seq<Persisted>, p: Persisted)
    requires Tracks(keys, numbers, ts)
    ensures Tracks(keys + {Key(p)}, numbers + {p.sequence}, ts + [p])
  {
    SetsGrow(ts, p);
  }

  class Journal {
    const codec: Codec
    var content: Bytes
    var seenInvocationKeys: set<(string, Order)>
    var seenSequences: set<int>
    var closed: bool
    ghost var recorded: seq<Persisted>

    ghost predicate Valid()
      reads this
    {
      Tracks(seenInvocationKeys, seenSequences, recorded)
    }

    /** The file holds the recorded traces and nothing else. */
    ghost predicate Intact()
      reads this
    {
      Valid() && WholeFile(codec, content, recorded)
    }

    /** createDurableSemanticGateAttempt, once none of the attempt's files exists. */
    constructor Create(codec: Codec)
      ensures Intact() && recorded == [] && content == [] && !closed && this.codec == codec
    {
      this.codec := codec;
      content, seenInvocationKeys, seenSequences, closed := [], {}, {}, false;
      recorded := [];
      new;
      EmptyIsWhole(codec, content, seenInvocationKeys, seenSequences, recorded);
    }

    constructor Reopen(codec: Codec, content: Bytes, keys: set<(string, Order)>, sequences: set<int>,
        ghost recorded: seq<Persisted>)
      requires keys == Keys(recorded) && sequences == Numbers(recorded)
      ensures Valid() && this.codec == codec && this.content == content && this.recorded == recorded && !closed
    {
      this.codec, this.content, closed := codec, content, false;
      seenInvocationKeys, seenSequences := keys, sequences;
      this.recorded := recorded;
    }

    method WriteAll(value: Bytes, writes: seq<nat>) returns (offset: nat)
      modifies `content
      ensures offset == Written(|value|, writes)
      ensures content == old(content) + value[..offset]
    {
      offset := 0;
      var call := 0;
      while offset < |value| && call < |writes|
        invariant call <= |writes| && offset == Written(|value|, writes[..call])
        invariant content == old(content) + value[..offset]
        decreases |writes| - call
      {
        SumGrows(writes, call);
        var written := if writes[call] < |value| - offset then writes[call] else |value| - offset;
        assert value[..offset + written] == value[..offset] + value[offset..offset + written];
        content := content + value[offset..offset + written];
        offset := offset + written;
        call := call + 1;
      }
      SumGrows(writes, call);
      assert writes[..|writes|] == writes;
    }

    /** append; synced says whether fsync returned. */
    method Append(trace: Persisted, writes: seq<nat>, synced: bool) returns (error: Option<JournalError>)
      requires Valid()
      modifies this
      ensures Valid() && closed == old(closed)
      ensures error == if closed then Some(Closed)
                       else if Refusal(trace, old(seenInvocationKeys), old(seenSequences)).Some?
                       then Refusal(trace, old(seenInvocationKeys), old(seenSequences))
                       else if Written(|Line(codec, trace)|, writes) < |Line(codec, trace)| || !synced then
                         Some(WriteFailed)
                       else None
      ensures recorded == if error.None? then old(recorded) + [trace] else old(recorded)
      ensures content == if error.None? || error == Some(WriteFailed)
                         then old(content) + Line(codec, trace)[..Written(|Line(codec, trace)|, writes)]
                         else old(content)
      ensures Faithful(codec) && old(Intact()) && error.None? ==> Intact()
    {
      if closed {
        return Some(Closed);
      }
      error := Refusal(trace, seenInvocationKeys, seenSequences);
      if error.Some? {
        return;
      }
      var offset := WriteAll(Line(codec, trace), writes);
      if Faithful(codec) && old(Intact()) { AppendReads(codec, old(content), recorded, trace, offset); }
      if offset < |Line(codec, trace)| || !synced {
        return Some(WriteFailed);
      }
      TracksOneMore(seenInvocationKeys, seenSequences, recorded, trace);
      seenInvocationKeys := seenInvocationKeys + {Key(trace)};
      seenSequences := seenSequences + {trace.sequence};
      recorded := recorded + [trace];
    }

    method Close()
      modifies `closed
      ensures closed
    {
      closed := true;
    }
  }

  /** resumeDurableSemanticGateAttempt: existing traces come back in file order, and the journal refuses them from now
  on. */
  method Resume(codec: Codec, present: bool, finalised: bool, content: Bytes)
    returns (r: Result<Journal, JournalError>, traces: seq<Persisted>)
    ensures r.Err? <==> ResumeRefusal(codec, present, finalised, content).Some?
    ensures r.Err? ==> Some(r.error) == ResumeRefusal(codec, present, finalised, content)
    ensures r.Ok? ==> fresh(r.value) && r.value.Valid() && r.value.recorded == traces && r.value.content == content
                      && r.value.codec == codec && !r.value.closed
                      && Reading(codec, content) == Ok(Recovered(traces, false))
  {
    traces := [];
    if !present {
      return Err(MissingFile), traces;
    }
    if finalised {
      return Err(Finalised), traces;
    }
    var recovered := Read(codec, content);
    if recovered.Err? {
      return Err(recovered.error), traces;
    }
    if recovered.value.incompleteTrailingLine {
      return Err(IncompleteLine), traces;
    }
    traces := recovered.value.traces;
    ReadIsAccepted(codec, Lines(content));
    var error, seenInvocationKeys, seenSequences := Replay(traces);
    if error.Some? {
      return Err(error.value), traces;
    }
    var journal := new Journal.Reopen(codec, content, seenInvocationKeys, seenSequences, traces);
    r := Ok(journal);
  }
}
