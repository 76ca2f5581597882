/** Semantic selection traces, the records both evaluators journal and rebuild from
(evals/selection/semantic/evaluation.ts), with the orders and counts taken over them. */
module SemanticTraces {
  import opened Wrappers

  datatype Label = A | B | C

  datatype Selection = Choice(tag: Label) | Abstain

  datatype Outcome = Selected | Abstained | Invalid | Timeout | ProviderError

  datatype Order = Primary | Reversed

  datatype Classification = Correct | Wrong | NonSelection

  /** The shape of the model's raw output; its hash and length are not modelled. */
  type Shape = string

  /** What the selector returned, and how long it took. */
  datatype Answer = Answer(selection: Selection, outcome: Outcome, elapsedMs: nat, rawOutputShape: Option<Shape>)

  /** A candidate past the third has no label. */
  datatype Labelled = Labelled(tag: Option<Label>, evidenceId: string)

  datatype Trace = Trace(
    caseId: string, order: Order, candidateCount: int, candidates: seq<Labelled>,
    outcome: Outcome, selection: Option<Selection>, mappedEvidenceId: Option<string>,
    expectedEvidenceId: string, classification: Classification, elapsedMs: Option<int>,
    rawOutputShape: Option<Shape>)

  /** A trace with its journal sequence. */
  datatype Persisted = Persisted(sequence: int, trace: Trace)

  const MAX_SAFE_INTEGER: int := 0x1F_FFFF_FFFF_FFFF

  /** ["A", "B", "C"][i] */
  function LabelAt(i: nat): Option<Label> {
    if i == 0 then Some(A) else if i == 1 then Some(B) else if i == 2 then Some(C) else None
  }

  function Position(l: Label): nat { match l case A => 0 case B => 1 case C => 2 }

  function WithLabels(ids: seq<string>): (r: seq<Labelled>)
    ensures |r| == |ids|
  {
    seq(|ids|, i requires 0 <= i < |ids| => Labelled(LabelAt(i), ids[i]))
  }

  function ReversedIds(ids: seq<string>): (r: seq<string>)
    ensures |r| == |ids| && forall i :: 0 <= i < |ids| ==> r[i] == ids[|ids| - 1 - i]
  {
    seq(|ids|, i requires 0 <= i < |ids| => ids[|ids| - 1 - i])
  }

  function InOrder(ids: seq<string>, order: Order): (r: seq<string>)
    ensures |r| == |ids|
    ensures forall x :: x in r <==> x in ids
  {
    if order.Primary? then ids
    else
      var r := ReversedIds(ids);
      assert forall i :: 0 <= i < |ids| ==> ids[i] == r[|ids| - 1 - i];
      r
  }

  /** candidates.find(c => c.label === selection)?.evidenceId */
  function Find(candidates: seq<Labelled>, selection: Selection): Option<string> {
    if candidates == [] then None
    else if candidates[0].tag.Some? && Choice(candidates[0].tag.value) == selection then Some(candidates[0].evidenceId)
    else Find(candidates[1..], selection)
  }

  /** A non-empty string, as JavaScript truthiness sees an optional one. */
  predicate Truthy(s: Option<string>) { s.Some? && s.value != "" }

  lemma {:induction false} FindAt(c: seq<Labelled>, l: Label, i: nat)
    requires i <= |c| && (forall j :: 0 <= j < i ==> c[j].tag != Some(l))
    requires i < |c| ==> c[i].tag == Some(l)
    ensures Find(c, Choice(l)) == if i < |c| then Some(c[i].evidenceId) else None
  {
    if c != [] && i > 0 { FindAt(c[1..], l, i - 1); }
  }

  lemma FindLabelled(ids: seq<string>, l: Label)
    ensures Find(WithLabels(ids), Choice(l)) == if Position(l) < |ids| then Some(ids[Position(l)]) else None
  {
    FindAt(WithLabels(ids), l, if Position(l) < |ids| then Position(l) else |ids|);
  }

  // What is shown, and what an answer names

  /** The candidate at place i of those shown. */
  function ShownAt(ids: seq<string>, order: Order, i: nat): string
    requires i < |ids|
  {
    match order
    case Primary => ids[i]
    case Reversed => ids[|ids| - 1 - i]
  }

  /** The candidates under the labels they are shown with, the reversed order beginning with the last. */
  predicate Shows(ids: seq<string>, order: Order, c: seq<Labelled>) {
    && |c| == |ids|
    && forall i :: 0 <= i < |c| ==>
         && c[i].evidenceId == ShownAt(ids, order, i)
         && (c[i].tag == Some(A) <==> i == 0) && (c[i].tag == Some(B) <==> i == 1) && (c[i].tag == Some(C) <==> i == 2)
  }

  /** The candidate that a label names. */
  function Named(ids: seq<string>, order: Order, l: Label): Option<string> {
    var i := match l case A => 0 case B => 1 case C => 2;
    if i < |ids| then Some(ShownAt(ids, order, i)) else None
  }

  lemma ShowsExactly(ids: seq<string>, order: Order, c: seq<Labelled>)
    ensures c == WithLabels(InOrder(ids, order)) <==> Shows(ids, order, c)
  {
    if Shows(ids, order, c) {
      forall i | 0 <= i < |c| ensures c[i] == WithLabels(InOrder(ids, order))[i] {
        match c[i].tag
        case None =>
        case Some(l) => assert l == A || l == B || l == C;
      }
    }
  }

  lemma FindsNamed(ids: seq<string>, order: Order, l: Label)
    ensures Find(WithLabels(InOrder(ids, order)), Choice(l)) == Named(ids, order, l)
  {
    FindLabelled(InOrder(ids, order), l);
  }

  // Counting

  function Count(traces: seq<Trace>, p: Trace -> bool): nat {
    if traces == [] then 0
    else Count(traces[..|traces| - 1], p) + (if p(traces[|traces| - 1]) then 1 else 0)
  }

  // Sorting by sequence number: Array.prototype.sort with (left, right) => left.sequence - right.sequence

  function Insert(p: Persisted, s: seq<Persisted>): seq<Persisted> {
    if s == [] || p.sequence < s[0].sequence then [p] + s else [s[0]] + Insert(p, s[1..])
  }

  function SortBySequence(s: seq<Persisted>): seq<Persisted> {
    if s == [] then [] else Insert(s[|s| - 1], SortBySequence(s[..|s| - 1]))
  }

  predicate Ascending(s: seq<Persisted>) {
    forall i, j :: 0 <= i < j < |s| ==> s[i].sequence <= s[j].sequence
  }

  predicate Contiguous(s: seq<Persisted>) {
    forall i :: 0 <= i < |s| ==> s[i].sequence == i + 1
  }

  lemma {:induction false} InsertContents(p: Persisted, s: seq<Persisted>)
    ensures multiset(Insert(p, s)) == multiset(s) + multiset{p}
  {
    if s == [] || p.sequence < s[0].sequence {
    } else {
      InsertContents(p, s[1..]);
      assert s == [s[0]] + s[1..];
    }
  }

  lemma {:induction false} InsertSorts(p: Persisted, s: seq<Persisted>)
    requires Ascending(s)
    ensures Ascending(Insert(p, s))
  {
    if s == [] || p.sequence < s[0].sequence {
    } else {
      InsertSorts(p, s[1..]);
      InsertContents(p, s[1..]);
      var rest := Insert(p, s[1..]);
      forall k | 0 <= k < |rest| ensures s[0].sequence <= rest[k].sequence {
        assert rest[k] in multiset(rest);
      }
    }
  }

  lemma {:induction false} SortSorts(s: seq<Persisted>)
    ensures Ascending(SortBySequence(s)) && multiset(SortBySequence(s)) == multiset(s)
  {
    if s != [] {
      SortSorts(s[..|s| - 1]);
      InsertSorts(s[|s| - 1], SortBySequence(s[..|s| - 1]));
      InsertContents(s[|s| - 1], SortBySequence(s[..|s| - 1]));
      assert s == s[..|s| - 1] + [s[|s| - 1]];
    }
  }

  /** The record with the largest number of an ascending list is its last one. */
  lemma LastOfBoth(a: seq<Persisted>, b: seq<Persisted>)
    requires multiset(a) == multiset(b) && Contiguous(a) && Ascending(b) && a != [] && |a| == |b|
    ensures a[|a| - 1] == b[|b| - 1]
  {
    var n := |a| - 1;
    assert a[n] in multiset(b);
    assert b[n] in multiset(a);
    var i :| 0 <= i < |b| && b[i] == a[n];
    var j :| 0 <= j < |a| && a[j] == b[n];
    assert b[i].sequence <= b[n].sequence;
  }

  /** Without their common last record two such lists still are such lists. */
  lemma DropBoth(a: seq<Persisted>, b: seq<Persisted>)
    requires multiset(a) == multiset(b) && Contiguous(a) && Ascending(b) && a != [] && |a| == |b|
    requires a[|a| - 1] == b[|b| - 1]
    ensures multiset(a[..|a| - 1]) == multiset(b[..|a| - 1])
    ensures Contiguous(a[..|a| - 1]) && Ascending(b[..|a| - 1])
  {
    DropLast(a);
    DropLast(b);
  }

  /** A list numbered 1, 2, 3, ... is the only ascending arrangement of its records. */
  lemma {:induction false} NumberedUnique(a: seq<Persisted>, b: seq<Persisted>)
    requires multiset(a) == multiset(b) && Contiguous(a) && Ascending(b)
    ensures a == b
  {
    SameLength(a, b);
    if a != [] {
      var n := |a| - 1;
      LastOfBoth(a, b);
      DropBoth(a, b);
      NumberedUnique(a[..n], b[..n]);
      TakeDrop(a, n);
      TakeDrop(b, n);
      assert a[n..] == b[n..];
    }
  }

  lemma SameLength(a: seq<Persisted>, b: seq<Persisted>)
    requires multiset(a) == multiset(b)
    ensures |a| == |b|
  {
    assert |multiset(a)| == |a|;
    assert |multiset(b)| == |b|;
  }

  lemma DropLast(s: seq<Persisted>)
    requires s != []
    ensures s == s[..|s| - 1] + [s[|s| - 1]]
    ensures multiset(s[..|s| - 1]) == multiset(s) - multiset{s[|s| - 1]}
  {
    assert s == s[..|s| - 1] + [s[|s| - 1]];
    assert multiset(s) == multiset(s[..|s| - 1]) + multiset{s[|s| - 1]};
  }

  function Numbered(traces: seq<Trace>): (r: seq<Persisted>)
    ensures |r| == |traces| && Contiguous(r) && forall i :: 0 <= i < |traces| ==> r[i].trace == traces[i]
  {
    seq(|traces|, i requires 0 <= i < |traces| => Persisted(i + 1, traces[i]))
  }

  function Stripped(s: seq<Persisted>): (r: seq<Trace>)
    ensures |r| == |s| && forall i :: 0 <= i < |s| ==> r[i] == s[i].trace
  {
    seq(|s|, i requires 0 <= i < |s| => s[i].trace)
  }

  /** Sorting any shuffle of a numbered list recovers it. */
  lemma ShuffleSorts(traces: seq<Trace>, persisted: seq<Persisted>)
    requires multiset(persisted) == multiset(Numbered(traces))
    ensures SortBySequence(persisted) == Numbered(traces)
    ensures Stripped(SortBySequence(persisted)) == traces
    ensures |persisted| == |traces|
  {
    SortSorts(persisted);
    NumberedUnique(Numbered(traces), SortBySequence(persisted));
    SameLength(persisted, Numbered(traces));
  }

  lemma {:induction false} Twice(s: seq<Persisted>, i: nat, j: nat)
    requires i < j < |s| && s[i] == s[j]
    ensures multiset(s)[s[i]] >= 2
  {
    assert s == s[..j] + [s[j]] + s[j + 1..];
    assert s[i] in s[..j];
    assert multiset(s) == multiset(s[..j]) + multiset{s[j]} + multiset(s[j + 1..]);
  }

  lemma {:induction false} NumberedOnce(s: seq<Persisted>, p: Persisted)
    requires Contiguous(s)
    ensures multiset(s)[p] <= 1
  {
    if s != [] {
      var n := |s| - 1;
      NumberedOnce(s[..n], p);
      assert s == s[..n] + [s[n]];
      if p == s[n] {
        assert p !in s[..n];
        assert multiset(s[..n])[p] == 0;
      }
    }
  }

  /** In a shuffle of a numbered list no record occurs twice. */
  lemma ShuffleDistinct(traces: seq<Trace>, persisted: seq<Persisted>, i: nat, j: nat)
    requires multiset(persisted) == multiset(Numbered(traces)) && i < j < |persisted|
    ensures persisted[i] != persisted[j]
  {
    if persisted[i] == persisted[j] {
      Twice(persisted, i, j);
      NumberedOnce(Numbered(traces), persisted[i]);
    }
  }

  // Lookup by invocation and by number

  function Key(p: Persisted): (string, Order) { (p.trace.caseId, p.trace.order) }

  function Entry(persisted: seq<Persisted>, k: (string, Order)): Option<Persisted> {
    if persisted == [] then None
    else if Key(persisted[|persisted| - 1]) == k then Some(persisted[|persisted| - 1])
    else Entry(persisted[..|persisted| - 1], k)
  }

  function Numbers(persisted: seq<Persisted>): set<int> {
    if persisted == [] then {} else Numbers(persisted[..|persisted| - 1]) + {persisted[|persisted| - 1].sequence}
  }

  function Keys(persisted: seq<Persisted>): set<(string, Order)> {
    if persisted == [] then {} else Keys(persisted[..|persisted| - 1]) + {Key(persisted[|persisted| - 1])}
  }

  /** The Map built so far agrees with the list. */
  ghost predicate Indexes(m: map<(string, Order), Persisted>, s: seq<Persisted>) {
    forall k :: Entry(s, k) == if k in m then Some(m[k]) else None
  }

  lemma IndexStep(m: map<(string, Order), Persisted>, s: seq<Persisted>, p: Persisted)
    requires Indexes(m, s)
    ensures Indexes(m[Key(p) := p], s + [p])
  {
    assert (s + [p])[..|s|] == s;
  }

  ghost predicate Present(persisted: seq<Persisted>, id: string, o: Order) {
    exists k :: 0 <= k < |persisted| && Key(persisted[k]) == (id, o)
  }

  ghost predicate HasNumber(persisted: seq<Persisted>, q: int) {
    exists k :: 0 <= k < |persisted| && persisted[k].sequence == q
  }

  lemma {:induction false} EntryIsLast(s: seq<Persisted>, k: (string, Order))
    ensures Entry(s, k).Some? <==> Present(s, k.0, k.1)
    ensures Entry(s, k).Some? ==> Entry(s, k).value in s && Key(Entry(s, k).value) == k
  {
    if s != [] {
      var n := |s| - 1;
      EntryIsLast(s[..n], k);
      if Present(s[..n], k.0, k.1) {
        var i :| 0 <= i < n && Key(s[..n][i]) == (k.0, k.1);
        assert Key(s[i]) == k;
      }
    }
  }

  lemma {:induction false} NumbersOf(s: seq<Persisted>, q: int)
    ensures q in Numbers(s) <==> HasNumber(s, q)
  {
    if s != [] {
      var n := |s| - 1;
      NumbersOf(s[..n], q);
      if q in Numbers(s[..n]) {
        var i :| 0 <= i < n && s[..n][i].sequence == q;
        assert s[i].sequence == q;
      }
    }
  }

  /** In a rising list that has the numbers 1 to q, the q-th is not further to the front than it should be. */
  lemma {:induction false} NotBefore(s: seq<Persisted>, q: int, p: nat)
    requires Ascending(s) && p < |s| && 1 <= q && s[p].sequence == q
    requires forall k :: 1 <= k <= q ==> HasNumber(s, k)
    ensures p >= q - 1
  {
    if q > 1 {
      assert HasNumber(s, q - 1);
      var i: nat :| i < |s| && s[i].sequence == q - 1;
      NotBefore(s, q - 1, i);
    }
  }

  lemma {:induction false} NotAfter(s: seq<Persisted>, q: int, p: nat)
    requires Ascending(s) && p < |s| && 1 <= q <= |s| && s[p].sequence == q
    requires forall k :: 1 <= k <= |s| ==> HasNumber(s, k)
    ensures p <= q - 1
    decreases |s| - q
  {
    if q < |s| {
      assert HasNumber(s, q + 1);
      var i: nat :| i < |s| && s[i].sequence == q + 1;
      NotAfter(s, q + 1, i);
    }
  }

  lemma RisingFill(s: seq<Persisted>)
    requires Ascending(s) && forall q :: 1 <= q <= |s| ==> HasNumber(s, q)
    ensures Contiguous(s)
  {
    forall i | 0 <= i < |s| ensures s[i].sequence == i + 1 {
      assert HasNumber(s, i + 1);
      var p: nat :| p < |s| && s[p].sequence == i + 1;
      NotBefore(s, i + 1, p);
      NotAfter(s, i + 1, p);
    }
  }

  lemma ShuffledNumber(a: seq<Persisted>, b: seq<Persisted>, q: int)
    requires multiset(a) == multiset(b) && HasNumber(a, q)
    ensures HasNumber(b, q)
  {
    var k :| 0 <= k < |a| && a[k].sequence == q;
    assert a[k] in multiset(b);
    var j :| 0 <= j < |b| && b[j] == a[k];
  }

  /** Traces that have all the numbers 1 to n are numbered so when sorted. */
  lemma NumbersFill(persisted: seq<Persisted>)
    requires forall q :: 1 <= q <= |persisted| ==> HasNumber(persisted, q)
    ensures Contiguous(SortBySequence(persisted))
  {
    var sorted := SortBySequence(persisted);
    SortSorts(persisted);
    SameLength(sorted, persisted);
    forall q | 1 <= q <= |sorted| ensures HasNumber(sorted, q) {
      ShuffledNumber(persisted, sorted, q);
    }
    RisingFill(sorted);
  }

  lemma SortedNumber(persisted: seq<Persisted>, q: int)
    requires Contiguous(SortBySequence(persisted)) && 1 <= q <= |persisted|
    ensures HasNumber(persisted, q)
  {
    var sorted := SortBySequence(persisted);
    SortSorts(persisted);
    SameLength(sorted, persisted);
    assert sorted[q - 1] in multiset(persisted);
    var k :| 0 <= k < |persisted| && persisted[k] == sorted[q - 1];
  }

  lemma {:induction false} KeysOf(s: seq<Persisted>, k: (string, Order))
    ensures k in Keys(s) <==> Present(s, k.0, k.1)
  {
    if s != [] {
      var n := |s| - 1;
      KeysOf(s[..n], k);
      if k in Keys(s[..n]) {
        var i :| 0 <= i < n && Key(s[..n][i]) == (k.0, k.1);
        assert Key(s[i]) == k;
      }
    }
  }

  predicate DistinctKeys(s: seq<Persisted>) {
    forall i, j :: 0 <= i < j < |s| ==> Key(s[i]) != Key(s[j])
  }

  lemma {:induction false} DistinctOnce(s: seq<Persisted>, p: Persisted)
    requires DistinctKeys(s)
    ensures multiset(s)[p] <= 1
  {
    if s != [] {
      var n := |s| - 1;
      DistinctOnce(s[..n], p);
      assert s == s[..n] + [s[n]];
      if p == s[n] {
        assert forall i :: 0 <= i < n ==> Key(s[..n][i]) != Key(s[n]);
        assert multiset(s[..n])[p] == 0;
      }
    }
  }

  /** A shuffle repeats no invocation if the list does not. */
  lemma ShuffleDistinctKeys(s: seq<Persisted>, shuffled: seq<Persisted>)
    requires DistinctKeys(s) && multiset(s) == multiset(shuffled)
    ensures DistinctKeys(shuffled)
  {
    forall i, j | 0 <= i < j < |shuffled| ensures Key(shuffled[i]) != Key(shuffled[j]) {
      if Key(shuffled[i]) == Key(shuffled[j]) {
        assert shuffled[i] in multiset(s) && shuffled[j] in multiset(s);
        assert shuffled[i] == shuffled[j];
        Twice(shuffled, i, j);
        DistinctOnce(s, shuffled[i]);
      }
    }
  }

  lemma ShuffleKeys(s: seq<Persisted>, shuffled: seq<Persisted>)
    requires multiset(s) == multiset(shuffled)
    ensures Keys(s) == Keys(shuffled)
  {
    forall k ensures k in Keys(s) <==> k in Keys(shuffled) {
      KeysOf(s, k);
      KeysOf(shuffled, k);
      SamePresence(s, shuffled, k);
      SamePresence(shuffled, s, k);
    }
  }

  lemma SamePresence(s: seq<Persisted>, shuffled: seq<Persisted>, k: (string, Order))
    requires multiset(s) == multiset(shuffled)
    ensures Present(s, k.0, k.1) ==> Present(shuffled, k.0, k.1)
  {
    if Present(s, k.0, k.1) {
      var i :| 0 <= i < |s| && Key(s[i]) == (k.0, k.1);
      assert s[i] in multiset(shuffled);
      var j :| 0 <= j < |shuffled| && shuffled[j] == s[i];
    }
  }

  lemma ShuffleNumbers(s: seq<Persisted>, shuffled: seq<Persisted>)
    requires multiset(s) == multiset(shuffled)
    ensures Numbers(s) == Numbers(shuffled)
  {
    forall q ensures q in Numbers(s) <==> q in Numbers(shuffled) {
      NumbersOf(s, q);
      NumbersOf(shuffled, q);
      SameNumber(s, shuffled, q);
      SameNumber(shuffled, s, q);
    }
  }

  lemma SameNumber(s: seq<Persisted>, shuffled: seq<Persisted>, q: int)
    requires multiset(s) == multiset(shuffled)
    ensures HasNumber(s, q) ==> HasNumber(shuffled, q)
  {
    if HasNumber(s, q) {
      var i :| 0 <= i < |s| && s[i].sequence == q;
      assert s[i] in multiset(shuffled);
      var j :| 0 <= j < |shuffled| && shuffled[j] == s[i];
    }
  }
}
