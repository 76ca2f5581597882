/** Exact cosine candidates (ai-service/rag_service/core.py, valid_vector and rank_candidates), over exact reals. */
module RagRanking {
  import opened Wrappers
  import opened RagChunks

  type Vector = seq<real>

  // Vectors

  function Dot(a: Vector, b: Vector): real
    requires |a| == |b|
  {
    if a == [] then 0.0 else a[0] * b[0] + Dot(a[1..], b[1..])
  }

  /** math.hypot: the non-negative root of the sum of squares. */
  type Hypot = Vector -> real

  ghost predicate IsHypot(hypot: Hypot) {
    forall v: Vector :: hypot(v) >= 0.0 && hypot(v) * hypot(v) == Dot(v, v)
  }

  function Scaled(v: Vector, n: real): (r: Vector)
    requires n != 0.0
    ensures |r| == |v|
  {
    seq(|v|, i requires 0 <= i < |v| => v[i] / n)
  }

  datatype Profile = Profile(id: string, dimensions: int, relevanceFloor: Option<real>)

  predicate ValidProfile(p: Profile) {
    p.id != "" && p.dimensions > 0 && p.relevanceFloor.Some? && -1.0 <= p.relevanceFloor.value <= 1.0
  }

  /** valid_vector: the vector scaled to length 1, unless it has the wrong length or is zero. */
  function ValidVector(hypot: Hypot, v: Vector, dimensions: int): Option<Vector> {
    if |v| != dimensions || hypot(v) == 0.0 then None else Some(Scaled(v, hypot(v)))
  }

  lemma {:induction false} DotScales(v: Vector, w: Vector, n: real)
    requires |v| == |w| && n != 0.0
    ensures Dot(Scaled(v, n), w) == Dot(v, w) / n
  {
    if v != [] {
      DotScales(v[1..], w[1..], n);
      assert Scaled(v, n)[1..] == Scaled(v[1..], n);
    }
  }

  lemma {:induction false} DotCommutes(v: Vector, w: Vector)
    requires |v| == |w|
    ensures Dot(v, w) == Dot(w, v)
  {
    if v != [] { DotCommutes(v[1..], w[1..]); }
  }

  lemma UnitLength(hypot: Hypot, v: Vector, n: real)
    requires n != 0.0 && n * n == Dot(v, v)
    ensures Dot(Scaled(v, n), Scaled(v, n)) == 1.0
  {
    DotScales(v, Scaled(v, n), n);
    DotCommutes(v, Scaled(v, n));
    DotScales(v, v, n);
    Cancels(Dot(v, v), n);
  }

  lemma Cancels(x: real, n: real)
    requires n != 0.0 && x == n * n
    ensures x / n / n == 1.0
  {
    assert x / n == n;
  }

  function Sum(v: Vector, w: Vector, s: real): (r: Vector)
    requires |v| == |w|
    ensures |r| == |v|
  {
    seq(|v|, i requires 0 <= i < |v| => v[i] + s * w[i])
  }

  lemma SumTail(v: Vector, w: Vector, s: real)
    requires |v| == |w| && v != []
    ensures Sum(v, w, s)[1..] == Sum(v[1..], w[1..], s)
  {
    forall i | 0 <= i < |v| - 1 ensures Sum(v, w, s)[1..][i] == Sum(v[1..], w[1..], s)[i] {
      assert w[1..][i] == w[i + 1] && v[1..][i] == v[i + 1];
    }
  }

  lemma {:induction false} SquareOfSum(v: Vector, w: Vector, s: real)
    requires |v| == |w| && s * s == 1.0
    ensures Dot(Sum(v, w, s), Sum(v, w, s)) == Dot(v, v) + 2.0 * s * Dot(v, w) + Dot(w, w)
    ensures Dot(Sum(v, w, s), Sum(v, w, s)) >= 0.0
  {
    if v != [] {
      var x, y := v[0], w[0];
      SquareOfSum(v[1..], w[1..], s);
      SumTail(v, w, s);
      var z := x + s * y;
      assert z * z == x * x + 2.0 * s * (x * y) + s * s * (y * y);
      assert z * z >= 0.0;
    }
  }

  /** Cauchy-Schwarz for the normalized vectors: their dot product lies in [-1, 1], whatever their dimension. */
  lemma UnitDot(v: Vector, w: Vector)
    requires |v| == |w| && Dot(v, v) == 1.0 && Dot(w, w) == 1.0
    ensures -1.0 <= Dot(v, w) <= 1.0
  {
    SquareOfSum(v, w, 1.0);
    SquareOfSum(v, w, -1.0);
  }

  /** The clamp around the score. */
  function Clamped(x: real): real { if x < -1.0 then -1.0 else if x > 1.0 then 1.0 else x }

  function Score(query: Vector, v: Vector): real
    requires |query| == |v|
  {
    Clamped(Dot(query, v))
  }

  /** The clamp never changes a score. */
  lemma ClampIsIdle(hypot: Hypot, q: Vector, v: Vector, dimensions: int)
    requires IsHypot(hypot) && ValidVector(hypot, q, dimensions).Some? && ValidVector(hypot, v, dimensions).Some?
    ensures var a, b := ValidVector(hypot, q, dimensions).value, ValidVector(hypot, v, dimensions).value;
            Score(a, b) == Dot(a, b)
  {
    UnitLength(hypot, q, hypot(q));
    UnitLength(hypot, v, hypot(v));
    UnitDot(ValidVector(hypot, q, dimensions).value, ValidVector(hypot, v, dimensions).value);
  }

  // Candidates

  /** A joined row of the search: a document, one of its stored chunks, and its embedding. */
  datatype Row = Row(doc: Document, chunk: Chunk, embedding: Vector)

  /** A search under way: its scope and profile, and the normalized query. */
  datatype Search = Search(tenant: string, store: string, profile: Profile, query: Vector, h: Hashing, hypot: Hypot)

  predicate Ready(q: Search) { ValidProfile(q.profile) && |q.query| == q.profile.dimensions }

  datatype Evidence = Evidence(score: real, doc: Document, chunk: Chunk)

  predicate InScope(q: Search, r: Row) {
    && r.doc.tenant == q.tenant && r.doc.store == q.store && r.doc.active && r.doc.approved
    && !r.doc.kind.Faq? && r.chunk.profile == q.profile.id
  }

  predicate IsChunkOf(h: Hashing, d: Document, profile: string, c: Chunk) {
    0 <= c.ordinal < SliceCount(d.content) && c == ChunkAt(h, d, profile, c.ordinal)
  }

  /** What is wrong with an in-scope row by itself. */
  function Fault(q: Search, r: Row): Option<RetrievalError> {
    if !Chunkable(q.h, r.doc) then Some(VersionConflict)
    else if !IsChunkOf(q.h, r.doc, q.profile.id, r.chunk) then Some(Unavailable)
    else if ValidVector(q.hypot, r.embedding, q.profile.dimensions).None? then Some(Unavailable)
    else None
  }

  function EvidenceOf(q: Search, r: Row): Evidence
    requires Ready(q) && Fault(q, r).None?
  {
    Evidence(Score(q.query, ValidVector(q.hypot, r.embedding, q.profile.dimensions).value), r.doc, r.chunk)
  }

  predicate Relevant(q: Search, e: Evidence)
    requires ValidProfile(q.profile)
  {
    e.score >= q.profile.relevanceFloor.value
  }

  /** The active version of each document seen so far, and the relevant evidence in row order. */
  datatype Scanned = Scanned(versions: map<string, string>, evidence: seq<Evidence>)

  function ScanRow(q: Search, st: Scanned, r: Row): Result<Scanned, RetrievalError>
    requires Ready(q)
  {
    if !InScope(q, r) then Ok(st)
    else if r.doc.id in st.versions && st.versions[r.doc.id] != r.doc.version then Err(Unavailable)
    else
      var fault := Fault(q, r);
      if fault.Some? then Err(fault.value)
      else
        var e := EvidenceOf(q, r);
        Ok(Scanned(st.versions[r.doc.id := r.doc.version], if Relevant(q, e) then st.evidence + [e] else st.evidence))
  }

  function Scan(q: Search, rows: seq<Row>): Result<Scanned, RetrievalError>
    requires Ready(q)
  {
    if rows == [] then Ok(Scanned(map[], []))
    else
      var before := Scan(q, rows[..|rows| - 1]);
      if before.Err? then before else ScanRow(q, before.value, rows[|rows| - 1])
  }

  // The order of candidates

  /** (-score, chunk id) */
  predicate Precedes(a: Evidence, b: Evidence) {
    a.score > b.score || (a.score == b.score && Less(a.chunk.id, b.chunk.id))
  }

  /** (-score, document id, chunk id) */
  predicate Before(a: Evidence, b: Evidence) {
    a.score > b.score
    || (a.score == b.score && (Less(a.doc.id, b.doc.id) || (a.doc.id == b.doc.id && Less(a.chunk.id, b.chunk.id))))
  }

  lemma PrecedesTransitive(a: Evidence, b: Evidence, c: Evidence)
    requires Precedes(a, b) && Precedes(b, c)
    ensures Precedes(a, c)
  {
    if a.score == b.score == c.score { LessIsTransitive(a.chunk.id, b.chunk.id, c.chunk.id); }
  }

  lemma PrecedesStrict(a: Evidence)
    ensures !Precedes(a, a) && !Before(a, a)
  {
    LessIsStrict(a.chunk.id);
    LessIsStrict(a.doc.id);
  }

  lemma BeforeTransitive(a: Evidence, b: Evidence, c: Evidence)
    requires Before(a, b) && Before(b, c)
    ensures Before(a, c)
  {
    if a.score == b.score == c.score {
      if Less(a.doc.id, b.doc.id) && Less(b.doc.id, c.doc.id) { LessIsTransitive(a.doc.id, b.doc.id, c.doc.id); }
      if Less(a.chunk.id, b.chunk.id) && Less(b.chunk.id, c.chunk.id) {
        LessIsTransitive(a.chunk.id, b.chunk.id, c.chunk.id);
      }
    }
  }

  lemma BeforeTotal(a: Evidence, b: Evidence)
    requires a.doc.id != b.doc.id
    ensures Before(a, b) || Before(b, a)
  {
    LessIsTotal(a.doc.id, b.doc.id);
  }

  // The specification: the best evidence of each document, the first three

  ghost predicate IsBest(e: Evidence, all: seq<Evidence>) {
    e in all && forall x :: x in all && x.doc.id == e.doc.id ==> !Precedes(x, e)
  }

  predicate Ordered(s: seq<Evidence>) { forall i, j :: 0 <= i < j < |s| ==> Before(s[i], s[j]) }

  ghost predicate TopThree(out: seq<Evidence>, all: seq<Evidence>) {
    && |out| <= 3 && Ordered(out)
    && (forall i :: 0 <= i < |out| ==> IsBest(out[i], all))
    && (forall e :: IsBest(e, all) ==> e in out || (|out| == 3 && Before(out[2], e)))
  }

  // The dictionary of best evidence

  type Key = (string, string)

  function KeyOf(e: Evidence): Key { (e.doc.id, e.doc.version) }

  ghost predicate Holds(best: map<Key, Evidence>, all: seq<Evidence>) {
    && (forall k :: k in best
         ==> best[k] in all && KeyOf(best[k]) == k
             && forall x :: x in all && KeyOf(x) == k ==> !Precedes(x, best[k]))
    && (forall x :: x in all ==> KeyOf(x) in best)
  }

  /** The update of the loop body. */
  function Improved(best: map<Key, Evidence>, e: Evidence): map<Key, Evidence> {
    if KeyOf(e) !in best || Precedes(e, best[KeyOf(e)]) then best[KeyOf(e) := e] else best
  }

  lemma ImprovedHolds(best: map<Key, Evidence>, all: seq<Evidence>, e: Evidence)
    requires Holds(best, all)
    ensures Holds(Improved(best, e), all + [e])
  {
    var n := Improved(best, e);
    PrecedesStrict(e);
    forall k | k in n
      ensures n[k] in all + [e] && KeyOf(n[k]) == k
        && forall x :: x in all + [e] && KeyOf(x) == k ==> !Precedes(x, n[k])
    {
      forall x | x in all + [e] && KeyOf(x) == k ensures !Precedes(x, n[k]) {
        if x in all && n[k] == e && k in best && Precedes(x, e) && Precedes(e, best[k]) {
          PrecedesTransitive(x, e, best[k]);
        }
      }
    }
  }

  lemma ScanStep(q: Search, rows: seq<Row>, n: nat)
    requires Ready(q) && n < |rows|
    ensures Scan(q, rows[..n + 1]) == if Scan(q, rows[..n]).Err? then
      Scan(q, rows[..n]) else ScanRow(q, Scan(q, rows[..n]).value, rows[n])
  {
    assert rows[..n + 1][..n] == rows[..n];
  }

  lemma {:induction false} ScanStops(q: Search, rows: seq<Row>, n: nat)
    requires Ready(q) && n <= |rows| && Scan(q, rows[..n]).Err?
    ensures Scan(q, rows) == Scan(q, rows[..n])
  {
    if n < |rows| {
      assert rows[..|rows| - 1][..n] == rows[..n];
      ScanStops(q, rows[..|rows| - 1], n);
    } else {
      assert rows[..n] == rows;
    }
  }

  /** The loop of rank_candidates. */
  method ScanRows(q: Search, rows: seq<Row>) returns (r: Result<map<Key, Evidence>, RetrievalError>)
    requires Ready(q)
    ensures r.Err? ==> Scan(q, rows) == Err(r.error)
    ensures r.Ok? ==> Scan(q, rows).Ok? && Holds(r.value, Scan(q, rows).value.evidence)
  {
    var best: map<Key, Evidence> := map[];
    var activeVersions: map<string, string> := map[];
    ghost var evidence: seq<Evidence> := [];
    for n := 0 to |rows|
      invariant Scan(q, rows[..n]) == Ok(Scanned(activeVersions, evidence)) && Holds(best, evidence)
    {
      ScanStep(q, rows, n);
      var row := rows[n];
      if InScope(q, row) {
        var e := CheckRow(q, row, activeVersions);
        if e.Err? {
          ScanStops(q, rows, n + 1);
          return Err(e.error);
        }
        activeVersions := activeVersions[row.doc.id := row.doc.version];
        if Relevant(q, e.value) {
          ImprovedHolds(best, evidence, e.value);
          evidence := evidence + [e.value];
          var key := (row.doc.id, row.doc.version);
          if key !in best || Precedes(e.value, best[key]) { best := best[key := e.value]; }
        }
      }
    }
    assert rows[..|rows|] == rows;
    r := Ok(best);
  }

  method CheckRow(q: Search, row: Row, activeVersions: map<string, string>)
    returns (e: Result<Evidence, RetrievalError>)
    requires Ready(q)
    ensures e == if row.doc.id in activeVersions && activeVersions[row.doc.id] != row.doc.version then Err(Unavailable)
                 else if Fault(q, row).Some? then Err(Fault(q, row).value) else Ok(EvidenceOf(q, row))
  {
    if row.doc.id in activeVersions && activeVersions[row.doc.id] != row.doc.version {
      return Err(Unavailable);
    }
    var expected := ChunksFor(q.h, row.doc, q.profile.id);
    if expected.Err? {
      return Err(expected.error);
    }
    var ordinal := row.chunk.ordinal;
    if !(0 <= ordinal < |expected.value|) || row.chunk != expected.value[ordinal] {
      return Err(Unavailable);
    }
    var normalized := ValidVector(q.hypot, row.embedding, q.profile.dimensions);
    if normalized.None? {
      return Err(Unavailable);
    }
    e := Ok(Evidence(Score(q.query, normalized.value), row.doc, row.chunk));
  }

  // What the scan accepts, whatever the order of the rows

  predicate Fine(q: Search, r: Row) { InScope(q, r) ==> Fault(q, r).None? }

  predicate Clashes(q: Search, r: Row, s: Row) {
    InScope(q, r) && InScope(q, s) && r.doc.id == s.doc.id && r.doc.version != s.doc.version
  }

  predicate RowsFine(q: Search, rows: seq<Row>) {
    (forall r :: r in rows ==> Fine(q, r)) && (forall r, s :: r in rows && s in rows ==> !Clashes(q, r, s))
  }

  /** The versions map says which version each in-scope document had. */
  ghost predicate Versions(q: Search, rows: seq<Row>, versions: map<string, string>) {
    && (forall r :: r in rows && InScope(q, r) ==> r.doc.id in versions && versions[r.doc.id] == r.doc.version)
    && (forall id :: id in versions ==> exists r :: r in rows && InScope(q, r) && r.doc.id == id)
  }

  lemma VersionsStep(q: Search, rows: seq<Row>, st: Scanned, r: Row)
    requires Ready(q) && Versions(q, rows, st.versions) && RowsFine(q, rows)
    ensures ScanRow(q, st, r).Ok? <==> RowsFine(q, rows + [r])
    ensures ScanRow(q, st, r).Ok? ==> Versions(q, rows + [r], ScanRow(q, st, r).value.versions)
  {
    if InScope(q, r) && r.doc.id in st.versions {
      var s :| s in rows && InScope(q, s) && s.doc.id == r.doc.id;
      if st.versions[r.doc.id] != r.doc.version { assert Clashes(q, s, r) && s in rows + [r]; }
    }
    if InScope(q, r) && Fault(q, r).Some? { assert r in rows + [r] && !Fine(q, r); }
    if ScanRow(q, st, r).Ok? { VersionsGrow(q, rows, st, r); }
  }

  lemma VersionsGrow(q: Search, rows: seq<Row>, st: Scanned, r: Row)
    requires Ready(q) && Versions(q, rows, st.versions) && RowsFine(q, rows) && ScanRow(q, st, r).Ok?
    ensures RowsFine(q, rows + [r]) && Versions(q, rows + [r], ScanRow(q, st, r).value.versions)
  {
    var versions := ScanRow(q, st, r).value.versions;
    forall id | id in versions ensures exists s :: s in rows + [r] && InScope(q, s) && s.doc.id == id {
      if id in st.versions {
        var s :| s in rows && InScope(q, s) && s.doc.id == id;
        assert s in rows + [r];
      } else {
        assert r in rows + [r];
      }
    }
  }

  ghost predicate ScanIsExact(q: Search, rows: seq<Row>, scan: Result<Scanned, RetrievalError>) {
    (scan.Ok? <==> RowsFine(q, rows)) && (scan.Ok? ==> Versions(q, rows, scan.value.versions))
  }

  lemma ExactStep(q: Search, rows: seq<Row>, scan: Result<Scanned, RetrievalError>, r: Row)
    requires Ready(q) && ScanIsExact(q, rows, scan)
    ensures ScanIsExact(q, rows + [r], if scan.Err? then scan else ScanRow(q, scan.value, r))
  {
    if scan.Ok? {
      VersionsStep(q, rows, scan.value, r);
    } else {
      FineParts(q, rows, r);
    }
  }

  lemma {:induction false} ScanExact(q: Search, rows: seq<Row>, n: nat)
    requires Ready(q) && n <= |rows|
    ensures ScanIsExact(q, rows[..n], Scan(q, rows[..n]))
  {
    if n > 0 {
      ScanExact(q, rows, n - 1);
      ExactStep(q, rows[..n - 1], Scan(q, rows[..n - 1]), rows[n - 1]);
      ScanStep(q, rows, n - 1);
      TakeNext(rows, n - 1);
    }
  }

  /** The scan succeeds exactly when every in-scope row is fine and no document shows two versions. */
  lemma ScanOk(q: Search, rows: seq<Row>)
    requires Ready(q)
    ensures Scan(q, rows).Ok? <==> RowsFine(q, rows)
    ensures Scan(q, rows).Ok? ==> Versions(q, rows, Scan(q, rows).value.versions)
  {
    ScanExact(q, rows, |rows|);
    TakeAll(rows);
  }

  lemma FineParts(q: Search, rows: seq<Row>, r: Row)
    ensures RowsFine(q, rows + [r]) ==> RowsFine(q, rows)
  {
    assert forall s :: s in rows ==> s in rows + [r];
  }

  /** A row that yields this evidence. */
  predicate Yields(q: Search, r: Row, e: Evidence)
    requires Ready(q)
  {
    InScope(q, r) && Fault(q, r).None? && e == EvidenceOf(q, r) && Relevant(q, e)
  }

  ghost predicate Yielded(q: Search, rows: seq<Row>, e: Evidence)
    requires Ready(q)
  {
    exists r :: r in rows && Yields(q, r, e)
  }

  lemma YieldedStep(q: Search, rows: seq<Row>, r: Row, e: Evidence)
    requires Ready(q)
    ensures Yielded(q, rows + [r], e) <==> Yielded(q, rows, e) || Yields(q, r, e)
  {
    if Yielded(q, rows, e) {
      var s :| s in rows && Yields(q, s, e);
      assert s in rows + [r];
    }
    assert r in rows + [r];
  }

  lemma ScannedStep(q: Search, st: Scanned, r: Row, e: Evidence)
    requires Ready(q) && ScanRow(q, st, r).Ok?
    ensures e in ScanRow(q, st, r).value.evidence <==> e in st.evidence || Yields(q, r, e)
  {
  }

  lemma {:induction false} EvidenceIs(q: Search, rows: seq<Row>, e: Evidence)
    requires Ready(q) && Scan(q, rows).Ok?
    ensures e in Scan(q, rows).value.evidence <==> Yielded(q, rows, e)
  {
    if rows != [] {
      var init, r := rows[..|rows| - 1], rows[|rows| - 1];
      EvidenceIs(q, init, e);
      assert rows == init + [r];
      YieldedStep(q, init, r, e);
      ScannedStep(q, Scan(q, init).value, r, e);
    }
  }

  /** Rows of one document version share one document, as the join makes them. */
  predicate Shared(rows: seq<Row>) {
    forall r, s :: r in rows && s in rows && Identity(r.doc) == Identity(s.doc) ==> r.doc == s.doc
  }

  /** Moreover the chunks of each document have ids of their own. */
  predicate Joined(h: Hashing, profile: string, rows: seq<Row>) {
    Shared(rows) && forall r :: r in rows ==> DistinctIds(h, r.doc, profile)
  }

  function Identity(d: Document): (string, string, string, string) { (d.tenant, d.store, d.id, d.version) }

  predicate Coherent(all: seq<Evidence>) {
    forall x, y :: x in all && y in all && x.doc.id == y.doc.id
      ==> x.doc == y.doc && (x.chunk.id == y.chunk.id ==> x.chunk == y.chunk)
  }

  lemma YieldsCoherent(q: Search, r: Row, s: Row, x: Evidence, y: Evidence)
    requires Ready(q) && DistinctIds(q.h, r.doc, q.profile.id) && Yields(q, r, x) && Yields(q, s, y)
      && !Clashes(q, r, s)
    requires x.doc.id == y.doc.id
    requires Identity(r.doc) == Identity(s.doc) ==> r.doc == s.doc
    ensures x.doc == y.doc && (x.chunk.id == y.chunk.id ==> x.chunk == y.chunk)
  {
    if x.chunk.ordinal != y.chunk.ordinal { IdsDiffer(q.h, r.doc, q.profile.id, x.chunk.ordinal, y.chunk.ordinal); }
  }

  lemma CoherentPair(q: Search, rows: seq<Row>, x: Evidence, y: Evidence)
    requires Ready(q) && Joined(q.h, q.profile.id, rows) && RowsFine(q, rows) && Yielded(q, rows, x)
      && Yielded(q, rows, y)
    requires x.doc.id == y.doc.id
    ensures x.doc == y.doc && (x.chunk.id == y.chunk.id ==> x.chunk == y.chunk)
  {
    var r :| r in rows && Yields(q, r, x);
    var s :| s in rows && Yields(q, s, y);
    YieldsCoherent(q, r, s, x, y);
  }

  lemma YieldedCoherent(q: Search, rows: seq<Row>, all: seq<Evidence>)
    requires Ready(q) && Joined(q.h, q.profile.id, rows) && RowsFine(q, rows)
      && forall e :: e in all ==> Yielded(q, rows, e)
    ensures Coherent(all)
  {
    forall x, y | x in all && y in all && x.doc.id == y.doc.id
      ensures x.doc == y.doc && (x.chunk.id == y.chunk.id ==> x.chunk == y.chunk)
    {
      CoherentPair(q, rows, x, y);
    }
  }

  lemma EvidenceCoherent(q: Search, rows: seq<Row>)
    requires Ready(q) && Joined(q.h, q.profile.id, rows) && Scan(q, rows).Ok?
    ensures Coherent(Scan(q, rows).value.evidence)
  {
    var all := Scan(q, rows).value.evidence;
    ScanOk(q, rows);
    forall e | e in all ensures Yielded(q, rows, e) {
      EvidenceIs(q, rows, e);
    }
    YieldedCoherent(q, rows, all);
  }

  // Sorting and cutting

  function Insert(e: Evidence, s: seq<Evidence>): seq<Evidence> {
    if s == [] || Before(e, s[0]) then [e] + s else [s[0]] + Insert(e, s[1..])
  }

  lemma {:induction false} InsertOrders(e: Evidence, s: seq<Evidence>)
    requires Ordered(s) && forall x :: x in s ==> x.doc.id != e.doc.id
    ensures Ordered(Insert(e, s))
    ensures forall x :: x in Insert(e, s) <==> x == e || x in s
  {
    if s == [] {
    } else if Before(e, s[0]) {
      forall j | 0 < j < |s| ensures Before(e, s[j]) {
        BeforeTransitive(e, s[0], s[j]);
      }
    } else {
      InsertOrders(e, s[1..]);
      BeforeTotal(e, s[0]);
      assert s == [s[0]] + s[1..];
      var rest := Insert(e, s[1..]);
      forall k | 0 <= k < |rest| ensures Before(s[0], rest[k]) {
        if rest[k] != e {
          assert rest[k] in s[1..];
          var j :| 1 <= j < |s| && s[j] == rest[k];
        }
      }
    }
  }

  /** Different documents have different entries. */
  ghost predicate OnePerDocument(best: map<Key, Evidence>) {
    forall k, l :: k in best && l in best && best[k].doc.id == best[l].doc.id ==> k == l
  }

  lemma BestPerDocument(best: map<Key, Evidence>, all: seq<Evidence>)
    requires Holds(best, all) && Coherent(all)
    ensures OnePerDocument(best)
  {
    forall k, l | k in best && l in best && best[k].doc.id == best[l].doc.id ensures k == l {
      assert best[k] in all && best[l] in all;
    }
  }

  /** sorted(best.values(), key=...)[:3] */
  method SortedTop(best: map<Key, Evidence>) returns (out: seq<Evidence>, ghost sorted: seq<Evidence>)
    requires OnePerDocument(best)
    ensures Ordered(sorted) && (forall e :: e in sorted <==> e in best.Values)
    ensures out == if |sorted| <= 3 then sorted else sorted[..3]
  {
    var values: seq<Evidence> := [];
    var rest := best.Keys;
    while rest != {}
      invariant rest <= best.Keys && Ordered(values)
      invariant forall e :: e in values <==> exists k :: k in best && k !in rest && best[k] == e
      decreases |rest|
    {
      var k :| k in rest;
      InsertOrders(best[k], values);
      values := Insert(best[k], values);
      rest := rest - {k};
    }
    sorted := values;
    out := if |values| <= 3 then values else values[..3];
  }

  lemma BestIsStored(best: map<Key, Evidence>, all: seq<Evidence>, e: Evidence)
    requires Holds(best, all) && Coherent(all)
    ensures IsBest(e, all) <==> e in best.Values
  {
    if IsBest(e, all) {
      var b := best[KeyOf(e)];
      assert !Precedes(e, b) && !Precedes(b, e);
      LessIsTotal(e.chunk.id, b.chunk.id);
      assert b.doc == e.doc && b.chunk == e.chunk;
    }
    if e in best.Values {
      var k :| k in best && best[k] == e;
      forall x | x in all && x.doc.id == e.doc.id ensures !Precedes(x, e) {
        assert KeyOf(x) == k;
      }
    }
  }

  lemma CutIsTopThree(best: map<Key, Evidence>, all: seq<Evidence>, sorted: seq<Evidence>, out: seq<Evidence>)
    requires Holds(best, all) && Coherent(all) && Ordered(sorted) && (forall e :: e in sorted <==> e in best.Values)
    requires out == if |sorted| <= 3 then sorted else sorted[..3]
    ensures TopThree(out, all)
  {
    forall i | 0 <= i < |out| ensures IsBest(out[i], all) {
      assert out[i] in sorted;
      BestIsStored(best, all, out[i]);
    }
    forall e | IsBest(e, all) ensures e in out || (|out| == 3 && Before(out[2], e)) {
      BestIsStored(best, all, e);
      var j :| 0 <= j < |sorted| && sorted[j] == e;
      if j < |out| { assert out[j] == e; }
    }
  }

  // What the three are, by scores and ids

  /** x scores below e, or the same with a later chunk id, or is the same chunk. */
  predicate Behind(x: Evidence, e: Evidence) {
    x.score < e.score
    || (x.score == e.score && (x.chunk.id == e.chunk.id || Less(e.chunk.id, x.chunk.id)))
  }

  /** The scores never rise, and equal ones follow in the order of document ids; the documents are different ones. */
  predicate Descending(out: seq<Evidence>) {
    forall i, j :: 0 <= i < j < |out| ==>
      && out[i].doc.id != out[j].doc.id && out[i].score >= out[j].score
      && (out[i].score == out[j].score ==> Less(out[i].doc.id, out[j].doc.id))
  }

  /** e, of another document than those returned, is not better than the third of three. */
  predicate CutOff(out: seq<Evidence>, e: Evidence) {
    && |out| == 3
    && (e.score < out[2].score || (e.score == out[2].score && Less(out[2].doc.id, e.doc.id)))
  }

  /** The three best documents by their best relevant chunk: what is returned comes from a row, nothing relevant of its
  document is ahead of it, and no relevant chunk of any other document is ahead of the third. */
  ghost predicate BestThree(q: Search, rows: seq<Row>, out: seq<Evidence>)
    requires Ready(q)
  {
    && |out| <= 3 && Descending(out)
    && (forall i :: 0 <= i < |out| ==> Yielded(q, rows, out[i]))
    && (forall x, i :: Yielded(q, rows, x) && 0 <= i < |out| && x.doc.id == out[i].doc.id ==> Behind(x, out[i]))
    && (forall x :: Yielded(q, rows, x) ==> (exists i :: 0 <= i < |out| && out[i].doc.id == x.doc.id) || CutOff(out, x))
  }

  lemma NotPrecedingIsBehind(x: Evidence, e: Evidence)
    requires !Precedes(x, e)
    ensures Behind(x, e)
  {
    LessIsTotal(x.chunk.id, e.chunk.id);
  }

  /** The best evidence of the document of x, among all. */
  lemma {:induction false} BestOfDocument(all: seq<Evidence>, x: Evidence) returns (e: Evidence)
    requires x in all
    ensures e.doc.id == x.doc.id && IsBest(e, all)
  {
    var init, last := all[..|all| - 1], all[|all| - 1];
    TakeNext(all, |all| - 1);
    TakeAll(all);
    PrecedesStrict(last);
    if x in init {
      var b := BestOfDocument(init, x);
      e := if last.doc.id == x.doc.id && Precedes(last, b) then last else b;
      forall y | y in all && y.doc.id == e.doc.id ensures !Precedes(y, e) {
        if e == last && y in init && Precedes(y, last) { PrecedesTransitive(y, last, b); }
      }
    } else if exists y :: y in init && y.doc.id == x.doc.id {
      var y :| y in init && y.doc.id == x.doc.id;
      var b := BestOfDocument(init, y);
      e := if Precedes(last, b) then last else b;
      forall y | y in all && y.doc.id == e.doc.id ensures !Precedes(y, e) {
        if e == last && y in init && Precedes(y, last) { PrecedesTransitive(y, last, b); }
      }
    } else {
      e := last;
    }
  }

  lemma OrderedDescends(out: seq<Evidence>, all: seq<Evidence>)
    requires TopThree(out, all)
    ensures Descending(out)
  {
    forall i, j | 0 <= i < j < |out| ensures out[i].doc.id != out[j].doc.id && Before(out[i], out[j]) {
      TopThreeAreDistinct(out, all, i, j);
    }
  }

  lemma TopThreeIsBest(q: Search, rows: seq<Row>, out: seq<Evidence>, all: seq<Evidence>)
    requires Ready(q) && TopThree(out, all) && forall e :: e in all <==> Yielded(q, rows, e)
    ensures BestThree(q, rows, out)
  {
    OrderedDescends(out, all);
    forall x, i | Yielded(q, rows, x) && 0 <= i < |out| && x.doc.id == out[i].doc.id ensures Behind(x, out[i]) {
      NotPrecedingIsBehind(x, out[i]);
    }
    forall x | Yielded(q, rows, x)
      ensures (exists i :: 0 <= i < |out| && out[i].doc.id == x.doc.id) || CutOff(out, x)
    {
      var e := BestOfDocument(all, x);
      NotPrecedingIsBehind(x, e);
      if e !in out {
        var third := out[2];
        assert Before(third, e);
        if third.doc.id != e.doc.id { LessIsStrict(third.doc.id); }
      }
    }
  }

  // The result

  datatype Candidate = Candidate(evidence: Evidence, rank: nat)

  function Ranked(out: seq<Evidence>): (r: seq<Candidate>)
    ensures |r| == |out|
  {
    seq(|out|, i requires 0 <= i < |out| => Candidate(out[i], i + 1))
  }

  function EvidenceIn(candidates: seq<Candidate>): (r: seq<Evidence>)
    ensures |r| == |candidates|
  {
    seq(|candidates|, i requires 0 <= i < |candidates| => candidates[i].evidence)
  }

  lemma TopThreeIsBestOfRows(q: Search, rows: seq<Row>, out: seq<Evidence>)
    requires Ready(q) && Scan(q, rows).Ok? && TopThree(out, Scan(q, rows).value.evidence)
    ensures BestThree(q, rows, out)
  {
    var all := Scan(q, rows).value.evidence;
    forall e ensures e in all <==> Yielded(q, rows, e) {
      EvidenceIs(q, rows, e);
    }
    TopThreeIsBest(q, rows, out, all);
  }

  /** What a row yields: evidence only if its document is an active, approved one of the scope and no FAQ entry, and its
  chunk the canonical one for the profile; with the plain cosine as its score, and not below the floor. */
  lemma YieldsExactly(q: Search, vector: Vector, r: Row, e: Evidence)
    requires Ready(q) && IsHypot(q.hypot) && ValidVector(q.hypot, vector, q.profile.dimensions) == Some(q.query)
    ensures Yields(q, r, e) <==>
              && r.doc.tenant == q.tenant && r.doc.store == q.store && r.doc.approved && r.doc.active
              && r.doc.kind in {Policy, Sop, Reference} && r.chunk.profile == q.profile.id
              && 1 <= |r.doc.content| <= 16000 && q.h.text(r.doc.content) == r.doc.contentSha256
              && 0 <= r.chunk.ordinal < SliceCount(r.doc.content)
              && r.chunk == ChunkAt(q.h, r.doc, q.profile.id, r.chunk.ordinal)
              && |r.embedding| == q.profile.dimensions && q.hypot(r.embedding) != 0.0
              && e.doc == r.doc && e.chunk == r.chunk
              && e.score == Dot(q.query, Scaled(r.embedding, q.hypot(r.embedding)))
              && e.score >= q.profile.relevanceFloor.value
  {
    if ValidVector(q.hypot, r.embedding, q.profile.dimensions).Some? {
      ClampIsIdle(q.hypot, vector, r.embedding, q.profile.dimensions);
    }
  }

  /** The search with its normalized query. */
  function SearchOf(tenant: string, store: string, profile: Profile, vector: Vector, h: Hashing, hypot: Hypot): Search {
    var query := ValidVector(hypot, vector, profile.dimensions);
    Search(tenant, store, profile, if query.Some? then query.value else vector, h, hypot)
  }

  predicate Asked(profile: Profile, vector: Vector, hypot: Hypot) {
    ValidProfile(profile) && ValidVector(hypot, vector, profile.dimensions).Some?
  }

  /** rank_candidates: refused exactly if the profile, the query or a row is not valid; otherwise the three best
  documents. */
  method RankCandidates(rows: seq<Row>, tenant: string, store: string, profile: Profile, vector: Vector, h: Hashing,
      hypot: Hypot)
    returns (r: Result<seq<Candidate>, RetrievalError>)
    requires Joined(h, profile.id, rows)
    ensures r.Ok?
            <==> && profile.id != "" && profile.dimensions > 0 && profile.relevanceFloor.Some?
                 && -1.0 <= profile.relevanceFloor.value <= 1.0
                 && |vector| == profile.dimensions && hypot(vector) != 0.0
                 && RowsFine(SearchOf(tenant, store, profile, vector, h, hypot), rows)
    ensures r.Ok? ==> var scan := Scan(SearchOf(tenant, store, profile, vector, h, hypot), rows);
                      scan.Ok? && exists out :: r.value == Ranked(out) && TopThree(out, scan.value.evidence)
    ensures r.Ok? ==> && (forall i :: 0 <= i < |r.value| ==> r.value[i].rank == i + 1)
                      && BestThree(SearchOf(tenant, store, profile, vector, h, hypot), rows, EvidenceIn(r.value))
    ensures r.Err? ==> if Asked(profile, vector, hypot) then
      Scan(SearchOf(tenant, store, profile, vector, h, hypot), rows) == Err(r.error)
                       else r.error == Unavailable
  {
    if !ValidProfile(profile) {
      return Err(Unavailable);
    }
    var query := ValidVector(hypot, vector, profile.dimensions);
    if query.None? {
      return Err(Unavailable);
    }
    var search := Search(tenant, store, profile, query.value, h, hypot);
    var best := ScanRows(search, rows);
    ScanOk(search, rows);
    if best.Err? {
      return Err(best.error);
    }
    EvidenceCoherent(search, rows);
    BestPerDocument(best.value, Scan(search, rows).value.evidence);
    var out, sorted := SortedTop(best.value);
    CutIsTopThree(best.value, Scan(search, rows).value.evidence, sorted, out);
    r := Ok(Ranked(out));
    TopThreeIsBestOfRows(search, rows, out);
    assert EvidenceIn(Ranked(out)) == out;
  }

  // There is only one such result

  lemma {:induction false} NotAfterThird(a: seq<Evidence>, i: nat, e: Evidence)
    requires Ordered(a) && i < |a| == 3 && Before(a[2], e)
    ensures Before(a[i], e)
  {
    if i < 2 { BeforeTransitive(a[i], a[2], e); }
  }

  /** The next best after an equal prefix is the same on both sides. */
  lemma NextAgrees(a: seq<Evidence>, b: seq<Evidence>, all: seq<Evidence>, i: nat)
    requires TopThree(a, all) && TopThree(b, all) && i < |a| && i <= |b| && a[..i] == b[..i]
    ensures i < |b| && (a[i] == b[i] || Before(b[i], a[i]))
  {
    assert IsBest(a[i], all);
    if a[i] in b {
      var j :| 0 <= j < |b| && b[j] == a[i];
      if j < i {
        assert a[j] == b[j] by { assert a[..i][j] == b[..i][j]; }
        assert Before(a[j], a[i]);
        PrecedesStrict(a[i]);
      }
    } else {
      NotAfterThird(b, i, a[i]);
    }
  }

  lemma {:induction false} TopThreeIsUnique(a: seq<Evidence>, b: seq<Evidence>, all: seq<Evidence>, i: nat)
    requires TopThree(a, all) && TopThree(b, all) && i <= |a| && i <= |b| && a[..i] == b[..i]
    ensures a == b
    decreases |a| - i
  {
    if i < |a| {
      NextAgrees(a, b, all, i);
      NextAgrees(b, a, all, i);
      if Before(b[i], a[i]) && Before(a[i], b[i]) {
        BeforeTransitive(a[i], b[i], a[i]);
        PrecedesStrict(a[i]);
      }
      assert a[..i + 1] == a[..i] + [a[i]] && b[..i + 1] == b[..i] + [b[i]];
      TopThreeIsUnique(a, b, all, i + 1);
    } else if i < |b| {
      NextAgrees(b, a, all, i);
    } else {
      assert a == a[..i] && b == b[..i];
    }
  }

  lemma TopThreeOfSame(out: seq<Evidence>, a: seq<Evidence>, b: seq<Evidence>)
    requires TopThree(out, a) && forall e :: e in a <==> e in b
    ensures TopThree(out, b)
  {
    forall e ensures IsBest(e, a) <==> IsBest(e, b) {
    }
  }

  /** Success and result do not depend on the order of the rows, nor on repeated ones. */
  lemma RankIgnoresOrder(q: Search, rows: seq<Row>, shuffled: seq<Row>, a: seq<Evidence>, b: seq<Evidence>)
    requires Ready(q) && forall r :: r in rows <==> r in shuffled
    ensures Scan(q, rows).Ok? <==> Scan(q, shuffled).Ok?
    ensures Scan(q, rows).Ok? && TopThree(a, Scan(q, rows).value.evidence)
      && TopThree(b, Scan(q, shuffled).value.evidence)
      ==> a == b
  {
    ScanOk(q, rows);
    ScanOk(q, shuffled);
    if Scan(q, rows).Ok? && TopThree(a, Scan(q, rows).value.evidence) && TopThree(b, Scan(q, shuffled).value.evidence) {
      forall e ensures e in Scan(q, rows).value.evidence <==> e in Scan(q, shuffled).value.evidence {
        EvidenceIs(q, rows, e);
        EvidenceIs(q, shuffled, e);
      }
      TopThreeOfSame(a, Scan(q, rows).value.evidence, Scan(q, shuffled).value.evidence);
      TopThreeIsUnique(a, b, Scan(q, shuffled).value.evidence, 0);
    }
  }

  lemma TiedIsNotBefore(a: Evidence, b: Evidence)
    requires a.doc.id == b.doc.id && !Precedes(a, b) && !Precedes(b, a)
    ensures !Before(a, b)
  {
    LessIsTotal(a.chunk.id, b.chunk.id);
    LessIsStrict(a.doc.id);
    LessIsStrict(a.chunk.id);
  }

  /** The three are of three different documents. */
  lemma TopThreeAreDistinct(out: seq<Evidence>, all: seq<Evidence>, i: nat, j: nat)
    requires TopThree(out, all) && i < j < |out|
    ensures out[i].doc.id != out[j].doc.id
  {
    assert IsBest(out[i], all) && IsBest(out[j], all);
    if out[i].doc.id == out[j].doc.id { TiedIsNotBefore(out[i], out[j]); }
  }
}
