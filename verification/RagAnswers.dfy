/** What a ranking refuses and what a reconciliation accepts, read off the rows, the registry and the reply
(ai-service/rag_service/core.py, rank_candidates; src/retrieval/fastapi.ts, search). */
module RagAnswers {
  import opened Wrappers
  import opened RagChunks
  import R = RagRanking
  import opened RagReconcile

  // Refused rankings

  /** The row counts for the search. */
  predicate Counts(q: R.Search, r: R.Row) {
    && r.doc.tenant == q.tenant && r.doc.store == q.store && r.doc.approved && r.doc.active
    && r.doc.kind in {Policy, Sop, Reference} && r.chunk.profile == q.profile.id
  }

  /** The document's text has an allowed length and its own hash. */
  predicate TextSound(q: R.Search, r: R.Row) {
    1 <= |r.doc.content| <= 16000 && q.h.text(r.doc.content) == r.doc.contentSha256
  }

  predicate ChunkSound(q: R.Search, r: R.Row) {
    && 0 <= r.chunk.ordinal < SliceCount(r.doc.content)
    && r.chunk == ChunkAt(q.h, r.doc, q.profile.id, r.chunk.ordinal)
    && |r.embedding| == q.profile.dimensions && q.hypot(r.embedding) != 0.0
  }

  /** An earlier row shows the document in another version. */
  predicate Another(q: R.Search, rows: seq<R.Row>, n: nat)
    requires n < |rows|
  {
    exists i :: 0 <= i < n && Counts(q, rows[i]) && rows[i].doc.id == rows[n].doc.id
                && rows[i].doc.version != rows[n].doc.version
  }

  lemma CountsExactly(q: R.Search, r: R.Row)
    ensures R.InScope(q, r) <==> Counts(q, r)
  {
    assert r.doc.kind in {Policy, Sop, Reference} <==> r.doc.kind != Faq;
  }

  lemma FaultExactly(q: R.Search, r: R.Row)
    ensures R.Fault(q, r) == if !TextSound(q, r) then Some(VersionConflict)
                             else if !ChunkSound(q, r) then Some(Unavailable) else None
  {
  }

  lemma AnotherExactly(q: R.Search, rows: seq<R.Row>, n: nat, versions: map<string, string>)
    requires n < |rows| && R.Versions(q, rows[..n], versions)
    ensures Another(q, rows, n) <==> rows[n].doc.id in versions && versions[rows[n].doc.id] != rows[n].doc.version
  {
    var r := rows[n];
    if Another(q, rows, n) {
      var i :| 0 <= i < n && Counts(q, rows[i]) && rows[i].doc.id == r.doc.id && rows[i].doc.version != r.doc.version;
      CountsExactly(q, rows[i]);
      assert rows[..n][i] in rows[..n];
    }
    if r.doc.id in versions && versions[r.doc.id] != r.doc.version {
      var s :| s in rows[..n] && R.InScope(q, s) && s.doc.id == r.doc.id;
      var i :| 0 <= i < n && rows[..n][i] == s;
      CountsExactly(q, s);
      assert Counts(q, rows[i]) && rows[i].doc.id == r.doc.id && rows[i].doc.version != r.doc.version;
    }
  }

  /** The first row that stops the scan, and why. */
  predicate Stops(q: R.Search, rows: seq<R.Row>, n: nat, error: RetrievalError)
    requires n < |rows|
  {
    && Counts(q, rows[n])
    && error == (if Another(q, rows, n) || TextSound(q, rows[n]) then Unavailable else VersionConflict)
    && (Another(q, rows, n) || !TextSound(q, rows[n]) || !ChunkSound(q, rows[n]))
  }

  lemma StepExactly(q: R.Search, rows: seq<R.Row>, n: nat)
    requires R.Ready(q) && n < |rows| && R.Scan(q, rows[..n]).Ok?
    ensures R.Scan(q, rows[..n + 1]).Err? ==> Stops(q, rows, n, R.Scan(q, rows[..n + 1]).error)
    ensures R.Scan(q, rows[..n + 1]).Ok? ==> forall e: RetrievalError :: !Stops(q, rows, n, e)
  {
    R.ScanOk(q, rows[..n]);
    AnotherExactly(q, rows, n, R.Scan(q, rows[..n]).value.versions);
    CountsExactly(q, rows[n]);
    FaultExactly(q, rows[n]);
    TakeNext(rows, n);
  }

  /** A ranking is refused exactly if a row stops the scan, for the first such row's reason: a document in two versions,
  or a chunk or an embedding that is not sound, are unavailable, and a text of another size or hash is a conflict. */
  lemma {:induction false} RefusalIsExact(q: R.Search, rows: seq<R.Row>, n: nat)
    requires R.Ready(q) && n <= |rows|
    ensures R.Scan(q, rows[..n]).Ok? <==> forall k: nat, e :: k < n ==> !Stops(q, rows, k, e)
    ensures R.Scan(q, rows[..n]).Err? ==>
              exists k: nat :: k < n && Stops(q, rows, k, R.Scan(q, rows[..n]).error)
                               && forall j: nat, e :: j < k ==> !Stops(q, rows, j, e)
  {
    if n > 0 {
      RefusalIsExact(q, rows, n - 1);
      TakeNext(rows, n - 1);
      if R.Scan(q, rows[..n - 1]).Ok? { StepExactly(q, rows, n - 1); }
    }
  }

  // Complete generations

  lemma {:induction false} OrdinalCounts(chunks: seq<Stored>, s: Stored)
    requires forall c :: c in chunks && c.ordinal == s.ordinal ==> c == s
    ensures |WithOrdinal(chunks, s.ordinal)| == multiset(chunks)[s]
    ensures forall c :: c in WithOrdinal(chunks, s.ordinal) ==> c == s
  {
    if chunks != [] {
      var n := |chunks| - 1;
      assert chunks == chunks[..n] + [chunks[n]];
      OrdinalCounts(chunks[..n], s);
    }
  }

  lemma OrdinalIs(chunks: seq<Stored>, s: Stored)
    requires forall c :: c in chunks && c.ordinal == s.ordinal ==> c == s
    requires multiset(chunks)[s] == 1
    ensures WithOrdinal(chunks, s.ordinal) == [s]
  {
    OrdinalCounts(chunks, s);
    var found := WithOrdinal(chunks, s.ordinal);
    assert found[0] in found;
  }

  lemma SameSize<T>(a: multiset<T>, b: multiset<T>)
    requires a <= b && |a| == |b|
    ensures a == b
  {
    assert b == a + (b - a);
    assert |b - a| == 0;
  }

  lemma {:induction false} OnceEach(all: seq<Stored>, n: nat)
    requires n <= |all| && forall i :: 0 <= i < |all| ==> all[i].ordinal == i
    ensures forall s :: multiset(all[..n])[s] == if s in all[..n] then 1 else 0
  {
    if n > 0 {
      OnceEach(all, n - 1);
      assert all[..n] == all[..n - 1] + [all[n - 1]];
      assert all[n - 1] !in all[..n - 1];
    }
  }

  /** A generation is complete exactly if it is the canonical one, in any order. */
  lemma CompleteExactly(h: Hashing, d: Document, chunks: seq<Stored>, profile: string)
    ensures Complete(h, d, chunks, profile) <==> multiset(chunks) == multiset(Generation(h, d, profile))
  {
    var all := Generation(h, d, profile);
    TakeAll(all);
    OnceEach(all, |all|);
    if Complete(h, d, chunks, profile) { CompleteHasAll(h, d, chunks, profile); }
    if multiset(chunks) == multiset(all) { AllIsComplete(h, d, chunks, profile); }
  }

  lemma CompleteHasAll(h: Hashing, d: Document, chunks: seq<Stored>, profile: string)
    requires Complete(h, d, chunks, profile)
    ensures multiset(chunks) == multiset(Generation(h, d, profile))
  {
    var all := Generation(h, d, profile);
    TakeAll(all);
    OnceEach(all, |all|);
    forall s | s in all ensures s in chunks {
      var i :| 0 <= i < |all| && all[i] == s;
      assert WithOrdinal(chunks, i) == [s];
      WithOrdinalHas(chunks, i, s);
      assert s in WithOrdinal(chunks, i);
    }
    assert multiset(all) <= multiset(chunks);
    SameSize(multiset(all), multiset(chunks));
  }

  lemma AllIsComplete(h: Hashing, d: Document, chunks: seq<Stored>, profile: string)
    requires multiset(chunks) == multiset(Generation(h, d, profile))
    ensures Complete(h, d, chunks, profile)
  {
    var all := Generation(h, d, profile);
    TakeAll(all);
    OnceEach(all, |all|);
    assert |multiset(chunks)| == |chunks| && |multiset(all)| == |all|;
    assert forall c :: c in chunks <==> c in multiset(chunks);
    forall i | 0 <= i < |all| ensures WithOrdinal(chunks, i) == [all[i]] {
      assert all[i] in all;
      OrdinalIs(chunks, all[i]);
    }
  }

  // Reconciled candidates

  lemma TailLast<T>(s: seq<T>, x: T)
    requires s != []
    ensures (s + [x])[0] == s[0] && (s + [x])[1..] == s[1..] + [x]
  {
  }

  lemma {:induction false} WhereLast<T>(s: seq<T>, x: T, p: T -> bool)
    ensures Where(s + [x], p) == Where(s, p) + if p(x) then [x] else []
  {
    if s == [] {
      assert s + [x] == [x];
    } else {
      TailLast(s, x);
      WhereLast(s[1..], x, p);
      var first, last := if p(s[0]) then [s[0]] else [], if p(x) then [x] else [];
      assert first + (Where(s[1..], p) + last) == first + Where(s[1..], p) + last;
    }
  }

  lemma {:induction false} WithIdIsWhere(docs: seq<Registered>, id: string)
    ensures WithId(docs, id) == Where(docs, (g: Registered) => g.doc.id == id)
  {
    if docs != [] {
      var n := |docs| - 1;
      WithIdIsWhere(docs[..n], id);
      WhereLast(docs[..n], docs[n], (g: Registered) => g.doc.id == id);
      assert docs == docs[..n] + [docs[n]];
    }
  }

  lemma {:induction false} WithChunkIdIsWhere(chunks: seq<Stored>, id: string, profile: string)
    ensures WithChunkId(chunks, id, profile) == Where(chunks, (c: Stored) => c.chunkId == id && c.profile == profile)
  {
    if chunks != [] {
      var n := |chunks| - 1;
      WithChunkIdIsWhere(chunks[..n], id, profile);
      WhereLast(chunks[..n], chunks[n], (c: Stored) => c.chunkId == id && c.profile == profile);
      assert chunks == chunks[..n] + [chunks[n]];
    }
  }

  /** The i-th document of the registry read is the only one of that id. */
  predicate OnlyDocument(docs: seq<Registered>, id: string, i: nat) {
    i < |docs| && docs[i].doc.id == id && forall k :: 0 <= k < |docs| && docs[k].doc.id == id ==> k == i
  }

  predicate OnlyChunk(chunks: seq<Stored>, id: string, profile: string, j: nat) {
    && j < |chunks| && chunks[j].chunkId == id && chunks[j].profile == profile
    && forall k :: 0 <= k < |chunks| && chunks[k].chunkId == id && chunks[k].profile == profile ==> k == j
  }

  lemma OnlyDocumentExactly(docs: seq<Registered>, id: string)
    ensures |WithId(docs, id)| == 1 <==> exists i: nat :: OnlyDocument(docs, id, i)
    ensures forall i: nat :: OnlyDocument(docs, id, i) ==> WithId(docs, id) == [docs[i]]
  {
    var p := (g: Registered) => g.doc.id == id;
    WithIdIsWhere(docs, id);
    if |WithId(docs, id)| == 1 {
      var i := OneIsOnly(docs, p);
      assert OnlyDocument(docs, id, i);
    }
    forall i: nat | OnlyDocument(docs, id, i) ensures WithId(docs, id) == [docs[i]] {
      WhereIsOne(docs, p, i);
    }
  }

  lemma OnlyChunkExactly(chunks: seq<Stored>, id: string, profile: string)
    ensures |WithChunkId(chunks, id, profile)| == 1 <==> exists j: nat :: OnlyChunk(chunks, id, profile, j)
    ensures forall j: nat :: OnlyChunk(chunks, id, profile, j) ==> WithChunkId(chunks, id, profile) == [chunks[j]]
  {
    var p := (c: Stored) => c.chunkId == id && c.profile == profile;
    WithChunkIdIsWhere(chunks, id, profile);
    if |WithChunkId(chunks, id, profile)| == 1 {
      var j := OneIsOnly(chunks, p);
      assert OnlyChunk(chunks, id, profile, j);
    }
    forall j: nat | OnlyChunk(chunks, id, profile, j) ensures WithChunkId(chunks, id, profile) == [chunks[j]] {
      WhereIsOne(chunks, p, j);
    }
  }

  /** The registry's document is the one the candidate speaks of, and may be shown to the request. */
  predicate SameDocument(h: Hashing, d: Document, c: WireCandidate, request: Request) {
    && EntryOk(d, request) && d.active && d.version == c.version && d.sourceRef == c.sourceRef && d.kind == c.kind
    && d.contentSha256 == c.contentSha256 == h.text(d.content)
  }

  /** The stored chunk, the canonical one at its place, and the candidate have one text, hash and id. */
  predicate SameChunk(h: Hashing, d: Document, stored: Stored, c: WireCandidate) {
    && 0 <= stored.ordinal < SliceCount(d.content)
    && c.text == stored.text == SliceAt(d.content, stored.ordinal)
    && c.chunkSha256 == stored.sha256 == h.text(c.text)
    && c.chunkId == h.key(ChunkKey(d.tenant, d.store, d.id, d.version, c.profile, stored.ordinal, c.chunkSha256))
  }

  /** A candidate reconciles exactly if one document of the read has its id, with a complete generation, one chunk of
  which has the candidate's id, and all three agree. */
  lemma ReconcilesExactly(h: Hashing, docs: seq<Registered>, c: WireCandidate, request: Request)
    ensures Reconciles(h, docs, c, request) <==>
              exists i: nat, j: nat ::
                && OnlyDocument(docs, c.documentId, i)
                && SameDocument(h, docs[i].doc, c, request)
                && multiset(docs[i].chunks) == multiset(Generation(h, docs[i].doc, c.profile))
                && OnlyChunk(docs[i].chunks, c.chunkId, c.profile, j)
                && SameChunk(h, docs[i].doc, docs[i].chunks[j], c)
  {
    OnlyDocumentExactly(docs, c.documentId);
    forall i: nat | OnlyDocument(docs, c.documentId, i)
      ensures Reconciles(h, docs, c, request) <==>
                && SameDocument(h, docs[i].doc, c, request)
                && multiset(docs[i].chunks) == multiset(Generation(h, docs[i].doc, c.profile))
                && exists j: nat :: OnlyChunk(docs[i].chunks, c.chunkId, c.profile, j)
                                    && SameChunk(h, docs[i].doc, docs[i].chunks[j], c)
    {
      ReconcilesHere(h, docs, c, request, i);
    }
  }

  lemma ReconcilesHere(h: Hashing, docs: seq<Registered>, c: WireCandidate, request: Request, i: nat)
    requires OnlyDocument(docs, c.documentId, i)
    ensures Reconciles(h, docs, c, request) <==>
              && SameDocument(h, docs[i].doc, c, request)
              && multiset(docs[i].chunks) == multiset(Generation(h, docs[i].doc, c.profile))
              && exists j: nat :: OnlyChunk(docs[i].chunks, c.chunkId, c.profile, j)
                                  && SameChunk(h, docs[i].doc, docs[i].chunks[j], c)
  {
    OnlyDocumentExactly(docs, c.documentId);
    CompleteExactly(h, docs[i].doc, docs[i].chunks, c.profile);
    OnlyChunkExactly(docs[i].chunks, c.chunkId, c.profile);
    forall j: nat | OnlyChunk(docs[i].chunks, c.chunkId, c.profile, j)
      ensures ChunkMatches(h, docs[i].doc, docs[i].chunks[j], c) <==> SameChunk(h, docs[i].doc, docs[i].chunks[j], c)
    {
      ChunkMatchesExactly(h, docs[i].doc, docs[i].chunks[j], c);
    }
  }

  lemma ChunkMatchesExactly(h: Hashing, d: Document, stored: Stored, c: WireCandidate)
    ensures ChunkMatches(h, d, stored, c) <==> SameChunk(h, d, stored, c)
  {
  }
}
