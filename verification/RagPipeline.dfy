/** From registration to evidence: the service ranks the rows that registrations and ingestions leave behind, unless
there are too many, and the Node side accepts the reply (src/retrieval/fastapi.ts, ai-service/rag_service). Both sides
read the registry in one and the same state. */
module RagPipeline {
  import opened Wrappers
  import opened RagChunks
  import G = RagRegistry
  import N = RagReconcile
  import R = RagRanking

  /** The chunks of a document version as the registry read aggregates them, in ordinal order; none is an empty list. */
  function StoredIn(s: G.System, k: G.DocKey, profile: string): seq<N.Stored> {
    if (k, profile) !in s.generations then []
    else
      var chunks := s.generations[(k, profile)];
      seq(|chunks|, i requires 0 <= i < |chunks| => N.StoredOf(chunks[i]))
  }

  predicate Reads(s: G.System, profile: string, g: N.Registered) {
    G.KeyOf(g.doc) in s.docs && g == N.Registered(s.docs[G.KeyOf(g.doc)].doc, StoredIn(s, G.KeyOf(g.doc), profile))
  }

  /** The registry, in any order, each document version once. */
  ghost predicate Lists(s: G.System, profile: string, registry: seq<N.Registered>) {
    && (forall i :: 0 <= i < |registry| ==> Reads(s, profile, registry[i]))
    && (forall i, j :: 0 <= i < j < |registry| ==> G.KeyOf(registry[i].doc) != G.KeyOf(registry[j].doc))
    && (forall k :: k in s.docs ==> exists i :: 0 <= i < |registry| && G.KeyOf(registry[i].doc) == k)
  }

  /** A document version joined with one of its chunks. */
  predicate Matches(q: R.Search, s: G.System, r: R.Row) {
    && G.KeyOf(r.doc) in s.docs && r.doc == s.docs[G.KeyOf(r.doc)].doc
    && (G.KeyOf(r.doc), q.profile.id) in s.generations && r.chunk in s.generations[(G.KeyOf(r.doc), q.profile.id)]
  }

  /** Its embedding is valid, as ingestion checked before it published the chunk. */
  predicate Joins(q: R.Search, s: G.System, r: R.Row) {
    Matches(q, s, r) && R.ValidVector(q.hypot, r.embedding, q.profile.dimensions).Some?
  }

  /** The joined rows of the request's scope, each once, in any order; embed is the embedding stored with a chunk. */
  ghost predicate Joined(q: R.Search, s: G.System, embed: Chunk -> R.Vector, rows: seq<R.Row>) {
    && (forall r :: r in rows <==> Matches(q, s, r) && R.InScope(q, r) && r.embedding == embed(r.chunk))
    && (forall i, j :: 0 <= i < j < |rows| ==> rows[i] != rows[j])
  }

  const ROW_LIMIT: nat := 1024

  /** search_rows: one row more than the limit is fetched, and refuses the search. */
  method SearchRows(rows: seq<R.Row>) returns (r: Result<seq<R.Row>, RetrievalError>)
    ensures r == FetchedRows(rows)
  {
    var fetched := if |rows| > ROW_LIMIT + 1 then rows[..ROW_LIMIT + 1] else rows;
    if |fetched| > ROW_LIMIT {
      return Err(Unavailable);
    }
    r := Ok(fetched);
  }

  /** A search ranks all joined rows or none. */
  function FetchedRows(rows: seq<R.Row>): Result<seq<R.Row>, RetrievalError> {
    if |rows| > ROW_LIMIT then Err(Unavailable) else Ok(rows)
  }

  /** What the service has to rank. */
  function ServiceScan(q: R.Search, rows: seq<R.Row>): Result<R.Scanned, RetrievalError>
    requires R.Ready(q)
  {
    match FetchedRows(rows)
    case Err(e) => Err(e)
    case Ok(fetched) => R.Scan(q, fetched)
  }

  /** A committed generation is what both sides take for complete. */
  lemma StoredIsComplete(h: Hashing, s: G.System, k: G.DocKey, profile: string)
    requires G.Invariant(h, s) && k in s.docs && (k, profile) in s.generations
    ensures StoredIn(s, k, profile) == N.Generation(h, s.docs[k].doc, profile) && StoredIn(s, k, profile) != []
  {
    RowHolds(h, s, k);
    assert G.GenerationOk(h, s.docs, (k, profile), s.generations[(k, profile)]);
    SliceBounds(s.docs[k].doc.content, 0);
  }

  lemma RowHolds(h: Hashing, s: G.System, k: G.DocKey)
    requires G.Invariant(h, s) && k in s.docs
    ensures G.RowOk(h, k, s.docs[k])
  {
    assert G.DocumentOk(h, s.docs, k) && G.SameDocument(k, k);
  }

  lemma OneActive(h: Hashing, s: G.System, a: G.DocKey, b: G.DocKey)
    requires G.Invariant(h, s) && G.SameDocument(a, b) && G.ActiveAt(s.docs, a) && G.ActiveAt(s.docs, b)
    ensures a == b
  {
    assert G.DocumentOk(h, s.docs, b) && G.SameDocument(b, b);
  }

  // The service accepts its own registry

  lemma RowIsFine(q: R.Search, s: G.System, r: R.Row)
    requires R.Ready(q) && G.Invariant(q.h, s) && Joins(q, s, r)
    ensures R.Fine(q, r)
  {
    var k := G.KeyOf(r.doc);
    RowHolds(q.h, s, k);
    assert G.GenerationOk(q.h, s.docs, (k, q.profile.id), s.generations[(k, q.profile.id)]);
    assert R.IsChunkOf(q.h, r.doc, q.profile.id, r.chunk);
  }

  lemma RowsAgree(q: R.Search, s: G.System, r: R.Row, t: R.Row)
    requires G.Invariant(q.h, s) && Joins(q, s, r) && Joins(q, s, t)
    ensures !R.Clashes(q, r, t)
  {
    if R.Clashes(q, r, t) { OneActive(q.h, s, G.KeyOf(r.doc), G.KeyOf(t.doc)); }
  }

  lemma RegistryIsRanked(q: R.Search, s: G.System, rows: seq<R.Row>)
    requires R.Ready(q) && G.Invariant(q.h, s) && forall r :: r in rows ==> Joins(q, s, r)
    ensures R.Scan(q, rows).Ok?
  {
    forall r | r in rows ensures R.Fine(q, r) {
      RowIsFine(q, s, r);
    }
    forall r, t | r in rows && t in rows ensures !R.Clashes(q, r, t) {
      RowsAgree(q, s, r, t);
    }
    R.ScanOk(q, rows);
  }

  // The Node side accepts the reply

  ghost predicate IdsOk(h: Hashing, s: G.System, profile: string) {
    forall k :: k in s.docs ==> DistinctIds(h, s.docs[k].doc, profile)
  }

  lemma ListedIsOk(h: Hashing, s: G.System, registry: seq<N.Registered>, request: N.Request, i: nat)
    requires G.Invariant(h, s) && IdsOk(h, s, request.profile) && Lists(s, request.profile, registry)
    requires i < |registry| && N.ActiveIn(registry[i], request)
    ensures N.EntryOk(registry[i].doc, request) && DistinctIds(h, registry[i].doc, request.profile)
    ensures registry[i].chunks == [] || registry[i].chunks == N.Generation(h, registry[i].doc, request.profile)
  {
    assert Reads(s, request.profile, registry[i]);
    var k := G.KeyOf(registry[i].doc);
    RowHolds(h, s, k);
    if (k, request.profile) in s.generations { StoredIsComplete(h, s, k, request.profile); }
  }

  lemma ListedDiffer(h: Hashing, s: G.System, registry: seq<N.Registered>, request: N.Request, i: nat, j: nat)
    requires G.Invariant(h, s) && Lists(s, request.profile, registry) && i < j < |registry|
    requires N.ActiveIn(registry[i], request) && N.ActiveIn(registry[j], request)
    ensures registry[i].doc.id != registry[j].doc.id
  {
    assert Reads(s, request.profile, registry[i]) && Reads(s, request.profile, registry[j]);
    if registry[i].doc.id == registry[j].doc.id { OneActive(h, s, G.KeyOf(registry[i].doc), G.KeyOf(registry[j].doc)); }
  }

  lemma ListingIsOk(h: Hashing, s: G.System, registry: seq<N.Registered>, request: N.Request)
    requires G.Invariant(h, s) && IdsOk(h, s, request.profile) && Lists(s, request.profile, registry)
    ensures N.RegistryOk(h, registry, request)
  {
    forall i | 0 <= i < |registry| && N.ActiveIn(registry[i], request)
      ensures N.EntryOk(registry[i].doc, request) && DistinctIds(h, registry[i].doc, request.profile)
      ensures registry[i].chunks == [] || registry[i].chunks == N.Generation(h, registry[i].doc, request.profile)
    {
      ListedIsOk(h, s, registry, request, i);
    }
    forall i, j | 0 <= i < j < |registry| && N.ActiveIn(registry[i], request) && N.ActiveIn(registry[j], request)
      ensures registry[i].doc.id != registry[j].doc.id
    {
      ListedDiffer(h, s, registry, request, i, j);
    }
  }

  lemma RowsAreListed(q: R.Search, s: G.System, registry: seq<N.Registered>, rows: seq<R.Row>)
    requires G.Invariant(q.h, s) && Lists(s, q.profile.id, registry) && forall r :: r in rows ==> Joins(q, s, r)
    ensures N.FromRegistry(rows, registry)
  {
    forall r | r in rows
      ensures exists k :: 0 <= k < |registry| && registry[k].doc == r.doc && registry[k].chunks != [] {
      var i :| 0 <= i < |registry| && G.KeyOf(registry[i].doc) == G.KeyOf(r.doc);
      assert Reads(s, q.profile.id, registry[i]);
      StoredIsComplete(q.h, s, G.KeyOf(r.doc), q.profile.id);
    }
  }

  predicate SameScope(q: R.Search, request: N.Request) {
    q.tenant == request.tenant && q.store == request.store && q.profile.id == request.profile
  }

  /** The service's search over a reachable registry, and the Node side's read of it. */
  ghost predicate Searches(q: R.Search, s: G.System, embed: Chunk -> R.Vector, rows: seq<R.Row>,
      registry: seq<N.Registered>, request: N.Request)
  {
    && R.Ready(q) && SameScope(q, request) && Hexadecimal(q.h) && IdsOk(q.h, s, request.profile)
    && Joined(q, s, embed, rows) && (forall r :: r in rows ==> Joins(q, s, r)) && Lists(s, request.profile, registry)
  }

  /** After any run of concurrent registrations and ingestions, the service refuses a search if and only if more than
  1024 rows join, and otherwise the Node side accepts the reply with the best three; as long as hashes look like SHA-256
  and no two chunks of one document collide. */
  lemma SearchSucceeds(q: R.Search, steps: seq<G.Step>, embed: Chunk -> R.Vector, rows: seq<R.Row>,
                       registry: seq<N.Registered>, out: seq<R.Evidence>, request: N.Request)
    requires Searches(q, G.Run(q.h, G.Init, steps), embed, rows, registry, request)
    ensures ServiceScan(q, rows).Err? <==> |rows| > ROW_LIMIT
    ensures ServiceScan(q, rows).Err? ==> ServiceScan(q, rows).error == Unavailable
    ensures ServiceScan(q, rows).Ok? && R.TopThree(out, ServiceScan(q, rows).value.evidence) ==>
              N.Accepts(q.h, N.Current(registry, request, N.IdsOf(N.Reply(out, request))), N.Reply(out, request),
                request)
  {
    G.Reachable(q.h, steps);
    var s := G.Run(q.h, G.Init, steps);
    RegistryIsRanked(q, s, rows);
    ListingIsOk(q.h, s, registry, request);
    RowsAreListed(q, s, registry, rows);
    if ServiceScan(q, rows).Ok? && R.TopThree(out, ServiceScan(q, rows).value.evidence) {
      N.RankingIsAccepted(q, rows, registry, out, request);
    }
  }

  // Such hashes exist

  function Digit(n: nat): char { if n < 10 then "0123456789"[n] else 'a' }

  function Padded(c: char): (r: string)
    ensures |r| == 64 && r[0] == c
  {
    [c] + seq(63, i => 'a')
  }

  const Sample := Hashing(s => Padded('a'), (k: ChunkKey) => Padded(Digit(k.ordinal)))

  /** The assumptions on the hashes can be met, by one function for all documents that can be registered. */
  lemma SampleFits(d: Document, profile: string)
    ensures Hexadecimal(Sample) && (Chunkable(Sample, d) ==> DistinctIds(Sample, d, profile))
  {
    forall k ensures HashValue(Sample.key(k)) {
    }
    if Chunkable(Sample, d) {
      forall i, j | 0 <= i < j < SliceCount(d.content)
        ensures ChunkAt(Sample, d, profile, i).id != ChunkAt(Sample, d, profile, j).id {
        SliceBounds(d.content, 8);
        assert Digit(i) != Digit(j);
        assert ChunkAt(Sample, d, profile, i).id[0] == Digit(i) && ChunkAt(Sample, d, profile, j).id[0] == Digit(j);
      }
    }
  }

  lemma SampleMeetsAll(steps: seq<G.Step>, profile: string)
    ensures Hexadecimal(Sample) && IdsOk(Sample, G.Run(Sample, G.Init, steps), profile)
  {
    var s := G.Run(Sample, G.Init, steps);
    G.Reachable(Sample, steps);
    forall k | k in s.docs ensures DistinctIds(Sample, s.docs[k].doc, profile) {
      RowHolds(Sample, s, k);
      SampleFits(s.docs[k].doc, profile);
    }
    SampleFits(Document("t", "s", "d", "v", Policy, "x", Padded('a'), "r", true, true), profile);
  }

  // A registry with something to find

  const SampleDoc := Document("t", "s", "d", "v", Policy, "x", Padded('a'), "r", true, true)
  const SampleKey := G.DocKey("t", "s", "d", "v")
  const SampleEntry := G.Row(SampleDoc, "")

  lemma Letter(s: string)
    requires |s| == 1 && 'a' <= s[0] <= 'z'
    ensures StringValue(s, 200) && StringValue(s, LONGEST) && StringValue(s, SOURCE_LIMIT)
  {
    assert !Space(s[0]);
  }

  lemma SampleRegisters()
    ensures G.Registrable(Sample, [SampleEntry])
  {
    Letter("d");
    Letter("v");
    Letter("x");
    Letter("r");
  }

  lemma SampleRegistered(s: G.System)
    requires s == G.System(map[], map[], map[], map[0 := G.Registering([SampleEntry], 0, false, map[])])
    ensures G.Apply(Sample, G.Apply(Sample, G.Apply(Sample, s, G.Acquire(0)), G.Work(0, true)), G.Commit(0))
         == G.System(map[SampleKey := SampleEntry], map[], map[], map[])
  {
    var lock := G.LockOf(SampleKey);
    var acquired := G.Apply(Sample, s, G.Acquire(0));
    assert acquired == G.System(map[], map[], map[lock := 0], map[0 := G.Registering([SampleEntry], 0, true, map[])]);
    var tx := G.Registering([SampleEntry], 1, false, map[SampleKey := SampleEntry]);
    SampleView(acquired.txs[0]);
    assert G.Apply(Sample, acquired, G.Work(0, true)) == G.System(map[], map[], map[lock := 0], map[0 := tx]);
    SampleSeen(tx);
  }

  lemma SampleView(tx: G.Tx)
    requires tx == G.Registering([SampleEntry], 0, true, map[])
    ensures G.RegisterOne(G.Seen(map[], tx), SampleEntry) == Some(map[SampleKey := SampleEntry])
  {
    var none: G.Docs := map[];
    assert G.Seen(none, tx) == none;
    assert none + G.Retired(none, SampleKey) == none;
    assert G.KeyOf(SampleEntry.doc) == SampleKey;
  }

  lemma SampleSeen(tx: G.Tx)
    requires tx == G.Registering([SampleEntry], 1, false, map[SampleKey := SampleEntry])
    ensures G.Seen(map[], tx) == map[SampleKey := SampleEntry]
  {
    assert tx.entries[0] == SampleEntry && G.Touched(tx, G.LockOf(SampleKey));
  }

  /** A document registered and ingested: its one chunk is there to be found. */
  lemma SomethingToFind() returns (steps: seq<G.Step>)
    ensures var s := G.Run(Sample, G.Init, steps);
            && s.docs == map[SampleKey := SampleEntry] && s.txs == map[]
            && s.generations == map[(SampleKey, "p") := Chunks(Sample, SampleDoc, "p")]
            && |Chunks(Sample, SampleDoc, "p")| == 1
  {
    var ask := G.IngestRequest(SampleKey, Padded('a'), "p");
    SampleRegisters();
    var registered := RunFour(Sample, [], G.BeginRegister(0, [SampleEntry]), G.Acquire(0), G.Work(0, true),
      G.Commit(0));
    SampleRegistered(G.With(G.Init, 0, G.Registering([SampleEntry], 0, false, map[])));
    var s := G.Run(Sample, G.Init, registered);
    var asked := RunFour(Sample, registered, G.BeginIngest(0, ask), G.Acquire(0), G.Acquire(0), G.Work(0, true));
    steps := asked + [G.Commit(0)];
    RunLast(Sample, asked, G.Commit(0));
    SampleLocked(s, ask);
    SamplePublished(G.Apply(Sample, G.Apply(Sample, G.Apply(Sample, s, G.BeginIngest(0, ask)), G.Acquire(0)),
      G.Acquire(0)), ask);
  }

  lemma SampleLocked(s: G.System, ask: G.IngestRequest)
    requires s == G.System(map[SampleKey := SampleEntry], map[], map[], map[])
      && ask == G.IngestRequest(SampleKey, Padded('a'), "p")
    ensures G.Apply(Sample, G.Apply(Sample, G.Apply(Sample, s, G.BeginIngest(0, ask)), G.Acquire(0)), G.Acquire(0))
         == G.System(s.docs, map[], map[G.LockOf(SampleKey) := 0, G.GenLock(SampleKey, "p") := 0],
           map[0 := G.Ingesting(ask, G.Checking)])
  {
    var begun := G.Apply(Sample, s, G.BeginIngest(0, ask));
    var one := G.Apply(Sample, begun, G.Acquire(0));
    assert one.txs == map[0 := G.Ingesting(ask, G.WantGeneration)];
  }

  lemma SamplePublished(s: G.System, ask: G.IngestRequest)
    requires ask == G.IngestRequest(SampleKey, Padded('a'), "p") && s.docs == map[SampleKey := SampleEntry]
      && s.generations == map[]
    requires s.locks == map[G.LockOf(SampleKey) := 0, G.GenLock(SampleKey, "p") := 0]
      && s.txs == map[0 := G.Ingesting(ask, G.Checking)]
    ensures G.Apply(Sample, G.Apply(Sample, s, G.Work(0, true)), G.Commit(0))
         == G.System(s.docs, map[(SampleKey, "p") := Chunks(Sample, SampleDoc, "p")], map[], map[])
  {
    var checked := G.Apply(Sample, s, G.Work(0, true));
    assert checked.txs == map[0 := G.Ingesting(ask, G.Publishing(Chunks(Sample, SampleDoc, "p")))];
  }

  lemma RunLast(h: Hashing, steps: seq<G.Step>, step: G.Step)
    ensures G.Run(h, G.Init, steps + [step]) == G.Apply(h, G.Run(h, G.Init, steps), step)
  {
    assert (steps + [step])[..|steps|] == steps;
  }

  lemma RunFour(h: Hashing, steps: seq<G.Step>, a: G.Step, b: G.Step, c: G.Step, d: G.Step) returns (after: seq<G.Step>)
    ensures G.Run(h, G.Init, after)
      == G.Apply(h, G.Apply(h, G.Apply(h, G.Apply(h, G.Run(h, G.Init, steps), a), b), c), d)
  {
    RunLast(h, steps, a);
    RunLast(h, steps + [a], b);
    RunLast(h, steps + [a] + [b], c);
    RunLast(h, steps + [a] + [b] + [c], d);
    after := steps + [a] + [b] + [c] + [d];
  }
}
