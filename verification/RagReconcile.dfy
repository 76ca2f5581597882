/** What the Node side accepts from the retrieval service (src/retrieval/fastapi.ts, validateSearchResponse,
validateCompleteChunkGeneration and search): the reply is arbitrary, the registry read is its own. */
module RagReconcile {
  import opened Wrappers
  import opened RagChunks
  import R = RagRanking

  /** A candidate of the reply; its fields have the right types, everything else is checked. */
  datatype WireCandidate = WireCandidate(
    chunkId: string, documentId: string, version: string, sourceRef: string, kind: Kind, tenant: string, store: string,
    approved: bool, contentSha256: string, chunkSha256: string, text: string, score: real, rank: int, profile: string)

  datatype Response = Response(schemaVersion: string, requestId: nat, candidates: seq<WireCandidate>)

  datatype Request = Request(id: nat, tenant: string, store: string, profile: string)

  /** A chunk as the registry read returns it. */
  datatype Stored = Stored(chunkId: string, ordinal: int, text: string, sha256: string, profile: string)

  /** A document of the registry read, with its stored chunks under the requested profile. */
  datatype Registered = Registered(doc: Document, chunks: seq<Stored>)

  // Value checks

  predicate CandidateOk(c: WireCandidate, request: Request, rank: int) {
    && StringValue(c.documentId, 200) && StringValue(c.version, 200) && StringValue(c.sourceRef, SOURCE_LIMIT)
    && c.text != "" && Bounded(c.text, SLICE)
    && HashValue(c.chunkId) && HashValue(c.contentSha256) && HashValue(c.chunkSha256)
    && c.tenant == request.tenant && c.store == request.store
    && c.approved && !c.kind.Faq?
    && c.profile == request.profile && c.rank == rank
    && -1.0 <= c.score <= 1.0
  }

  /** The checks of one candidate, field by field. */
  lemma CandidateExactly(c: WireCandidate, request: Request, rank: int)
    ensures CandidateOk(c, request, rank) <==>
              && StringValue(c.documentId, 200) && StringValue(c.version, 200) && StringValue(c.sourceRef, 256 * 1024)
              && 1 <= |c.text| <= 2000 && (forall x :: x in c.text ==> x != '\0')
              && HashValue(c.chunkId) && HashValue(c.contentSha256) && HashValue(c.chunkSha256)
              && c.tenant == request.tenant && c.store == request.store && c.profile == request.profile
              && c.approved && c.kind in {Policy, Sop, Reference} && c.rank == rank
              && !(c.score < -1.0) && !(c.score > 1.0)
  {
    assert c.kind in {Policy, Sop, Reference} <==> c.kind != Faq;
  }

  predicate Repeats(s: seq<WireCandidate>, n: nat)
    requires n < |s|
  {
    exists j :: 0 <= j < n && s[j].documentId == s[n].documentId
  }

  predicate ResponseOk(r: Response, request: Request) {
    && r.schemaVersion == "job-ready-v1" && r.requestId == request.id && |r.candidates| <= 3
    && forall i :: 0 <= i < |r.candidates| ==> CandidateOk(r.candidates[i], request, i + 1) && !Repeats(r.candidates, i)
  }

  /** validateSearchResponse */
  method ValidateSearchResponse(r: Response, request: Request) returns (ok: bool)
    ensures ok <==> ResponseOk(r, request)
  {
    if r.schemaVersion != "job-ready-v1" || r.requestId != request.id || |r.candidates| > 3 {
      return false;
    }
    var documents: set<string> := {};
    for index := 0 to |r.candidates|
      invariant forall i :: 0 <= i < index ==> CandidateOk(r.candidates[i], request, i + 1) && !Repeats(r.candidates, i)
      invariant documents == set j | 0 <= j < index :: r.candidates[j].documentId
    {
      var c := r.candidates[index];
      if !CandidateOk(c, request, index + 1) || c.documentId in documents {
        return false;
      }
      documents := documents + {c.documentId};
    }
    ok := true;
  }

  // Registry checks

  /** validatePrivateRegistration of one entry, as far as a search depends on it. */
  predicate EntryOk(d: Document, request: Request) {
    Validated(d) && d.approved && d.tenant == request.tenant && d.store == request.store
  }

  /** The checks of one registry entry, field by field. */
  lemma EntryExactly(d: Document, request: Request)
    ensures EntryOk(d, request) <==>
              && StringValue(d.id, 200) && StringValue(d.version, 200) && StringValue(d.content, 16000)
              && StringValue(d.sourceRef, 256 * 1024)
              && d.approved && d.tenant == request.tenant && d.store == request.store
  {
  }

  function StoredOf(c: Chunk): Stored { Stored(c.id, c.ordinal, c.text, c.sha256, c.profile) }

  function WithOrdinal(chunks: seq<Stored>, ordinal: int): seq<Stored> {
    if chunks == [] then []
    else
      var rest := WithOrdinal(chunks[..|chunks| - 1], ordinal);
      if chunks[|chunks| - 1].ordinal == ordinal then rest + [chunks[|chunks| - 1]] else rest
  }

  /** validateCompleteChunkGeneration: exactly one stored chunk per canonical one, equal to it, and none left over. */
  predicate Complete(h: Hashing, d: Document, chunks: seq<Stored>, profile: string) {
    && |chunks| == |Chunks(h, d, profile)|
    && forall i :: 0 <= i < |chunks| ==> WithOrdinal(chunks, i) == [StoredOf(Chunks(h, d, profile)[i])]
  }

  method ValidateCompleteChunkGeneration(h: Hashing, d: Document, chunks: seq<Stored>, profile: string)
    returns (ok: bool)
    ensures ok <==> Complete(h, d, chunks, profile)
  {
    var expected := CanonicalChunks(h, d, profile);
    if |chunks| != |expected| {
      return false;
    }
    for i := 0 to |expected|
      invariant forall j :: 0 <= j < i ==> WithOrdinal(chunks, j) == [StoredOf(expected[j])]
    {
      var matches := WithOrdinal(chunks, i);
      if |matches| != 1 || matches[0] != StoredOf(expected[i]) {
        return false;
      }
    }
    ok := true;
  }

  lemma {:induction false} WithOrdinalHas(chunks: seq<Stored>, ordinal: int, s: Stored)
    ensures s in WithOrdinal(chunks, ordinal) <==> s in chunks && s.ordinal == ordinal
  {
    if chunks != [] {
      WithOrdinalHas(chunks[..|chunks| - 1], ordinal, s);
      assert chunks == chunks[..|chunks| - 1] + [chunks[|chunks| - 1]];
    }
  }

  // One candidate against the registry

  function WithId(docs: seq<Registered>, id: string): seq<Registered> {
    if docs == [] then []
    else
      var rest := WithId(docs[..|docs| - 1], id);
      if docs[|docs| - 1].doc.id == id then rest + [docs[|docs| - 1]] else rest
  }

  function WithChunkId(chunks: seq<Stored>, id: string, profile: string): seq<Stored> {
    if chunks == [] then []
    else
      var rest := WithChunkId(chunks[..|chunks| - 1], id, profile);
      var c := chunks[|chunks| - 1];
      if c.chunkId == id && c.profile == profile then rest + [c] else rest
  }

  predicate DocumentMatches(h: Hashing, d: Document, c: WireCandidate, request: Request) {
    && EntryOk(d, request) && d.active
    && d.version == c.version && d.sourceRef == c.sourceRef && d.kind == c.kind
    && d.contentSha256 == c.contentSha256 && h.text(d.content) == c.contentSha256
  }

  predicate ChunkMatches(h: Hashing, d: Document, stored: Stored, c: WireCandidate) {
    && 0 <= stored.ordinal < SliceCount(d.content)
    && var expected := ChunkAt(h, d, c.profile, stored.ordinal);
       expected.id == c.chunkId && stored.text == c.text && expected.text == c.text
       && stored.sha256 == c.chunkSha256 && expected.sha256 == c.chunkSha256
  }

  predicate Reconciles(h: Hashing, docs: seq<Registered>, c: WireCandidate, request: Request) {
    var matches := WithId(docs, c.documentId);
    && |matches| == 1
    && DocumentMatches(h, matches[0].doc, c, request)
    && Complete(h, matches[0].doc, matches[0].chunks, c.profile)
    && var chunks := WithChunkId(matches[0].chunks, c.chunkId, c.profile);
       |chunks| == 1 && ChunkMatches(h, matches[0].doc, chunks[0], c)
  }

  /** What the runtime gets: the full content of the document. */
  datatype Found = Found(doc: Document, text: string, score: real, rank: int)

  method Reconcile(h: Hashing, docs: seq<Registered>, c: WireCandidate, request: Request) returns (found: Option<Found>)
    ensures found.Some? <==> Reconciles(h, docs, c, request)
    ensures found.Some? ==> var d := WithId(docs, c.documentId)[0].doc;
      found.value == Found(d, d.content, c.score, c.rank)
  {
    var matches := WithId(docs, c.documentId);
    if |matches| != 1 {
      return None;
    }
    var doc := matches[0].doc;
    if !EntryOk(doc, request)
      || !(doc.active && doc.version == c.version && doc.sourceRef == c.sourceRef && doc.kind == c.kind)
       || doc.contentSha256 != c.contentSha256 || h.text(doc.content) != c.contentSha256 {
      return None;
    }
    var complete := ValidateCompleteChunkGeneration(h, doc, matches[0].chunks, c.profile);
    if !complete {
      return None;
    }
    var chunks := WithChunkId(matches[0].chunks, c.chunkId, c.profile);
    if |chunks| != 1 {
      return None;
    }
    var stored := chunks[0];
    var canonical := CanonicalChunks(h, doc, c.profile);
    if !(0 <= stored.ordinal < |canonical|) {
      return None;
    }
    var expected := canonical[stored.ordinal];
    if expected.id != c.chunkId || stored.text != c.text || expected.text != c.text
       || stored.sha256 != c.chunkSha256 || expected.sha256 != c.chunkSha256 {
      return None;
    }
    found := Some(Found(doc, doc.content, c.score, c.rank));
  }

  predicate Accepts(h: Hashing, docs: seq<Registered>, r: Response, request: Request) {
    ResponseOk(r, request) && forall i :: 0 <= i < |r.candidates| ==> Reconciles(h, docs, r.candidates[i], request)
  }

  function FoundAt(docs: seq<Registered>, c: WireCandidate): Found
    requires WithId(docs, c.documentId) != []
  {
    var d := WithId(docs, c.documentId)[0].doc;
    Found(d, d.content, c.score, c.rank)
  }

  /** search, after the reply and the registry read arrived; None is its throw. */
  method SearchReply(h: Hashing, docs: seq<Registered>, r: Response, request: Request)
    returns (evidence: Option<seq<Found>>)
    ensures evidence.Some? <==> Accepts(h, docs, r, request)
    ensures evidence.Some? ==> |evidence.value| == |r.candidates|
                               && forall i :: 0 <= i < |r.candidates|
                                    ==> evidence.value[i] == FoundAt(docs, r.candidates[i])
  {
    var ok := ValidateSearchResponse(r, request);
    if !ok {
      return None;
    }
    var found: seq<Found> := [];
    for i := 0 to |r.candidates|
      invariant |found| == i
      invariant forall j :: 0 <= j < i
                  ==> Reconciles(h, docs, r.candidates[j], request) && found[j] == FoundAt(docs, r.candidates[j])
    {
      var one := Reconcile(h, docs, r.candidates[i], request);
      if one.None? {
        return None;
      }
      found := found + [one.value];
    }
    evidence := Some(found);
  }

  // The registry read

  predicate Listed(g: Registered, request: Request, ids: set<string>) {
    g.doc.tenant == request.tenant && g.doc.store == request.store && g.doc.id in ids && g.doc.active && g.doc.approved
  }

  /** current: the active, approved documents of the scope among the ids. */
  function Current(registry: seq<Registered>, request: Request, ids: set<string>): seq<Registered> {
    if registry == [] then []
    else
      var rest := Current(registry[..|registry| - 1], request, ids);
      if Listed(registry[|registry| - 1], request, ids) then rest + [registry[|registry| - 1]] else rest
  }

  function IdsOf(r: Response): set<string> { set i | 0 <= i < |r.candidates| :: r.candidates[i].documentId }

  lemma {:induction false} CurrentHas(registry: seq<Registered>, request: Request, ids: set<string>, g: Registered)
    ensures g in Current(registry, request, ids) <==> g in registry && Listed(g, request, ids)
  {
    if registry != [] {
      CurrentHas(registry[..|registry| - 1], request, ids, g);
      assert registry == registry[..|registry| - 1] + [registry[|registry| - 1]];
    }
  }

  lemma {:induction false} WithIdHas(docs: seq<Registered>, id: string, g: Registered)
    ensures g in WithId(docs, id) <==> g in docs && g.doc.id == id
  {
    if docs != [] {
      WithIdHas(docs[..|docs| - 1], id, g);
      assert docs == docs[..|docs| - 1] + [docs[|docs| - 1]];
    }
  }

  lemma {:induction false} WithChunkIdHas(chunks: seq<Stored>, id: string, profile: string, s: Stored)
    ensures s in WithChunkId(chunks, id, profile) <==> s in chunks && s.chunkId == id && s.profile == profile
  {
    if chunks != [] {
      WithChunkIdHas(chunks[..|chunks| - 1], id, profile, s);
      assert chunks == chunks[..|chunks| - 1] + [chunks[|chunks| - 1]];
    }
  }

  /** The found text is the whole content of an active, approved document of the registry, in the request's scope, and
  the candidate's text is one of its slices under its own chunk id. */
  ghost predicate Genuine(h: Hashing, registry: seq<Registered>, request: Request, c: WireCandidate, f: Found) {
    && f.text == f.doc.content && f.doc.id == c.documentId
    && (exists g :: g in registry && g.doc == f.doc)
    && f.doc.active && f.doc.approved && f.doc.tenant == request.tenant && f.doc.store == request.store
    && !f.doc.kind.Faq?
    && (exists j :: 0 <= j < SliceCount(f.doc.content) && c.text == SliceAt(f.doc.content, j)
         && c.chunkId == ChunkAt(h, f.doc, request.profile, j).id)
  }

  lemma CandidateIsGenuine(h: Hashing, registry: seq<Registered>, r: Response, request: Request, i: nat)
    requires Accepts(h, Current(registry, request, IdsOf(r)), r, request) && i < |r.candidates|
    ensures Genuine(h, registry, request, r.candidates[i],
      FoundAt(Current(registry, request, IdsOf(r)), r.candidates[i]))
  {
    var docs, c := Current(registry, request, IdsOf(r)), r.candidates[i];
    assert Reconciles(h, docs, c, request);
    var g := WithId(docs, c.documentId)[0];
    WithIdHas(docs, c.documentId, g);
    CurrentHas(registry, request, IdsOf(r), g);
    var stored := WithChunkId(g.chunks, c.chunkId, c.profile)[0];
    assert ChunkMatches(h, g.doc, stored, c);
    var j := stored.ordinal;
    assert c.text == SliceAt(g.doc.content, j) && c.chunkId == ChunkAt(h, g.doc, request.profile, j).id;
  }

  /** Whatever the service replies, a search either throws or returns the full contents of distinct, current, active,
  approved documents of the request's own scope, in rank order. */
  lemma OnlyRegistryContent(h: Hashing, registry: seq<Registered>, r: Response, request: Request)
    requires Accepts(h, Current(registry, request, IdsOf(r)), r, request)
    ensures |r.candidates| <= 3
    ensures forall i :: 0 <= i < |r.candidates| ==>
              var f := FoundAt(Current(registry, request, IdsOf(r)), r.candidates[i]);
              f.rank == i + 1 && Genuine(h, registry, request, r.candidates[i], f)
    ensures forall i, j :: 0 <= i < j < |r.candidates| ==> r.candidates[i].documentId != r.candidates[j].documentId
  {
    forall i | 0 <= i < |r.candidates|
      ensures var f := FoundAt(Current(registry, request, IdsOf(r)), r.candidates[i]);
              f.rank == i + 1 && Genuine(h, registry, request, r.candidates[i], f)
    {
      CandidateIsGenuine(h, registry, r, request, i);
      assert CandidateOk(r.candidates[i], request, i + 1);
    }
    forall i, j | 0 <= i < j < |r.candidates| ensures r.candidates[i].documentId != r.candidates[j].documentId {
      assert !Repeats(r.candidates, j);
    }
  }

  // The service's own ranking is never rejected

  function Wire(e: R.Evidence, rank: int): WireCandidate {
    WireCandidate(e.chunk.id, e.doc.id, e.doc.version, e.doc.sourceRef, e.doc.kind, e.doc.tenant, e.doc.store, true,
                  e.doc.contentSha256, e.chunk.sha256, e.chunk.text, e.score, rank, e.chunk.profile)
  }

  function Reply(out: seq<R.Evidence>, request: Request): Response {
    Response("job-ready-v1", request.id, seq(|out|, i requires 0 <= i < |out| => Wire(out[i], i + 1)))
  }

  function Generation(h: Hashing, d: Document, profile: string): seq<Stored> {
    seq(SliceCount(d.content), i requires 0 <= i < SliceCount(d.content) => StoredOf(ChunkAt(h, d, profile, i)))
  }

  predicate ActiveIn(g: Registered, request: Request) {
    g.doc.tenant == request.tenant && g.doc.store == request.store && g.doc.active && g.doc.approved
  }

  /** What registration and ingestion leave behind for a scope and profile: validated entries, one active version per
  document, and chunk generations that are missing or complete, read in ordinal order. */
  predicate RegistryOk(h: Hashing, registry: seq<Registered>, request: Request) {
    && (forall i :: 0 <= i < |registry| && ActiveIn(registry[i], request) ==>
          && EntryOk(registry[i].doc, request) && DistinctIds(h, registry[i].doc, request.profile)
          && (registry[i].chunks == [] || registry[i].chunks == Generation(h, registry[i].doc, request.profile)))
    && (forall i, j :: 0 <= i < j < |registry| && ActiveIn(registry[i], request) && ActiveIn(registry[j], request) ==>
          registry[i].doc.id != registry[j].doc.id)
  }

  lemma {:induction false} OrdinalOnce(h: Hashing, d: Document, profile: string, n: nat, i: int)
    requires n <= SliceCount(d.content) && 0 <= i
    ensures WithOrdinal(Generation(h, d, profile)[..n], i) == if i < n then [Generation(h, d, profile)[i]] else []
  {
    if n > 0 {
      OrdinalOnce(h, d, profile, n - 1, i);
      assert Generation(h, d, profile)[..n][..n - 1] == Generation(h, d, profile)[..n - 1];
    }
  }

  lemma GenerationIsComplete(h: Hashing, d: Document, profile: string)
    ensures Complete(h, d, Generation(h, d, profile), profile)
  {
    var all := Generation(h, d, profile);
    TakeAll(all);
    forall i | 0 <= i < |all| ensures WithOrdinal(all, i) == [StoredOf(Chunks(h, d, profile)[i])] {
      OrdinalOnce(h, d, profile, |all|, i);
    }
  }

  lemma WithChunkIdStep(chunks: seq<Stored>, c: Stored, id: string, profile: string)
    ensures WithChunkId(chunks + [c], id, profile)
         == if c.chunkId == id && c.profile == profile then WithChunkId(chunks, id, profile) + [c]
           else WithChunkId(chunks, id, profile)
  {
    assert (chunks + [c])[..|chunks|] == chunks;
  }

  lemma {:induction false} ChunkIdOnce(all: seq<Stored>, id: string, profile: string, j: nat, n: nat)
    requires n <= |all| && j < |all|
    requires forall i :: 0 <= i < |all| ==> all[i].profile == profile && (all[i].chunkId == id <==> i == j)
    ensures WithChunkId(all[..n], id, profile) == if j < n then [all[j]] else []
  {
    if n > 0 {
      ChunkIdOnce(all, id, profile, j, n - 1);
      TakeNext(all, n - 1);
      WithChunkIdStep(all[..n - 1], all[n - 1], id, profile);
    }
  }

  lemma ChunkFound(h: Hashing, d: Document, profile: string, j: nat)
    requires DistinctIds(h, d, profile) && j < SliceCount(d.content)
    ensures WithChunkId(Generation(h, d, profile), ChunkAt(h, d, profile, j).id, profile)
      == [StoredOf(ChunkAt(h, d, profile, j))]
  {
    var all := Generation(h, d, profile);
    forall i | 0 <= i < |all|
      ensures all[i].profile == profile && (all[i].chunkId == ChunkAt(h, d, profile, j).id <==> i == j) {
      if i != j { IdsDiffer(h, d, profile, i, j); }
    }
    TakeAll(all);
    ChunkIdOnce(all, ChunkAt(h, d, profile, j).id, profile, j, |all|);
  }

  lemma CurrentStep(registry: seq<Registered>, request: Request, ids: set<string>, n: nat)
    requires n < |registry|
    ensures Current(registry[..n + 1], request, ids)
         == if Listed(registry[n], request, ids) then Current(registry[..n], request, ids) + [registry[n]]
           else Current(registry[..n], request, ids)
  {
    TakeNext(registry, n);
  }

  /** Two listed documents of one registry have different ids. */
  lemma ListedDiffer(h: Hashing, registry: seq<Registered>, request: Request, ids: set<string>, j: nat, k: nat)
    requires RegistryOk(h, registry, request) && j < |registry| && k < |registry| && j != k
    requires Listed(registry[j], request, ids) && Listed(registry[k], request, ids)
    ensures registry[j].doc.id != registry[k].doc.id
  {
    assert ActiveIn(registry[j], request) && ActiveIn(registry[k], request);
    if j < k {
      assert registry[j].doc.id != registry[k].doc.id;
    } else {
      assert registry[k].doc.id != registry[j].doc.id;
    }
  }

  /** The only listed document of an id. */
  lemma {:induction false} ListedOnce(h: Hashing, registry: seq<Registered>, request: Request, ids: set<string>, k: nat,
      n: nat)
    requires RegistryOk(h, registry, request) && k < |registry| && n <= |registry| && Listed(registry[k], request, ids)
    ensures WithId(Current(registry[..n], request, ids), registry[k].doc.id) == if k < n then [registry[k]] else []
  {
    if n > 0 {
      ListedOnce(h, registry, request, ids, k, n - 1);
      ListedStep(h, registry, request, ids, k, n - 1);
    }
  }

  lemma ListedStep(h: Hashing, registry: seq<Registered>, request: Request, ids: set<string>, k: nat, n: nat)
    requires RegistryOk(h, registry, request) && k < |registry| && n < |registry| && Listed(registry[k], request, ids)
    ensures var id := registry[k].doc.id;
            WithId(Current(registry[..n + 1], request, ids), id)
            == if k == n then WithId(Current(registry[..n], request, ids), id) + [registry[k]]
              else WithId(Current(registry[..n], request, ids), id)
  {
    CurrentStep(registry, request, ids, n);
    WithIdStep(Current(registry[..n], request, ids), registry[n], registry[k].doc.id);
    if n != k && Listed(registry[n], request, ids) { ListedDiffer(h, registry, request, ids, n, k); }
  }

  lemma WithIdStep(docs: seq<Registered>, g: Registered, id: string)
    ensures WithId(docs + [g], id) == if g.doc.id == id then WithId(docs, id) + [g] else WithId(docs, id)
  {
    assert (docs + [g])[..|docs|] == docs;
  }

  /** What the ranking knows of an evidence: its document is active in the request's scope and its chunk is
  canonical. */
  predicate Ranked(h: Hashing, e: R.Evidence, request: Request) {
    && e.doc.tenant == request.tenant && e.doc.store == request.store && e.doc.active && e.doc.approved
    && !e.doc.kind.Faq?
    && Chunkable(h, e.doc) && R.IsChunkOf(h, e.doc, request.profile, e.chunk) && -1.0 <= e.score <= 1.0
  }

  lemma SliceIsBounded(d: Document, i: nat)
    requires '\0' !in d.content && i < SliceCount(d.content)
    ensures SliceAt(d.content, i) != "" && Bounded(SliceAt(d.content, i), SLICE)
  {
    SliceBounds(d.content, i);
  }

  lemma WireIsOk(h: Hashing, e: R.Evidence, request: Request, rank: int)
    requires Hexadecimal(h) && Ranked(h, e, request) && EntryOk(e.doc, request)
    ensures CandidateOk(Wire(e, rank), request, rank)
  {
    SliceIsBounded(e.doc, e.chunk.ordinal);
    assert HashValue(h.text(e.doc.content)) && HashValue(e.chunk.sha256) && HashValue(e.chunk.id);
  }

  lemma WireReconciles(h: Hashing, registry: seq<Registered>, ids: set<string>, e: R.Evidence, request: Request,
      rank: int, k: nat)
    requires RegistryOk(h, registry, request) && Ranked(h, e, request)
    requires k < |registry| && registry[k].doc == e.doc && registry[k].chunks != [] && e.doc.id in ids
    ensures Reconciles(h, Current(registry, request, ids), Wire(e, rank), request)
  {
    var docs, g := Current(registry, request, ids), registry[k];
    ListedOnce(h, registry, request, ids, k, |registry|);
    TakeAll(registry);
    assert ActiveIn(g, request);
    GenerationIsComplete(h, g.doc, request.profile);
    ChunkFound(h, g.doc, request.profile, e.chunk.ordinal);
  }

  /** The rows of the ranking join documents of the registry with their stored chunks. */
  predicate FromRegistry(rows: seq<R.Row>, registry: seq<Registered>) {
    forall r :: r in rows ==> exists k :: 0 <= k < |registry| && registry[k].doc == r.doc && registry[k].chunks != []
  }

  lemma EvidenceRanked(q: R.Search, rows: seq<R.Row>, registry: seq<Registered>, e: R.Evidence, request: Request)
    returns (k: nat)
    requires R.Ready(q) && R.Scan(q, rows).Ok? && e in R.Scan(q, rows).value.evidence && FromRegistry(rows, registry)
    requires q.tenant == request.tenant && q.store == request.store && q.profile.id == request.profile
    ensures Ranked(q.h, e, request) && k < |registry| && registry[k].doc == e.doc && registry[k].chunks != []
  {
    R.EvidenceIs(q, rows, e);
    var r :| r in rows && R.Yields(q, r, e);
    k :| 0 <= k < |registry| && registry[k].doc == r.doc && registry[k].chunks != [];
  }

  /** The service ranked rows of this registry, for this request. */
  ghost predicate RankedOver(q: R.Search, rows: seq<R.Row>, registry: seq<Registered>, out: seq<R.Evidence>,
      request: Request)
  {
    && R.Ready(q) && Hexadecimal(q.h) && RegistryOk(q.h, registry, request) && FromRegistry(rows, registry)
    && q.tenant == request.tenant && q.store == request.store && q.profile.id == request.profile
    && R.Scan(q, rows).Ok? && R.TopThree(out, R.Scan(q, rows).value.evidence)
  }

  lemma ReplyAt(q: R.Search, rows: seq<R.Row>, registry: seq<Registered>, out: seq<R.Evidence>, request: Request,
      i: nat)
    requires RankedOver(q, rows, registry, out, request) && i < |out|
    ensures CandidateOk(Wire(out[i], i + 1), request, i + 1)
    ensures Reconciles(q.h, Current(registry, request, IdsOf(Reply(out, request))), Wire(out[i], i + 1), request)
  {
    assert R.IsBest(out[i], R.Scan(q, rows).value.evidence);
    var k := EvidenceRanked(q, rows, registry, out[i], request);
    assert ActiveIn(registry[k], request);
    WireIsOk(q.h, out[i], request, i + 1);
    assert Reply(out, request).candidates[i].documentId == out[i].doc.id;
    WireReconciles(q.h, registry, IdsOf(Reply(out, request)), out[i], request, i + 1, k);
  }

  lemma ReplyRepeatsNothing(out: seq<R.Evidence>, all: seq<R.Evidence>, request: Request, i: nat)
    requires R.TopThree(out, all) && i < |out|
    ensures !Repeats(Reply(out, request).candidates, i)
  {
    forall j | 0 <= j < i
      ensures Reply(out, request).candidates[j].documentId != Reply(out, request).candidates[i].documentId {
      R.TopThreeAreDistinct(out, all, j, i);
    }
  }

  predicate Passes(h: Hashing, docs: seq<Registered>, r: Response, request: Request, i: nat)
    requires i < |r.candidates|
  {
    CandidateOk(r.candidates[i], request, i + 1) && !Repeats(r.candidates, i)
      && Reconciles(h, docs, r.candidates[i], request)
  }

  lemma AllPass(h: Hashing, docs: seq<Registered>, r: Response, request: Request)
    requires r.schemaVersion == "job-ready-v1" && r.requestId == request.id && |r.candidates| <= 3
    requires forall i :: 0 <= i < |r.candidates| ==> Passes(h, docs, r, request, i)
    ensures Accepts(h, docs, r, request)
  {
    forall i | 0 <= i < |r.candidates|
      ensures CandidateOk(r.candidates[i], request, i + 1) && !Repeats(r.candidates, i)
        && Reconciles(h, docs, r.candidates[i], request)
    {
      assert Passes(h, docs, r, request, i);
    }
  }

  lemma ReplyPasses(q: R.Search, rows: seq<R.Row>, registry: seq<Registered>, out: seq<R.Evidence>, request: Request,
      r: Response, i: nat)
    requires RankedOver(q, rows, registry, out, request) && i < |out| && r == Reply(out, request)
    ensures Passes(q.h, Current(registry, request, IdsOf(r)), r, request, i)
  {
    assert r.candidates[i] == Wire(out[i], i + 1);
    ReplyAt(q, rows, registry, out, request, i);
    ReplyRepeatsNothing(out, R.Scan(q, rows).value.evidence, request, i);
  }

  /** The Node side never rejects a reply that the service sends with its own ranking over the same registry: both cut
  and hash chunks alike. */
  lemma RankingIsAccepted(q: R.Search, rows: seq<R.Row>, registry: seq<Registered>, out: seq<R.Evidence>,
      request: Request)
    requires RankedOver(q, rows, registry, out, request)
    ensures Accepts(q.h, Current(registry, request, IdsOf(Reply(out, request))), Reply(out, request), request)
  {
    var r := Reply(out, request);
    forall i | 0 <= i < |out| ensures Passes(q.h, Current(registry, request, IdsOf(r)), r, request, i) {
      ReplyPasses(q, rows, registry, out, request, r, i);
    }
    AllPass(q.h, Current(registry, request, IdsOf(r)), r, request);
  }
}
