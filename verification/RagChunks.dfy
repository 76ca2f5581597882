/** How a registered document is cut into chunks, by the Python service (ai-service/rag_service/core.py) and by the Node
registry (src/retrieval/fastapi.ts). A text is a sequence of code points in both. */
module RagChunks {
  import opened Wrappers

  datatype Kind = Policy | Sop | Reference | Faq

  datatype Document = Document(
    tenant: string, store: string, id: string, version: string, kind: Kind, content: string, contentSha256: string,
    sourceRef: string, approved: bool, active: bool)

  /** What both sides serialize to JSON and hash for a chunk id. */
  datatype ChunkKey = ChunkKey(
    tenant: string, store: string, document: string, version: string, profile: string, ordinal: nat, sha256: string)

  /** SHA-256 of a text, and of the JSON of a chunk key. */
  datatype Hashing = Hashing(text: string -> string, key: ChunkKey -> string)

  ghost predicate Injective(h: Hashing) {
    && (forall a, b :: h.text(a) == h.text(b) ==> a == b)
    && (forall a, b :: h.key(a) == h.key(b) ==> a == b)
  }

  /** Every hash is 64 lower-case hexadecimal digits. */
  ghost predicate Hexadecimal(h: Hashing) {
    (forall s :: HashValue(h.text(s))) && (forall k :: HashValue(h.key(k)))
  }

  predicate HashValue(s: string) {
    |s| == 64 && forall i :: 0 <= i < 64 ==> 'a' <= s[i] <= 'f' || '0' <= s[i] <= '9'
  }

  predicate Bounded(s: string, limit: nat) { |s| <= limit && '\0' !in s }

  predicate StringValue(s: string, limit: nat) { NotBlank(s) && Bounded(s, limit) }

  /** What the value checks let through: not blank, no NUL, and not too long; and 64 hexadecimal digits. */
  lemma ValuesExactly(s: string, limit: nat)
    ensures StringValue(s, limit) <==>
              && |s| <= limit && (forall c :: c in s ==> c != '\0') && exists c :: c in s && !Space(c)
    ensures HashValue(s) <==> |s| == 64 && forall c :: c in s ==> '0' <= c <= '9' || 'a' <= c <= 'f'
  {
    if NotBlank(s) {
      var i :| 0 <= i < |s| && !Space(s[i]);
      assert s[i] in s;
    }
    assert |s| == 64 ==> forall i :: 0 <= i < 64 ==> s[i] in s;
  }

  const SOURCE_LIMIT: nat := 262144

  /** What validatePrivateRegistration asks of one entry, as far as a search depends on it. */
  predicate Validated(d: Document) {
    StringValue(d.id, 200) && StringValue(d.version, 200) && StringValue(d.content, LONGEST)
      && StringValue(d.sourceRef, SOURCE_LIMIT)
  }

  /** A chunk without its embedding: chunk_identity. */
  datatype Chunk = Chunk(
    tenant: string, store: string, document: string, version: string, profile: string, id: string, ordinal: int,
    text: string,
    sha256: string)

  const SLICE: nat := 2000
  const LONGEST: nat := 16000

  function SliceCount(content: string): nat { (|content| + SLICE - 1) / SLICE }

  function SliceAt(content: string, i: nat): string
    requires i < SliceCount(content)
  {
    var start := SLICE * i;
    content[start..if start + SLICE < |content| then start + SLICE else |content|]
  }

  function ChunkAt(h: Hashing, d: Document, profile: string, i: nat): Chunk
    requires i < SliceCount(d.content)
  {
    var text := SliceAt(d.content, i);
    var digest := h.text(text);
    Chunk(d.tenant, d.store, d.id, d.version, profile,
      h.key(ChunkKey(d.tenant, d.store, d.id, d.version, profile, i, digest)),
          i, text, digest)
  }

  /** The chunk generation of a document. */
  function Chunks(h: Hashing, d: Document, profile: string): (r: seq<Chunk>)
    ensures |r| == SliceCount(d.content)
  {
    seq(SliceCount(d.content), i requires 0 <= i < SliceCount(d.content) => ChunkAt(h, d, profile, i))
  }

  predicate Chunkable(h: Hashing, d: Document) { 1 <= |d.content| <= LONGEST && h.text(d.content) == d.contentSha256 }

  datatype RetrievalError = Unavailable | VersionConflict | NotFound

  lemma SliceBounds(content: string, i: nat)
    ensures i < SliceCount(content) <==> SLICE * i < |content|
  {
  }

  /** chunks_for */
  method ChunksFor(h: Hashing, d: Document, profile: string) returns (r: Result<seq<Chunk>, RetrievalError>)
    ensures r == if Chunkable(h, d) then Ok(Chunks(h, d, profile)) else Err(VersionConflict)
    ensures r.Ok? <==> 1 <= |d.content| <= 16000 && h.text(d.content) == d.contentSha256
    ensures r.Ok? ==> forall i :: 0 <= i < |r.value| ==>
                        var text := r.value[i].text;
                        && text == SliceAt(d.content, i)
                        && r.value[i] == Chunk(d.tenant, d.store, d.id, d.version, profile,
                          h.key(ChunkKey(d.tenant, d.store, d.id, d.version, profile, i, h.text(text))), i, text,
                          h.text(text))
  {
    if !(1 <= |d.content| <= LONGEST) || h.text(d.content) != d.contentSha256 {
      return Err(VersionConflict);
    }
    var result: seq<Chunk> := [];
    var start := 0;
    while start < |d.content|
      invariant start == SLICE * |result| && |result| <= SliceCount(d.content)
      invariant result == Chunks(h, d, profile)[..|result|]
      decreases |d.content| - start
    {
      SliceBounds(d.content, |result|);
      SliceBounds(d.content, |result| + 1);
      var text := d.content[start..if start + SLICE < |d.content| then start + SLICE else |d.content|];
      var digest := h.text(text);
      var ordinal := |result|;
      var id := h.key(ChunkKey(d.tenant, d.store, d.id, d.version, profile, ordinal, digest));
      result := result + [Chunk(d.tenant, d.store, d.id, d.version, profile, id, ordinal, text, digest)];
      start := start + SLICE;
    }
    SliceBounds(d.content, |result|);
    assert result == Chunks(h, d, profile);
    r := Ok(result);
  }

  /** canonicalChunks: the same slices, taken from the list of code points. */
  method CanonicalChunks(h: Hashing, d: Document, profile: string) returns (chunks: seq<Chunk>)
    ensures chunks == Chunks(h, d, profile)
  {
    chunks := [];
    var offset := 0;
    while offset < |d.content|
      invariant offset == SLICE * |chunks| && |chunks| <= SliceCount(d.content)
      invariant chunks == Chunks(h, d, profile)[..|chunks|]
      decreases |d.content| - offset
    {
      SliceBounds(d.content, |chunks|);
      SliceBounds(d.content, |chunks| + 1);
      var rest := d.content[offset..];
      var text := if |rest| > SLICE then rest[..SLICE] else rest;
      assert text == SliceAt(d.content, |chunks|);
      var ordinal, chunkSha256 := |chunks|, h.text(text);
      var chunkId := h.key(ChunkKey(d.tenant, d.store, d.id, d.version, profile, ordinal, chunkSha256));
      chunks := chunks + [Chunk(d.tenant, d.store, d.id, d.version, profile, chunkId, ordinal, text, chunkSha256)];
      offset := offset + SLICE;
    }
    SliceBounds(d.content, |chunks|);
  }

  function Concat(chunks: seq<Chunk>): string {
    if chunks == [] then "" else Concat(chunks[..|chunks| - 1]) + chunks[|chunks| - 1].text
  }

  lemma ConcatStep(chunks: seq<Chunk>, n: nat)
    requires n < |chunks|
    ensures Concat(chunks[..n + 1]) == Concat(chunks[..n]) + chunks[n].text
  {
    TakeNext(chunks, n);
  }

  /** How much of the content the first n slices cover. */
  function Covered(content: string, n: nat): (r: nat)
    ensures r <= |content|
  {
    if SLICE * n < |content| then SLICE * n else |content|
  }

  lemma CoveredStep(content: string, n: nat)
    requires n < SliceCount(content)
    ensures content[..Covered(content, n + 1)] == content[..Covered(content, n)] + SliceAt(content, n)
  {
    SliceBounds(content, n);
  }

  lemma {:induction false} ConcatPrefix(h: Hashing, d: Document, profile: string, n: nat)
    requires n <= SliceCount(d.content)
    ensures Concat(Chunks(h, d, profile)[..n]) == d.content[..Covered(d.content, n)]
  {
    if n > 0 {
      ConcatPrefix(h, d, profile, n - 1);
      ConcatStep(Chunks(h, d, profile), n - 1);
      CoveredStep(d.content, n - 1);
    }
  }

  /** The chunks put together are the document; each holds 1 to 2000 code points, and there are at most 8. */
  lemma ChunksCoverDocument(h: Hashing, d: Document, profile: string)
    requires Chunkable(h, d)
    ensures Concat(Chunks(h, d, profile)) == d.content
    ensures forall i :: 0 <= i < |Chunks(h, d, profile)| ==> 1 <= |Chunks(h, d, profile)[i].text| <= SLICE
    ensures 1 <= |Chunks(h, d, profile)| <= 8
  {
    var all := Chunks(h, d, profile);
    ConcatPrefix(h, d, profile, |all|);
    SliceBounds(d.content, |all|);
    TakeAll(all);
    forall i | 0 <= i < |all| ensures 1 <= |all[i].text| <= SLICE {
      SliceBounds(d.content, i);
    }
  }

  /** A chunk id names one chunk of one document version under one profile. */
  lemma ChunkIdIsExact(h: Hashing, d: Document, p: string, i: nat, e: Document, q: string, j: nat)
    requires Injective(h) && i < SliceCount(d.content) && j < SliceCount(e.content)
    requires ChunkAt(h, d, p, i).id == ChunkAt(h, e, q, j).id
    ensures ChunkAt(h, d, p, i) == ChunkAt(h, e, q, j)
  {
  }

  /** The chunks of one document under one profile have ids of their own. */
  predicate DistinctIds(h: Hashing, d: Document, profile: string) {
    forall i, j :: 0 <= i < j < SliceCount(d.content) ==> ChunkAt(h, d, profile, i).id != ChunkAt(h, d, profile, j).id
  }

  lemma IdsDiffer(h: Hashing, d: Document, profile: string, i: nat, j: nat)
    requires DistinctIds(h, d, profile) && i < SliceCount(d.content) && j < SliceCount(d.content) && i != j
    ensures ChunkAt(h, d, profile, i).id != ChunkAt(h, d, profile, j).id
  {
    var low, high := if i < j then i else j, if i < j then j else i;
    assert ChunkAt(h, d, profile, low).id != ChunkAt(h, d, profile, high).id;
  }

  /** If the hashes never collide, the chunks of every document have ids of their own. */
  lemma NoCollisions(h: Hashing, d: Document, profile: string)
    requires Injective(h)
    ensures DistinctIds(h, d, profile)
  {
    forall i, j | 0 <= i < j < SliceCount(d.content)
      ensures ChunkAt(h, d, profile, i).id != ChunkAt(h, d, profile, j).id {
      if ChunkAt(h, d, profile, i).id == ChunkAt(h, d, profile, j).id {
        ChunkIdIsExact(h, d, profile, i, d, profile, j);
      }
    }
  }
}
