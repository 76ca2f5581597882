/** The document registry and its chunk generations under concurrent registrations and ingestions: the writes of each
transaction, and the advisory locks that order them (src/retrieval/fastapi.ts, register; ai-service/rag_service/core.py,
ingest; ai-service/rag_service/postgres.py, ingestion). */
module RagRegistry {
  import opened Wrappers
  import opened RagChunks

  /** PRIMARY KEY (tenant_id, store_id, document_id, version) */
  datatype DocKey = DocKey(tenant: string, store: string, id: string, version: string)

  /** A row of rag_documents; extra stands for its title, date and tags. */
  datatype Row = Row(doc: Document, extra: string)

  type Docs = map<DocKey, Row>

  type Generations = map<(DocKey, string), seq<Chunk>>

  function KeyOf(d: Document): DocKey { DocKey(d.tenant, d.store, d.id, d.version) }

  predicate SameDocument(a: DocKey, b: DocKey) { a.tenant == b.tenant && a.store == b.store && a.id == b.id }

  // Registration

  /** The rows of the document that are active, retired. */
  function Retired(docs: Docs, key: DocKey): Docs {
    map k | k in docs && SameDocument(k, key) && docs[k].doc.active ::
      docs[k].(doc := docs[k].doc.(active := false, approved := false))
  }

  predicate SameEntry(row: Row, entry: Row) {
    && row.doc.active && row.doc.approved && row.extra == entry.extra
    && row.doc.content == entry.doc.content && row.doc.contentSha256 == entry.doc.contentSha256
    && row.doc.sourceRef == entry.doc.sourceRef && row.doc.kind == entry.doc.kind
  }

  /** One entry of a registration: keeps an equal active version, refuses any other existing version, and otherwise
  retires the active version and inserts the new one. */
  function RegisterOne(docs: Docs, entry: Row): Option<Docs> {
    var key := KeyOf(entry.doc);
    if key in docs then if SameEntry(docs[key], entry) then Some(docs) else None
    else Some((docs + Retired(docs, key))[key := entry])
  }

  function RegisterAll(docs: Docs, entries: seq<Row>): Option<Docs> {
    if entries == [] then Some(docs)
    else
      var before := RegisterAll(docs, entries[..|entries| - 1]);
      if before.None? then None else RegisterOne(before.value, entries[|entries| - 1])
  }

  // Ingestion

  datatype IngestRequest = IngestRequest(key: DocKey, contentSha256: string, profile: string)

  datatype Checked = Refused(error: RetrievalError) | AlreadyIndexed | ToIndex(chunks: seq<Chunk>)

  /** The checks of ingest; embedded says whether every stored embedding is valid. */
  function CheckIngest(h: Hashing, docs: Docs, generations: Generations, q: IngestRequest, embedded: bool): Checked {
    if q.key !in docs || !docs[q.key].doc.active || !docs[q.key].doc.approved then Refused(NotFound)
    else
      var d := docs[q.key].doc;
      if d.kind.Faq? then Refused(Unavailable)
      else if d.contentSha256 != q.contentSha256 || !Chunkable(h, d) then Refused(VersionConflict)
      else
        var chunks := Chunks(h, d, q.profile);
        if (q.key, q.profile) !in generations then ToIndex(chunks)
        else if multiset(generations[(q.key, q.profile)]) != multiset(chunks) then Refused(VersionConflict)
        else if !embedded then Refused(Unavailable)
        else AlreadyIndexed
  }

  // What a registration and an ingestion answer, read off the rows

  /** No two entries are of one document. */
  predicate Apart(entries: seq<Row>) {
    forall i, j :: 0 <= i < j < |entries| ==> !SameDocument(KeyOf(entries[i].doc), KeyOf(entries[j].doc))
  }

  /** The version is new, or its row is the very entry, active and approved. */
  predicate Registers(docs: Docs, entry: Row) {
    KeyOf(entry.doc) in docs ==>
      docs[KeyOf(entry.doc)] == Row(entry.doc.(active := true, approved := true), entry.extra)
  }

  /** One of the first n entries is a new version of the document of k. */
  predicate Superseded(docs: Docs, entries: seq<Row>, n: nat, k: DocKey)
    requires n <= |entries|
  {
    exists i :: 0 <= i < n && SameDocument(KeyOf(entries[i].doc), k) && KeyOf(entries[i].doc) !in docs
  }

  /** After n entries: the new versions are there, the active versions they replace are retired, and no other row has
  changed. */
  ghost predicate Registered(docs: Docs, entries: seq<Row>, n: nat, after: Docs)
    requires n <= |entries|
  {
    && (forall k :: k in after <==> k in docs || Entered(entries, n, k))
    && (forall i :: 0 <= i < n && KeyOf(entries[i].doc) !in docs ==>
          KeyOf(entries[i].doc) in after && after[KeyOf(entries[i].doc)] == entries[i])
    && (forall k :: k in docs ==> LeftAs(docs, entries, n, k, after))
  }

  predicate Entered(entries: seq<Row>, n: nat, k: DocKey)
    requires n <= |entries|
  {
    exists i :: 0 <= i < n && k == KeyOf(entries[i].doc)
  }

  predicate LeftAs(docs: Docs, entries: seq<Row>, n: nat, k: DocKey, after: Docs)
    requires n <= |entries| && k in docs
  {
    && k in after
    && after[k] == if Superseded(docs, entries, n, k) && docs[k].doc.active
                   then Row(docs[k].doc.(active := false, approved := false), docs[k].extra) else docs[k]
  }

  /** Every row is stored under its own key. */
  predicate Keyed(docs: Docs) { forall k :: k in docs ==> KeyOf(docs[k].doc) == k }

  lemma RegisterOneIsExact(docs: Docs, entry: Row)
    requires Keyed(docs)
    ensures RegisterOne(docs, entry).Some? <==> Registers(docs, entry)
    ensures RegisterOne(docs, entry).Some? && KeyOf(entry.doc) in docs ==> RegisterOne(docs, entry).value == docs
    ensures KeyOf(entry.doc) !in docs ==> Inserted(docs, entry, RegisterOne(docs, entry).value)
  {
  }

  predicate Inserted(docs: Docs, entry: Row, after: Docs) {
    var key := KeyOf(entry.doc);
    && after.Keys == docs.Keys + {key} && after[key] == entry
    && forall k :: k in docs && k != key ==>
         after[k] == if SameDocument(k, key) && docs[k].doc.active
                     then Row(docs[k].doc.(active := false, approved := false), docs[k].extra) else docs[k]
  }

  lemma {:induction false} RegisterIsExact(docs: Docs, entries: seq<Row>, n: nat)
    requires Apart(entries) && Keyed(docs) && n <= |entries|
    ensures RegisterAll(docs, entries[..n]).Some? <==> forall i :: 0 <= i < n ==> Registers(docs, entries[i])
    ensures RegisterAll(docs, entries[..n]).Some? ==>
              Registered(docs, entries, n, RegisterAll(docs, entries[..n]).value)
  {
    if n > 0 {
      RegisterIsExact(docs, entries, n - 1);
      assert entries[..n][..n - 1] == entries[..n - 1];
      var before := RegisterAll(docs, entries[..n - 1]);
      if before.Some? { RegisterNext(docs, entries, n - 1, before.value); }
    }
  }

  lemma RegisterNext(docs: Docs, entries: seq<Row>, n: nat, view: Docs)
    requires Apart(entries) && Keyed(docs) && n < |entries| && Registered(docs, entries, n, view)
    ensures RegisterOne(view, entries[n]).Some? <==> Registers(docs, entries[n])
    ensures RegisterOne(view, entries[n]).Some? ==>
              Registered(docs, entries, n + 1, RegisterOne(view, entries[n]).value)
  {
    StillKeyed(docs, entries, n, view);
    RegisterOneIsExact(view, entries[n]);
    UntouchedSoFar(docs, entries, n, view);
    if KeyOf(entries[n].doc) in docs {
      KeptNext(docs, entries, n, view);
    } else {
      InsertedNext(docs, entries, n, view, RegisterOne(view, entries[n]).value);
    }
  }

  lemma StillKeyed(docs: Docs, entries: seq<Row>, n: nat, view: Docs)
    requires Keyed(docs) && n <= |entries| && Registered(docs, entries, n, view)
    ensures Keyed(view)
  {
  }

  lemma SupersededNext(docs: Docs, entries: seq<Row>, n: nat, k: DocKey)
    requires n < |entries|
    ensures Superseded(docs, entries, n + 1, k) <==>
              || Superseded(docs, entries, n, k)
              || (SameDocument(KeyOf(entries[n].doc), k) && KeyOf(entries[n].doc) !in docs)
  {
  }

  lemma KeptNext(docs: Docs, entries: seq<Row>, n: nat, view: Docs)
    requires n < |entries| && Registered(docs, entries, n, view) && KeyOf(entries[n].doc) in docs
    ensures Registered(docs, entries, n + 1, view)
  {
    forall k ensures k in view <==> k in docs || Entered(entries, n + 1, k) {
      EnteredNext(entries, n, k);
    }
    forall i | 0 <= i < n + 1 && KeyOf(entries[i].doc) !in docs
      ensures KeyOf(entries[i].doc) in view && view[KeyOf(entries[i].doc)] == entries[i]
    {
    }
    forall k | k in docs ensures LeftAs(docs, entries, n + 1, k, view) {
      KeptAt(docs, entries, n, view, k);
    }
  }

  lemma KeptAt(docs: Docs, entries: seq<Row>, n: nat, view: Docs, k: DocKey)
    requires n < |entries| && k in docs && LeftAs(docs, entries, n, k, view) && KeyOf(entries[n].doc) in docs
    ensures LeftAs(docs, entries, n + 1, k, view)
  {
    SupersededNext(docs, entries, n, k);
  }

  lemma EnteredNext(entries: seq<Row>, n: nat, k: DocKey)
    requires n < |entries|
    ensures Entered(entries, n + 1, k) <==> Entered(entries, n, k) || k == KeyOf(entries[n].doc)
  {
  }

  lemma InsertedNext(docs: Docs, entries: seq<Row>, n: nat, view: Docs, after: Docs)
    requires Apart(entries) && n < |entries| && Registered(docs, entries, n, view)
    requires KeyOf(entries[n].doc) !in docs && Inserted(view, entries[n], after)
    ensures Registered(docs, entries, n + 1, after)
  {
    forall k ensures k in after <==> k in docs || Entered(entries, n + 1, k) {
      KeysNext(docs, entries, n, view, after, k);
    }
    forall i | 0 <= i < n + 1 && KeyOf(entries[i].doc) !in docs
      ensures KeyOf(entries[i].doc) in after && after[KeyOf(entries[i].doc)] == entries[i]
    {
      if i < n { EarlierStays(docs, entries, n, view, after, i); }
    }
    forall k | k in docs ensures LeftAs(docs, entries, n + 1, k, after) {
      InsertedAt(docs, entries, n, view, after, k);
    }
  }

  lemma KeysNext(docs: Docs, entries: seq<Row>, n: nat, view: Docs, after: Docs, k: DocKey)
    requires n < |entries| && (k in view <==> k in docs || Entered(entries, n, k))
    requires after.Keys == view.Keys + {KeyOf(entries[n].doc)}
    ensures k in after <==> k in docs || Entered(entries, n + 1, k)
  {
    EnteredNext(entries, n, k);
  }

  lemma EarlierStays(docs: Docs, entries: seq<Row>, n: nat, view: Docs, after: Docs, i: nat)
    requires Apart(entries) && i < n < |entries| && Registered(docs, entries, n, view)
    requires KeyOf(entries[n].doc) !in docs && Inserted(view, entries[n], after) && KeyOf(entries[i].doc) !in docs
    ensures KeyOf(entries[i].doc) in after && after[KeyOf(entries[i].doc)] == entries[i]
  {
    assert !SameDocument(KeyOf(entries[i].doc), KeyOf(entries[n].doc));
    assert KeyOf(entries[i].doc) in view;
  }

  lemma InsertedAt(docs: Docs, entries: seq<Row>, n: nat, view: Docs, after: Docs, k: DocKey)
    requires Apart(entries) && n < |entries| && Registered(docs, entries, n, view)
    requires KeyOf(entries[n].doc) !in docs && Inserted(view, entries[n], after) && k in docs
    ensures LeftAs(docs, entries, n + 1, k, after)
  {
    SupersededNext(docs, entries, n, k);
    UntouchedSoFar(docs, entries, n, view);
    assert LeftAs(docs, entries, n, k, view);
  }

  /** The rows of the next entry's document are as they were. */
  lemma UntouchedSoFar(docs: Docs, entries: seq<Row>, n: nat, view: Docs)
    requires Apart(entries) && n < |entries| && Registered(docs, entries, n, view)
    ensures forall k :: SameDocument(k, KeyOf(entries[n].doc)) ==>
              (k in view <==> k in docs) && (k in docs ==> view[k] == docs[k])
  {
  }

  /** Each answer of an ingestion has its reason. */
  predicate IngestAnswered(h: Hashing, docs: Docs, generations: Generations, q: IngestRequest, embedded: bool,
      checked: Checked)
  {
    var there := q.key in docs && docs[q.key].doc.active && docs[q.key].doc.approved;
    var stored := (q.key, q.profile) in generations;
    && (checked == Refused(NotFound) <==> !there)
    && (there ==>
          var d := docs[q.key].doc;
          var sound := 1 <= |d.content| <= 16000 && h.text(d.content) == d.contentSha256 == q.contentSha256;
          var same := stored && multiset(generations[(q.key, q.profile)]) == multiset(Chunks(h, d, q.profile));
          && (checked == Refused(Unavailable) <==> d.kind == Faq || (sound && same && !embedded))
          && (checked == Refused(VersionConflict) <==> d.kind != Faq && (!sound || (stored && !same)))
          && (checked == AlreadyIndexed <==> d.kind != Faq && sound && same && embedded)
          && (checked.ToIndex? <==> d.kind != Faq && sound && !stored)
          && (checked.ToIndex? ==> checked.chunks == Chunks(h, d, q.profile)))
  }

  lemma IngestIsAnswered(h: Hashing, docs: Docs, generations: Generations, q: IngestRequest, embedded: bool)
    ensures IngestAnswered(h, docs, generations, q, embedded, CheckIngest(h, docs, generations, q, embedded))
  {
  }

  class RegistryTables {
    var docs: Docs
    var generations: Generations

    /** The statements of register for one entry. */
    method RegisterEntry(entry: Row) returns (ok: bool)
      modifies `docs
      ensures ok == RegisterOne(old(docs), entry).Some?
      ensures docs == if ok then RegisterOne(old(docs), entry).value else old(docs)
    {
      var key := KeyOf(entry.doc);
      if key in docs {
        return SameEntry(docs[key], entry);
      }
      docs := docs + map k | k in docs && SameDocument(k, key) && docs[k].doc.active
                           :: docs[k].(doc := docs[k].doc.(active := false, approved := false));
      docs := docs[key := entry];
      ok := true;
    }

    /** register: all entries or none. */
    method Register(entries: seq<Row>) returns (ok: bool)
      modifies `docs
      ensures ok == RegisterAll(old(docs), entries).Some?
      ensures docs == if ok then RegisterAll(old(docs), entries).value else old(docs)
      ensures Keyed(old(docs)) && Apart(entries) ==>
                (ok <==> forall i :: 0 <= i < |entries| ==> Registers(old(docs), entries[i]))
      ensures Keyed(old(docs)) && Apart(entries) && ok ==> Registered(old(docs), entries, |entries|, docs)
    {
      if Keyed(docs) && Apart(entries) { RegisterIsExact(docs, entries, |entries|); }
      TakeAll(entries);
      var before := docs;
      for n := 0 to |entries|
        invariant RegisterAll(before, entries[..n]) == Some(docs)
      {
        assert entries[..n + 1][..n] == entries[..n];
        ok := RegisterEntry(entries[n]);
        if !ok {
          RefusalStays(before, entries, n + 1);
          docs := before;
          return;
        }
      }
      assert entries[..|entries|] == entries;
      ok := true;
    }

    /** ingest: publishes the whole generation, or nothing. */
    method Ingest(h: Hashing, q: IngestRequest, embedded: bool) returns (checked: Checked)
      modifies `generations
      ensures checked == CheckIngest(h, docs, old(generations), q, embedded)
      ensures generations == if checked.ToIndex? then
        old(generations)[(q.key, q.profile) := checked.chunks] else old(generations)
      ensures IngestAnswered(h, docs, old(generations), q, embedded, checked)
    {
      if q.key !in docs || !docs[q.key].doc.active || !docs[q.key].doc.approved {
        return Refused(NotFound);
      }
      var d := docs[q.key].doc;
      if d.kind.Faq? {
        return Refused(Unavailable);
      }
      if d.contentSha256 != q.contentSha256 {
        return Refused(VersionConflict);
      }
      var chunks := ChunksFor(h, d, q.profile);
      if chunks.Err? {
        return Refused(VersionConflict);
      }
      if (q.key, q.profile) in generations {
        if multiset(generations[(q.key, q.profile)]) != multiset(chunks.value) {
          return Refused(VersionConflict);
        }
        return if embedded then AlreadyIndexed else Refused(Unavailable);
      }
      var published: seq<Chunk> := [];
      for i := 0 to |chunks.value|
        invariant published == chunks.value[..i]
      {
        published := published + [chunks.value[i]];
      }
      assert published == chunks.value;
      generations := generations[(q.key, q.profile) := published];
      checked := ToIndex(chunks.value);
    }
  }

  lemma {:induction false} RefusalStays(docs: Docs, entries: seq<Row>, n: nat)
    requires n <= |entries| && RegisterAll(docs, entries[..n]).None?
    ensures RegisterAll(docs, entries).None?
  {
    if n < |entries| {
      assert entries[..|entries| - 1][..n] == entries[..n];
      RefusalStays(docs, entries[..|entries| - 1], n);
    } else {
      assert entries[..n] == entries;
    }
  }

  // Locks and transactions

  datatype Lock = DocLock(tenant: string, store: string, id: string) | GenLock(key: DocKey, profile: string)

  function LockOf(k: DocKey): Lock { DocLock(k.tenant, k.store, k.id) }

  /** Registering has processed n entries, and holds the next entry's lock if locked. Its writes are its own until it
  commits. */
  datatype Tx =
    | Registering(entries: seq<Row>, n: nat, locked: bool, view: Docs)
    | Ingesting(request: IngestRequest, stage: IngestStage)

  datatype IngestStage = WantDocument | WantGeneration | Checking | Publishing(chunks: seq<Chunk>) | Finished

  datatype System = System(docs: Docs, generations: Generations, locks: map<Lock, Id>, txs: map<Id, Tx>)

  const Init := System(map[], map[], map[], map[])

  /** The lock a transaction asks for next. */
  function Wanted(tx: Tx): Option<Lock> {
    match tx
    case Registering(entries, n, locked, _) =>
      if n < |entries| && !locked then Some(LockOf(KeyOf(entries[n].doc))) else None
    case Ingesting(q, stage) =>
      match stage
      case WantDocument => Some(LockOf(q.key))
      case WantGeneration => Some(GenLock(q.key, q.profile))
      case _ => None
  }

  /** The documents a registration has processed. */
  predicate Touched(tx: Tx, l: Lock)
    requires tx.Registering?
  {
    exists i :: 0 <= i < |tx.entries| && i < tx.n && l == LockOf(KeyOf(tx.entries[i].doc))
  }

  predicate Holds(tx: Tx, l: Lock) {
    match tx
    case Registering(entries, n, locked, _) =>
      Touched(tx, l) || (locked && n < |entries| && l == LockOf(KeyOf(entries[n].doc)))
    case Ingesting(q, stage) => (!stage.WantDocument? && l == LockOf(q.key))
                                || (!stage.WantDocument? && !stage.WantGeneration? && l == GenLock(q.key, q.profile))
  }

  function Granted(tx: Tx): Tx {
    match tx
    case Registering(_, _, _, _) => tx.(locked := true)
    case Ingesting(_, stage) => tx.(stage := if stage.WantDocument? then WantGeneration else Checking)
  }

  datatype Step =
    | BeginRegister(tx: Id, entries: seq<Row>)
    | BeginIngest(tx: Id, request: IngestRequest)
    | Acquire(tx: Id)
    | Work(tx: Id, embedded: bool)
    | Commit(tx: Id)
    | Abort(tx: Id)

  function Released(locks: map<Lock, Id>, t: Id): map<Lock, Id> { map l | l in locks && locks[l] != t :: locks[l] }

  function Over(s: System, t: Id): System { s.(locks := Released(s.locks, t), txs := s.txs - {t}) }

  function With(s: System, t: Id, tx: Tx): System { s.(txs := s.txs[t := tx]) }

  /** A validated entry, hashed and short enough to be cut. */
  predicate Fit(h: Hashing, d: Document) { Validated(d) && Chunkable(h, d) }

  /** The registration that validatePrivateRegistration lets through: one scope, approved entries, distinct ids, sorted
  by id. */
  predicate Registrable(h: Hashing, entries: seq<Row>) {
    && entries != []
    && (forall i :: 0 <= i < |entries| ==> entries[i].doc.active && entries[i].doc.approved && Fit(h, entries[i].doc)
                                           && entries[i].doc.tenant == entries[0].doc.tenant
                                           && entries[i].doc.store == entries[0].doc.store)
    && (forall i, j :: 0 <= i < j < |entries| ==> Less(entries[i].doc.id, entries[j].doc.id))
  }

  lemma RegistrableExactly(h: Hashing, entries: seq<Row>)
    ensures Registrable(h, entries) <==>
              && |entries| > 0
              && (forall e :: e in entries ==>
                    && e.doc.approved && e.doc.active
                    && e.doc.tenant == entries[0].doc.tenant && e.doc.store == entries[0].doc.store
                    && StringValue(e.doc.id, 200) && StringValue(e.doc.version, 200)
                    && StringValue(e.doc.sourceRef, 256 * 1024) && StringValue(e.doc.content, 16000)
                    && 1 <= |e.doc.content| <= 16000 && e.doc.contentSha256 == h.text(e.doc.content))
              && forall i, j :: 0 <= i < j < |entries| ==> Less(entries[i].doc.id, entries[j].doc.id)
  {
    assert forall e :: e in entries <==> exists i :: 0 <= i < |entries| && entries[i] == e;
  }

  /** What a registration sees, and leaves when it commits: its own writes to the documents it processed, and the
  committed rows of all others. */
  function Seen(docs: Docs, tx: Tx): Docs
    requires tx.Registering?
  {
    map k | k in docs.Keys + tx.view.Keys && (if Touched(tx, LockOf(k)) then k in tx.view else k in docs)
      :: if Touched(tx, LockOf(k)) then tx.view[k] else docs[k]
  }

  function WorkRegister(s: System, t: Id, tx: Tx): System
    requires tx.Registering? && tx.n < |tx.entries|
  {
    var view := RegisterOne(Seen(s.docs, tx), tx.entries[tx.n]);
    if view.None? then Over(s, t) else With(s, t, tx.(n := tx.n + 1, locked := false, view := view.value))
  }

  function Apply(h: Hashing, s: System, step: Step): System {
    match step
    case BeginRegister(t, entries) =>
      if t in s.txs || !Registrable(h, entries) then s else With(s, t, Registering(entries, 0, false, map[]))
    case BeginIngest(t, q) => if t in s.txs then s else With(s, t, Ingesting(q, WantDocument))
    case Acquire(t) =>
      if t !in s.txs || Wanted(s.txs[t]).None? || Wanted(s.txs[t]).value in s.locks then s
      else s.(locks := s.locks[Wanted(s.txs[t]).value := t], txs := s.txs[t := Granted(s.txs[t])])
    case Work(t, embedded) =>
      if t !in s.txs then s
      else
        (match s.txs[t]
         case Registering(entries, n, locked, _) => if locked && n < |entries| then WorkRegister(s, t, s.txs[t]) else s
         case Ingesting(q, stage) =>
           if !stage.Checking? then s
           else
             (match CheckIngest(h, s.docs, s.generations, q, embedded)
              case Refused(_) => Over(s, t)
              case AlreadyIndexed => With(s, t, Ingesting(q, Finished))
              case ToIndex(chunks) => With(s, t, Ingesting(q, Publishing(chunks)))))
    case Commit(t) =>
      if t !in s.txs then s
      else
        (match s.txs[t]
         case Registering(entries, n, _, _) => if n == |entries| then Over(s.(docs := Seen(s.docs, s.txs[t])), t) else s
         case Ingesting(q, stage) =>
           match stage
           case Publishing(chunks) => Over(s.(generations := s.generations[(q.key, q.profile) := chunks]), t)
           case Finished => Over(s, t)
           case _ => s)
    case Abort(t) => Over(s, t)
  }

  function Run(h: Hashing, s: System, steps: seq<Step>): System {
    if steps == [] then s else Apply(h, Run(h, s, steps[..|steps| - 1]), steps[|steps| - 1])
  }

  // Locks

  ghost predicate LocksOk(locks: map<Lock, Id>, txs: map<Id, Tx>) {
    && (forall t, l {:trigger Holds(txs[t], l)} :: t in txs && Holds(txs[t], l) ==> l in locks && locks[l] == t)
    && (forall l :: l in locks ==> locks[l] in txs && Holds(txs[locks[l]], l))
  }

  ghost predicate EntriesOk(h: Hashing, txs: map<Id, Tx>) {
    forall t :: t in txs && txs[t].Registering? ==> Registrable(h, txs[t].entries) && txs[t].n <= |txs[t].entries|
  }

  /** The transaction goes on with the locks it has. */
  lemma LocksStay(s: System, t: Id, tx: Tx)
    requires LocksOk(s.locks, s.txs)
    requires if t in s.txs then forall l :: Holds(tx, l) <==> Holds(s.txs[t], l) else forall l :: !Holds(tx, l)
    ensures LocksOk(s.locks, With(s, t, tx).txs)
  {
  }

  lemma LocksFreed(s: System, t: Id)
    requires LocksOk(s.locks, s.txs)
    ensures LocksOk(Released(s.locks, t), s.txs - {t})
  {
  }

  lemma GrantedHolds(tx: Tx, l: Lock)
    requires Wanted(tx).Some?
    ensures Holds(Granted(tx), l) <==> Holds(tx, l) || l == Wanted(tx).value
  {
  }

  lemma LocksTaken(s: System, t: Id)
    requires LocksOk(s.locks, s.txs) && t in s.txs && Wanted(s.txs[t]).Some? && Wanted(s.txs[t]).value !in s.locks
    ensures LocksOk(s.locks[Wanted(s.txs[t]).value := t], s.txs[t := Granted(s.txs[t])])
  {
    forall l ensures Holds(Granted(s.txs[t]), l) <==> Holds(s.txs[t], l) || l == Wanted(s.txs[t]).value {
      GrantedHolds(s.txs[t], l);
    }
  }

  lemma WorkedHolds(tx: Tx, view: Docs, l: Lock)
    requires tx.Registering? && tx.locked && tx.n < |tx.entries|
    ensures Holds(tx.(n := tx.n + 1, locked := false, view := view), l) <==> Holds(tx, l)
  {
    var after := tx.(n := tx.n + 1, locked := false, view := view);
    if Touched(tx, l) {
      var i :| 0 <= i < |tx.entries| && i < tx.n && l == LockOf(KeyOf(tx.entries[i].doc));
      assert i < after.n;
    }
  }

  /** A lock has one holder. */
  lemma OneHolder(s: System, t: Id, u: Id, l: Lock)
    requires LocksOk(s.locks, s.txs) && t in s.txs && u in s.txs
    ensures Holds(s.txs[t], l) && Holds(s.txs[u], l) ==> t == u
  {
  }

  // No deadlock

  /** The order in which every transaction takes its locks: documents by id, then a generation. */
  predicate Below(a: Lock, b: Lock) { a.DocLock? && (b.GenLock? || Less(a.id, b.id)) }

  lemma BelowTransitive(a: Lock, b: Lock, c: Lock)
    requires Below(a, b) && Below(b, c)
    ensures Below(a, c)
  {
    if c.DocLock? { LessIsTransitive(a.id, b.id, c.id); }
  }

  lemma BelowStrict(a: Lock)
    ensures !Below(a, a)
  {
    if a.DocLock? { LessIsStrict(a.id); }
  }

  /** A transaction asks only for locks above all it holds. */
  lemma WantsAbove(h: Hashing, tx: Tx, l: Lock)
    requires (tx.Registering? ==> Registrable(h, tx.entries)) && Wanted(tx).Some? && Holds(tx, l)
    ensures Below(l, Wanted(tx).value)
  {
    if tx.Registering? {
      var i :| 0 <= i < |tx.entries| && i < tx.n && l == LockOf(KeyOf(tx.entries[i].doc));
      assert Less(tx.entries[i].doc.id, tx.entries[tx.n].doc.id);
    }
  }

  predicate Waits(s: System, t: Id) { t in s.txs && Wanted(s.txs[t]).Some? && Wanted(s.txs[t]).value in s.locks }

  predicate Rises(s: System, v: Id, t: Id) {
    Waits(s, v) && Waits(s, t) && Below(Wanted(s.txs[v]).value, Wanted(s.txs[t]).value)
  }

  /** Following who holds what a transaction waits for, the wanted locks only rise, so the walk ends at one that
  runs. */
  lemma {:induction false} SomeoneRuns(h: Hashing, s: System, t: Id, visited: set<Id>) returns (u: Id)
    requires LocksOk(s.locks, s.txs) && EntriesOk(h, s.txs) && t in s.txs && t in visited && visited <= s.txs.Keys
    requires forall v :: v in visited ==> Waits(s, v) || v == t
    requires forall v :: v in visited && v != t && Waits(s, t) ==> Rises(s, v, t)
    ensures u in s.txs && !Waits(s, u)
    decreases s.txs.Keys - visited
  {
    if !Waits(s, t) {
      u := t;
    } else {
      var l := Wanted(s.txs[t]).value;
      var holder := s.locks[l];
      HolderIsNew(h, s, t, visited, holder);
      u := SomeoneRuns(h, s, holder, visited + {holder});
    }
  }

  lemma HolderIsNew(h: Hashing, s: System, t: Id, visited: set<Id>, holder: Id)
    requires LocksOk(s.locks, s.txs) && EntriesOk(h, s.txs) && Waits(s, t) && holder == s.locks[Wanted(s.txs[t]).value]
    requires t in visited && visited <= s.txs.Keys && forall v :: v in visited ==> Waits(s, v) || v == t
    requires forall v :: v in visited && v != t ==> Rises(s, v, t)
    ensures holder in s.txs && holder !in visited
    ensures forall v :: v in visited && Waits(s, holder) ==> Rises(s, v, holder)
  {
    var l := Wanted(s.txs[t]).value;
    if Wanted(s.txs[holder]).Some? {
      WantsAbove(h, s.txs[holder], l);
      var m := Wanted(s.txs[holder]).value;
      BelowStrict(l);
      forall v | v in visited ensures Below(Wanted(s.txs[v]).value, m) && v != holder {
        if v != t {
          assert Rises(s, v, t);
          BelowTransitive(Wanted(s.txs[v]).value, l, m);
        }
        BelowStrict(m);
      }
    }
  }

  /** What a running transaction can do next. */
  function NextStep(tx: Tx, t: Id): Step {
    if Wanted(tx).Some? then Acquire(t)
    else if (tx.Registering? && tx.n < |tx.entries|) || (tx.Ingesting? && tx.stage.Checking?) then Work(t, true)
    else Commit(t)
  }

  lemma RunsOn(h: Hashing, s: System, t: Id)
    requires EntriesOk(h, s.txs) && t in s.txs && !Waits(s, t)
    ensures Apply(h, s, NextStep(s.txs[t], t)) != s
  {
    var n := Apply(h, s, NextStep(s.txs[t], t));
    if Wanted(s.txs[t]).Some? { assert Wanted(s.txs[t]).value in n.locks; }
  }

  /** No deadlock: as long as transactions are under way, one of them can go on. */
  lemma NoDeadlock(h: Hashing, s: System) returns (t: Id)
    requires LocksOk(s.locks, s.txs) && EntriesOk(h, s.txs) && s.txs != map[]
    ensures t in s.txs && Apply(h, s, NextStep(s.txs[t], t)) != s
  {
    var first :| first in s.txs;
    t := SomeoneRuns(h, s, first, {first});
    RunsOn(h, s, t);
  }

  // Documents: one active version each, content for good, no way back from retirement

  ghost predicate AgreeAt(a: Docs, b: Docs, key: DocKey) {
    forall k :: SameDocument(k, key) ==> (k in a <==> k in b) && (k in a ==> a[k] == b[k])
  }

  predicate RowOk(h: Hashing, k: DocKey, row: Row) {
    KeyOf(row.doc) == k && Fit(h, row.doc) && (row.doc.active ==> row.doc.approved)
  }

  predicate ActiveAt(docs: Docs, k: DocKey) { k in docs && docs[k].doc.active }

  /** If the document has any version, exactly one is active. */
  ghost predicate DocumentOk(h: Hashing, docs: Docs, key: DocKey) {
    && (forall k :: k in docs && SameDocument(k, key) ==> RowOk(h, k, docs[k]))
    && (forall a, b :: SameDocument(a, key) && SameDocument(b, key) && ActiveAt(docs, a) && ActiveAt(docs, b)
         ==> a == b)
    && (forall k :: k in docs && SameDocument(k, key) ==> exists a :: SameDocument(a, key) && ActiveAt(docs, a))
  }

  predicate SameText(a: Row, b: Row) {
    a.extra == b.extra && b.doc == a.doc.(active := b.doc.active, approved := b.doc.approved)
      && (b.doc.active ==> a.doc.active)
  }

  /** Rows stay, keep their content, and never become active again. */
  ghost predicate GrowsAt(before: Docs, after: Docs, key: DocKey) {
    forall k :: SameDocument(k, key) && k in before ==> k in after && SameText(before[k], after[k])
  }

  lemma AgreeActive(a: Docs, b: Docs, key: DocKey, k: DocKey)
    requires AgreeAt(a, b, key) && SameDocument(k, key)
    ensures ActiveAt(a, k) <==> ActiveAt(b, k)
  {
  }

  lemma AgreeGrows(a: Docs, b: Docs, key: DocKey)
    requires AgreeAt(a, b, key)
    ensures GrowsAt(a, b, key)
  {
  }

  lemma AgreeOk(h: Hashing, a: Docs, b: Docs, key: DocKey)
    requires AgreeAt(a, b, key) && DocumentOk(h, a, key)
    ensures DocumentOk(h, b, key) && GrowsAt(a, b, key)
  {
    AgreeGrows(a, b, key);
    forall k | SameDocument(k, key) ensures ActiveAt(a, k) <==> ActiveAt(b, k) {
      AgreeActive(a, b, key, k);
    }
    forall k | k in b && SameDocument(k, key)
      ensures RowOk(h, k, b[k]) && exists x :: SameDocument(x, key) && ActiveAt(b, x) {
      assert k in a && RowOk(h, k, a[k]);
      var x :| SameDocument(x, key) && ActiveAt(a, x);
      assert ActiveAt(b, x);
    }
  }

  lemma GrowsTwice(a: Docs, b: Docs, c: Docs, key: DocKey)
    requires GrowsAt(a, b, key) && GrowsAt(b, c, key)
    ensures GrowsAt(a, c, key)
  {
  }

  lemma RetiredOk(h: Hashing, k: DocKey, row: Row)
    requires RowOk(h, k, row)
    ensures RowOk(h, k, row.(doc := row.doc.(active := false, approved := false)))
  {
  }

  /** The document of a new entry: its active version is retired, and the entry is the active one. */
  lemma RegisteredHere(h: Hashing, docs: Docs, entry: Row, key: DocKey)
    requires RowOk(h, KeyOf(entry.doc), entry) && entry.doc.active && KeyOf(entry.doc) !in docs
      && SameDocument(KeyOf(entry.doc), key)
    requires DocumentOk(h, docs, key)
    ensures var after := (docs + Retired(docs, KeyOf(entry.doc)))[KeyOf(entry.doc) := entry];
            DocumentOk(h, after, key) && GrowsAt(docs, after, key)
  {
    var new_ := KeyOf(entry.doc);
    var after := (docs + Retired(docs, new_))[new_ := entry];
    assert ActiveAt(after, new_);
    forall k | k in after && SameDocument(k, key) ensures RowOk(h, k, after[k]) {
      if k != new_ {
        assert RowOk(h, k, docs[k]);
        RetiredOk(h, k, docs[k]);
      }
    }
  }

  /** A registered entry replaces the active version of its document and touches no other document. */
  lemma RegisteredOk(h: Hashing, docs: Docs, entry: Row, key: DocKey)
    requires entry.doc.active && entry.doc.approved && Fit(h, entry.doc)
    requires RegisterOne(docs, entry).Some? && DocumentOk(h, docs, key)
    ensures var after := RegisterOne(docs, entry).value; DocumentOk(h, after, key) && GrowsAt(docs, after, key)
  {
    var after, new_ := RegisterOne(docs, entry).value, KeyOf(entry.doc);
    if new_ in docs {
      assert after == docs;
    } else if SameDocument(new_, key) {
      RegisteredHere(h, docs, entry, key);
    } else {
      assert AgreeAt(docs, after, key);
      AgreeOk(h, docs, after, key);
    }
  }

  lemma SeenAt(docs: Docs, tx: Tx, key: DocKey)
    requires tx.Registering?
    ensures AgreeAt(Seen(docs, tx), if Touched(tx, LockOf(key)) then tx.view else docs, key)
  {
    forall k | SameDocument(k, key) ensures LockOf(k) == LockOf(key) {
    }
  }

  ghost predicate DocsOk(h: Hashing, docs: Docs) { forall key :: DocumentOk(h, docs, key) }

  /** The rows a registration wrote so far are fit to be committed. */
  ghost predicate ViewOk(h: Hashing, docs: Docs, tx: Tx) {
    tx.Registering? ==> forall key :: Touched(tx, LockOf(key))
                          ==> DocumentOk(h, tx.view, key) && GrowsAt(docs, tx.view, key)
  }

  lemma SeenOk(h: Hashing, docs: Docs, tx: Tx, key: DocKey)
    requires tx.Registering? && DocsOk(h, docs) && ViewOk(h, docs, tx)
    ensures DocumentOk(h, Seen(docs, tx), key) && GrowsAt(docs, Seen(docs, tx), key)
  {
    SeenAt(docs, tx, key);
    assert DocumentOk(h, docs, key);
    var source := if Touched(tx, LockOf(key)) then tx.view else docs;
    assert DocumentOk(h, source, key) && GrowsAt(docs, source, key);
    AgreeOther(source, Seen(docs, tx), key);
    AgreeOk(h, source, Seen(docs, tx), key);
    GrowsTwice(docs, source, Seen(docs, tx), key);
  }

  lemma AgreeOther(a: Docs, b: Docs, key: DocKey)
    requires AgreeAt(b, a, key)
    ensures AgreeAt(a, b, key)
  {
  }

  lemma WorkedView(h: Hashing, docs: Docs, tx: Tx, key: DocKey)
    requires tx.Registering? && tx.n < |tx.entries| && Registrable(h, tx.entries) && DocsOk(h, docs)
      && ViewOk(h, docs, tx)
    requires RegisterOne(Seen(docs, tx), tx.entries[tx.n]).Some?
    ensures var after := RegisterOne(Seen(docs, tx), tx.entries[tx.n]).value;
      DocumentOk(h, after, key) && GrowsAt(docs, after, key)
  {
    var after := RegisterOne(Seen(docs, tx), tx.entries[tx.n]).value;
    SeenOk(h, docs, tx, key);
    RegisteredOk(h, Seen(docs, tx), tx.entries[tx.n], key);
    GrowsTwice(docs, Seen(docs, tx), after, key);
  }

  /** Another registration's commit leaves the documents this one processed alone. */
  lemma ViewStays(h: Hashing, s: System, t: Id, u: Id)
    requires LocksOk(s.locks, s.txs) && t in s.txs && u in s.txs && t != u && s.txs[t].Registering?
      && ViewOk(h, s.docs, s.txs[u])
    ensures ViewOk(h, Seen(s.docs, s.txs[t]), s.txs[u])
  {
    var tx, after := s.txs[u], Seen(s.docs, s.txs[t]);
    if tx.Registering? {
      forall key | Touched(tx, LockOf(key)) ensures DocumentOk(h, tx.view, key) && GrowsAt(after, tx.view, key) {
        assert Holds(tx, LockOf(key));
        OneHolder(s, t, u, LockOf(key));
        SeenAt(s.docs, s.txs[t], key);
      }
    }
  }

  // Generations

  ghost predicate GenerationOk(h: Hashing, docs: Docs, g: (DocKey, string), chunks: seq<Chunk>) {
    g.0 in docs && chunks == Chunks(h, docs[g.0].doc, g.1)
  }

  ghost predicate GenerationsOk(h: Hashing, docs: Docs, generations: Generations) {
    forall g :: g in generations ==> GenerationOk(h, docs, g, generations[g])
  }

  /** A checked ingestion still has its document active and its generation missing. */
  ghost predicate IngestOk(h: Hashing, docs: Docs, generations: Generations, tx: Tx) {
    tx.Ingesting? && tx.stage.Publishing? ==>
      ActiveAt(docs, tx.request.key) && (tx.request.key, tx.request.profile) !in generations
      && GenerationOk(h, docs, (tx.request.key, tx.request.profile), tx.stage.chunks)
  }

  lemma SameChunks(h: Hashing, a: Document, b: Document, profile: string)
    requires b == a.(active := b.active, approved := b.approved)
    ensures Chunks(h, a, profile) == Chunks(h, b, profile)
  {
    forall i | 0 <= i < SliceCount(a.content) ensures ChunkAt(h, a, profile, i) == ChunkAt(h, b, profile, i) {
    }
  }

  lemma GenerationStays(h: Hashing, before: Docs, after: Docs, g: (DocKey, string), chunks: seq<Chunk>)
    requires GenerationOk(h, before, g, chunks) && GrowsAt(before, after, g.0)
    ensures GenerationOk(h, after, g, chunks)
  {
    assert SameDocument(g.0, g.0);
    SameChunks(h, before[g.0].doc, after[g.0].doc, g.1);
  }

  lemma CheckedIsExact(h: Hashing, s: System, q: IngestRequest, embedded: bool)
    requires CheckIngest(h, s.docs, s.generations, q, embedded).ToIndex?
    ensures IngestOk(h, s.docs, s.generations,
      Ingesting(q, Publishing(CheckIngest(h, s.docs, s.generations, q, embedded).chunks)))
  {
  }

  /** A registration's commit leaves a checked ingestion's document alone: its lock is taken. */
  lemma IngestStays(h: Hashing, s: System, t: Id, u: Id)
    requires LocksOk(s.locks, s.txs) && t in s.txs && u in s.txs && t != u && s.txs[t].Registering?
    requires IngestOk(h, s.docs, s.generations, s.txs[u])
    ensures IngestOk(h, Seen(s.docs, s.txs[t]), s.generations, s.txs[u])
  {
    var tx := s.txs[u];
    if tx.Ingesting? && tx.stage.Publishing? {
      var key := tx.request.key;
      assert Holds(tx, LockOf(key));
      OneHolder(s, t, u, LockOf(key));
      SeenAt(s.docs, s.txs[t], key);
      assert SameDocument(key, key);
    }
  }

  /** Two ingestions never publish the same generation at once. */
  lemma PublishExcludes(h: Hashing, s: System, t: Id, u: Id)
    requires LocksOk(s.locks, s.txs) && t in s.txs && u in s.txs && t != u
    requires s.txs[t].Ingesting? && s.txs[t].stage.Publishing? && IngestOk(h, s.docs, s.generations, s.txs[u])
    ensures var q := s.txs[t].request;
            IngestOk(h, s.docs, s.generations[(q.key, q.profile) := s.txs[t].stage.chunks], s.txs[u])
  {
    var q := s.txs[t].request;
    assert Holds(s.txs[t], GenLock(q.key, q.profile));
    if s.txs[u].Ingesting? && s.txs[u].stage.Publishing? {
      assert Holds(s.txs[u], GenLock(s.txs[u].request.key, s.txs[u].request.profile));
      OneHolder(s, t, u, GenLock(q.key, q.profile));
    }
  }

  // Every run

  ghost predicate TxOk(h: Hashing, docs: Docs, generations: Generations, tx: Tx) {
    ViewOk(h, docs, tx) && IngestOk(h, docs, generations, tx)
  }

  ghost predicate Invariant(h: Hashing, s: System) {
    && LocksOk(s.locks, s.txs) && EntriesOk(h, s.txs)
    && DocsOk(h, s.docs) && GenerationsOk(h, s.docs, s.generations)
    && forall t :: t in s.txs ==> TxOk(h, s.docs, s.generations, s.txs[t])
  }

  lemma AbortKeeps(h: Hashing, s: System, t: Id)
    requires Invariant(h, s)
    ensures Invariant(h, Over(s, t))
  {
    LocksFreed(s, t);
  }

  lemma AcquireKeeps(h: Hashing, s: System, t: Id)
    requires Invariant(h, s) && t in s.txs && Wanted(s.txs[t]).Some? && Wanted(s.txs[t]).value !in s.locks
    ensures Invariant(h, s.(locks := s.locks[Wanted(s.txs[t]).value := t], txs := s.txs[t := Granted(s.txs[t])]))
  {
    LocksTaken(s, t);
    assert TxOk(h, s.docs, s.generations, s.txs[t]);
    if s.txs[t].Registering? { GrantedView(h, s.docs, s.txs[t]); }
  }

  lemma GrantedView(h: Hashing, docs: Docs, tx: Tx)
    requires tx.Registering? && ViewOk(h, docs, tx)
    ensures ViewOk(h, docs, Granted(tx))
  {
    forall key | Touched(Granted(tx), LockOf(key)) ensures DocumentOk(h, tx.view, key) && GrowsAt(docs, tx.view, key) {
      var i :| 0 <= i < |tx.entries| && i < tx.n && LockOf(key) == LockOf(KeyOf(tx.entries[i].doc));
      assert Touched(tx, LockOf(key));
    }
  }

  /** A transaction that moves on without taking or giving up a lock. */
  lemma WithKeeps(h: Hashing, s: System, t: Id, tx: Tx)
    requires Invariant(h, s) && t in s.txs && TxOk(h, s.docs, s.generations, tx)
    requires tx.Registering? ==> Registrable(h, tx.entries) && tx.n <= |tx.entries|
    requires forall l :: Holds(tx, l) <==> Holds(s.txs[t], l)
    ensures Invariant(h, With(s, t, tx))
  {
    LocksStay(s, t, tx);
  }

  lemma WorkedTx(h: Hashing, s: System, tx: Tx, view: Docs)
    requires DocsOk(h, s.docs) && tx.Registering? && tx.locked && tx.n < |tx.entries| && Registrable(h, tx.entries)
    requires ViewOk(h, s.docs, tx) && RegisterOne(Seen(s.docs, tx), tx.entries[tx.n]) == Some(view)
    ensures var worked := tx.(n := tx.n + 1, locked := false, view := view);
            TxOk(h, s.docs, s.generations, worked) && forall l :: Holds(worked, l) <==> Holds(tx, l)
  {
    forall key ensures DocumentOk(h, view, key) && GrowsAt(s.docs, view, key) {
      WorkedView(h, s.docs, tx, key);
    }
    forall l ensures Holds(tx.(n := tx.n + 1, locked := false, view := view), l) <==> Holds(tx, l) {
      WorkedHolds(tx, view, l);
    }
  }

  lemma WorkedKeeps(h: Hashing, s: System, t: Id, tx: Tx, view: Docs)
    requires Invariant(h, s) && t in s.txs && s.txs[t] == tx && tx.Registering? && tx.locked && tx.n < |tx.entries|
    requires RegisterOne(Seen(s.docs, tx), tx.entries[tx.n]) == Some(view)
    ensures Invariant(h, With(s, t, tx.(n := tx.n + 1, locked := false, view := view)))
  {
    assert TxOk(h, s.docs, s.generations, tx);
    WorkedTx(h, s, tx, view);
    WithKeeps(h, s, t, tx.(n := tx.n + 1, locked := false, view := view));
  }

  predicate Working(s: System, t: Id) {
    t in s.txs && s.txs[t].Registering? && s.txs[t].locked && s.txs[t].n < |s.txs[t].entries|
  }

  lemma WorkIs(s: System, t: Id)
    requires Working(s, t)
    ensures var tx := s.txs[t];
            var view := RegisterOne(Seen(s.docs, tx), tx.entries[tx.n]);
            WorkRegister(s, t, tx) == if view.None? then
              Over(s, t) else With(s, t, tx.(n := tx.n + 1, locked := false, view := view.value))
  {
  }

  lemma WorkRegisterKeeps(h: Hashing, s: System, t: Id, n: System)
    requires Invariant(h, s) && Working(s, t) && n == WorkRegister(s, t, s.txs[t])
    ensures Invariant(h, n)
  {
    var tx := s.txs[t];
    var view := RegisterOne(Seen(s.docs, tx), tx.entries[tx.n]);
    WorkIs(s, t);
    if view.None? {
      AbortKeeps(h, s, t);
    } else {
      WorkedKeeps(h, s, t, tx, view.value);
    }
  }

  lemma WorkIngestKeeps(h: Hashing, s: System, t: Id, embedded: bool)
    requires Invariant(h, s) && t in s.txs && s.txs[t].Ingesting? && s.txs[t].stage.Checking?
    ensures Invariant(h, Apply(h, s, Work(t, embedded)))
  {
    var q := s.txs[t].request;
    match CheckIngest(h, s.docs, s.generations, q, embedded)
    case Refused(_) => AbortKeeps(h, s, t);
    case AlreadyIndexed => WithKeeps(h, s, t, Ingesting(q, Finished));
    case ToIndex(chunks) =>
      CheckedIsExact(h, s, q, embedded);
      WithKeeps(h, s, t, Ingesting(q, Publishing(chunks)));
  }

  lemma CommitRegisterKeeps(h: Hashing, s: System, t: Id)
    requires Invariant(h, s) && t in s.txs && s.txs[t].Registering?
    ensures Invariant(h, Over(s.(docs := Seen(s.docs, s.txs[t])), t))
  {
    var tx, after := s.txs[t], Seen(s.docs, s.txs[t]);
    assert TxOk(h, s.docs, s.generations, tx);
    LocksFreed(s, t);
    forall key ensures DocumentOk(h, after, key) && GrowsAt(s.docs, after, key) {
      SeenOk(h, s.docs, tx, key);
    }
    forall g | g in s.generations ensures GenerationOk(h, after, g, s.generations[g]) {
      GenerationStays(h, s.docs, after, g, s.generations[g]);
    }
    forall u | u in s.txs && u != t ensures TxOk(h, after, s.generations, s.txs[u]) {
      assert TxOk(h, s.docs, s.generations, s.txs[u]);
      ViewStays(h, s, t, u);
      IngestStays(h, s, t, u);
    }
  }

  lemma CommitIngestKeeps(h: Hashing, s: System, t: Id)
    requires Invariant(h, s) && t in s.txs && s.txs[t].Ingesting? && s.txs[t].stage.Publishing?
    ensures var q := s.txs[t].request;
            Invariant(h, Over(s.(generations := s.generations[(q.key, q.profile) := s.txs[t].stage.chunks]), t))
  {
    var q := s.txs[t].request;
    var generations := s.generations[(q.key, q.profile) := s.txs[t].stage.chunks];
    assert TxOk(h, s.docs, s.generations, s.txs[t]);
    LocksFreed(s, t);
    forall u | u in s.txs && u != t ensures TxOk(h, s.docs, generations, s.txs[u]) {
      assert TxOk(h, s.docs, s.generations, s.txs[u]);
      PublishExcludes(h, s, t, u);
    }
  }

  lemma BeginKeeps(h: Hashing, s: System, t: Id, tx: Tx)
    requires Invariant(h, s) && t !in s.txs
    requires if tx.Registering? then Registrable(h, tx.entries) && tx.n == 0 && !tx.locked else tx.stage.WantDocument?
    ensures Invariant(h, With(s, t, tx))
  {
    LocksStay(s, t, tx);
  }

  lemma CommitKeeps(h: Hashing, s: System, t: Id)
    requires Invariant(h, s) && t in s.txs
    ensures Invariant(h, Apply(h, s, Commit(t)))
  {
    if s.txs[t].Registering? {
      CommitRegisterKeeps(h, s, t);
    } else if s.txs[t].stage.Publishing? {
      CommitIngestKeeps(h, s, t);
    } else {
      AbortKeeps(h, s, t);
    }
  }

  lemma StepKeeps(h: Hashing, s: System, step: Step)
    requires Invariant(h, s)
    ensures Invariant(h, Apply(h, s, step))
  {
    match step
    case BeginRegister(t, entries) =>
      if t !in s.txs && Registrable(h, entries) { BeginKeeps(h, s, t, Registering(entries, 0, false, map[])); }
    case BeginIngest(t, q) => if t !in s.txs { BeginKeeps(h, s, t, Ingesting(q, WantDocument)); }
    case Acquire(t) =>
      if t in s.txs && Wanted(s.txs[t]).Some? && Wanted(s.txs[t]).value !in s.locks { AcquireKeeps(h, s, t); }
    case Work(t, embedded) =>
      if t in s.txs {
        if Working(s, t) { WorkRegisterKeeps(h, s, t, WorkRegister(s, t, s.txs[t])); }
        if s.txs[t].Ingesting? && s.txs[t].stage.Checking? { WorkIngestKeeps(h, s, t, embedded); }
      }
    case Commit(t) => if t in s.txs { CommitKeeps(h, s, t); }
    case Abort(t) => AbortKeeps(h, s, t);
  }

  lemma {:induction false} RunKeeps(h: Hashing, s: System, steps: seq<Step>)
    requires Invariant(h, s)
    ensures Invariant(h, Run(h, s, steps))
  {
    if steps != [] {
      RunKeeps(h, s, steps[..|steps| - 1]);
      StepKeeps(h, Run(h, s, steps[..|steps| - 1]), steps[|steps| - 1]);
    }
  }

  lemma Reachable(h: Hashing, steps: seq<Step>)
    ensures Invariant(h, Run(h, Init, steps))
  {
    RunKeeps(h, Init, steps);
  }

  /** In every reachable state a registered document has exactly one active version. */
  lemma ExactlyOneActive(h: Hashing, steps: seq<Step>, key: DocKey) returns (active: DocKey)
    requires key in Run(h, Init, steps).docs
    ensures var docs := Run(h, Init, steps).docs;
            && SameDocument(active, key) && ActiveAt(docs, active)
            && forall k :: SameDocument(k, key) && ActiveAt(docs, k) ==> k == active
  {
    Reachable(h, steps);
    var docs := Run(h, Init, steps).docs;
    assert DocumentOk(h, docs, key) && SameDocument(key, key);
    active :| SameDocument(active, key) && ActiveAt(docs, active);
  }

  /** Every committed generation is exactly the chunks of its document. */
  lemma GenerationsAreExact(h: Hashing, steps: seq<Step>, key: DocKey, profile: string)
    requires (key, profile) in Run(h, Init, steps).generations
    ensures var s := Run(h, Init, steps);
            key in s.docs && Chunkable(h, s.docs[key].doc)
              && s.generations[(key, profile)] == Chunks(h, s.docs[key].doc, profile)
  {
    Reachable(h, steps);
    var s := Run(h, Init, steps);
    assert GenerationOk(h, s.docs, (key, profile), s.generations[(key, profile)]);
    assert DocumentOk(h, s.docs, key) && SameDocument(key, key);
  }

  /** A generation is only ever published while its document is active: the document's lock is held until then. */
  lemma PublishedWhileActive(h: Hashing, steps: seq<Step>, t: Id)
    requires var s := Run(h, Init, steps); t in s.txs && s.txs[t].Ingesting? && s.txs[t].stage.Publishing?
    ensures var s := Run(h, Init, steps);
            ActiveAt(s.docs, s.txs[t].request.key) && (s.txs[t].request.key, s.txs[t].request.profile) !in s.generations
  {
    Reachable(h, steps);
    var s := Run(h, Init, steps);
    assert TxOk(h, s.docs, s.generations, s.txs[t]);
  }

  /** No deadlock in any reachable state: as long as transactions are under way, one of them can go on. */
  lemma AlwaysProgress(h: Hashing, steps: seq<Step>) returns (t: Id)
    requires Run(h, Init, steps).txs != map[]
    ensures var s := Run(h, Init, steps); t in s.txs && Apply(h, s, NextStep(s.txs[t], t)) != s
  {
    Reachable(h, steps);
    t := NoDeadlock(h, Run(h, Init, steps));
  }

  lemma StepGrows(h: Hashing, s: System, step: Step, key: DocKey)
    requires Invariant(h, s)
    ensures GrowsAt(s.docs, Apply(h, s, step).docs, key)
  {
    if Publishes(s, step) {
      CommitGrows(h, s, step.tx, key);
    } else {
      DocsStay(h, s, step);
    }
  }

  /** The step commits a registration. */
  predicate Publishes(s: System, step: Step) {
    && step.Commit? && step.tx in s.txs && s.txs[step.tx].Registering?
    && s.txs[step.tx].n == |s.txs[step.tx].entries|
  }

  lemma CommitGrows(h: Hashing, s: System, t: Id, key: DocKey)
    requires Invariant(h, s) && Publishes(s, Commit(t))
    ensures GrowsAt(s.docs, Apply(h, s, Commit(t)).docs, key)
  {
    assert TxOk(h, s.docs, s.generations, s.txs[t]);
    SeenOk(h, s.docs, s.txs[t], key);
  }

  lemma DocsStay(h: Hashing, s: System, step: Step)
    requires !Publishes(s, step)
    ensures Apply(h, s, step).docs == s.docs
  {
  }

  /** A version keeps its content for good, and once retired never becomes active again. */
  lemma {:induction false} VersionsNeverReturn(h: Hashing, s: System, steps: seq<Step>, key: DocKey)
    requires Invariant(h, s) && key in s.docs
    ensures key in Run(h, s, steps).docs && SameText(s.docs[key], Run(h, s, steps).docs[key])
  {
    if steps != [] {
      var init := steps[..|steps| - 1];
      VersionsNeverReturn(h, s, init, key);
      RunKeeps(h, s, init);
      StepGrows(h, Run(h, s, init), steps[|steps| - 1], key);
      assert SameDocument(key, key);
    }
  }
}
