/** The knowledge store's tables, and what each transaction does to them. */
module StoreTables {
  import opened Options

  datatype Collection = Collection(name: string, status: string, deletedAt: Option<int>)

  datatype Document = Document(
    cid: int,
    name: string,
    path: string,
    sha: string,
    status: string,
    nChunks: nat,
    deletedAt: Option<int>,
    error: Option<string>)

  /** The UNIQUE key of a chunk. */
  datatype Slot = Slot(doc: int, ord: int)

  datatype Chunk = Chunk(cid: int, text: string)

  datatype Tables = Tables(collections: map<int, Collection>, documents: map<int, Document>, chunks: map<Slot, Chunk>)

  /** One transaction. New row ids are any ids not now in the table. */
  datatype Step =
    | CreateCollection(id: int, name: string)
    | UpdateCollection(id: int, name: string)
    | SetCollectionStatus(id: int, status: string)
    | TrashCollection(id: int, now: int)
    | RestoreCollection(id: int)
    | InsertDocument(id: int, cid: int, name: string, path: string, sha: string, deduplicate: bool)
    | ReplaceIndex(id: int, name: string, path: string, sha: string, texts: seq<string>, vectors: nat)
    | MarkFailed(id: int, error: string)
    | TrashDocument(id: int, now: int)
    | RestoreDocument(id: int)
    | DeleteDocument(id: int)
    | DeleteCollection(id: int)
    | Purge(cutoff: int)

  predicate Fresh(t: Tables, step: Step) {
    match step
    case CreateCollection(id, _) => id !in t.collections
    case InsertDocument(id, _, _, _, _, _) => id !in t.documents
    case _ => true
  }

  predicate ActiveCollection(t: Tables, cid: int) {
    cid in t.collections && t.collections[cid].deletedAt.None?
  }

  predicate TrashedCollection(t: Tables, cid: int) {
    cid in t.collections && t.collections[cid].deletedAt.Some?
  }

  predicate ActiveDocument(t: Tables, id: int) {
    id in t.documents && t.documents[id].deletedAt.None?
  }

  // ---- Trash and restore ----

  /** The deletion times already used by documents of a collection. */
  function Stamps(t: Tables, cid: int): set<int> {
    set d | d in t.documents && t.documents[d].cid == cid && t.documents[d].deletedAt.Some? :: t.documents[d].deletedAt.value
  }

  function NotBefore(stamps: set<int>, now: int): set<int> {
    set s | s in stamps && s >= now
  }

  /** The first time from `now` on that is not used. */
  function Unused(stamps: set<int>, now: int): (m: int)
    ensures m >= now && m !in stamps && forall k :: now <= k < m ==> k in stamps
    decreases NotBefore(stamps, now)
  {
    if now in stamps then
      assert now in NotBefore(stamps, now) && now !in NotBefore(stamps, now + 1);
      Unused(stamps, now + 1)
    else now
  }

  function Stamp(d: Document, cid: int, at: int): Document {
    if d.cid == cid && d.deletedAt.None? then d.(deletedAt := Some(at)) else d
  }

  function Unstamp(d: Document, cid: int, at: int): Document {
    if d.cid == cid && d.deletedAt == Some(at) then d.(deletedAt := None) else d
  }

  function Trash(t: Tables, cid: int, now: int): Tables
    requires ActiveCollection(t, cid)
  {
    var marker := Unused(Stamps(t, cid), now);
    t.(collections := t.collections[cid := t.collections[cid].(deletedAt := Some(marker))],
       documents := map d | d in t.documents :: Stamp(t.documents[d], cid, marker))
  }

  function Restore(t: Tables, cid: int): Tables
    requires TrashedCollection(t, cid)
  {
    var marker := t.collections[cid].deletedAt.value;
    t.(collections := t.collections[cid := t.collections[cid].(deletedAt := None)],
       documents := map d | d in t.documents :: Unstamp(t.documents[d], cid, marker))
  }

  // ---- Documents ----

  /** The active documents of a collection with a given content, apart from one. */
  function Twins(t: Tables, cid: int, sha: string, id: int): set<int> {
    set d | d in t.documents && d != id && ActiveDocument(t, d) && t.documents[d].cid == cid && t.documents[d].sha == sha
  }

  function ChunksWithout(t: Tables, docs: set<int>): map<Slot, Chunk> {
    map s | s in t.chunks && s.doc !in docs :: t.chunks[s]
  }

  function NewChunks(id: int, cid: int, texts: seq<string>): map<Slot, Chunk> {
    map s: Slot | s in Slots(id, |texts|) :: Chunk(cid, texts[s.ord])
  }

  function Slots(id: int, n: nat): (r: set<Slot>)
    ensures forall s :: s in r <==> s.doc == id && 0 <= s.ord < n
  {
    set ord | 0 <= ord < n :: Slot(id, ord)
  }

  function Reindex(t: Tables, id: int, name: string, path: string, sha: string, texts: seq<string>): Tables
    requires ActiveDocument(t, id)
  {
    var d := t.documents[id];
    Tables(
      if d.cid in t.collections then t.collections[d.cid := t.collections[d.cid].(status := "ready")] else t.collections,
      t.documents[id := d.(name := name, path := path, sha := sha, status := "ready", nChunks := |texts|, error := None)],
      ChunksWithout(t, {id}) + NewChunks(id, d.cid, texts))
  }

  /** Documents leave together with their chunks. */
  function Remove(t: Tables, docs: set<int>): Tables {
    t.(documents := t.documents - docs, chunks := ChunksWithout(t, docs))
  }

  predicate Restorable(t: Tables, id: int) {
    id in t.documents && t.documents[id].deletedAt.Some? && ActiveCollection(t, t.documents[id].cid)
  }

  function DocumentsOf(t: Tables, cid: int): set<int> {
    set d | d in t.documents && t.documents[d].cid == cid
  }

  // ---- Purge ----

  predicate Stale(deletedAt: Option<int>, cutoff: int) {
    deletedAt.Some? && deletedAt.value <= cutoff
  }

  function StaleCollections(t: Tables, cutoff: int): set<int> {
    set c | c in t.collections && Stale(t.collections[c].deletedAt, cutoff)
  }

  function StaleDocuments(t: Tables, cutoff: int): set<int> {
    set d | d in t.documents
      && (Stale(t.documents[d].deletedAt, cutoff) || t.documents[d].cid in StaleCollections(t, cutoff))
  }

  function PurgeAt(t: Tables, cutoff: int): Tables {
    var r := Remove(t, StaleDocuments(t, cutoff));
    r.(collections := t.collections - StaleCollections(t, cutoff))
  }

  /** The tables after a transaction; one that fails leaves them as they were. */
  function Apply(t: Tables, step: Step): Tables {
    match step
    case CreateCollection(id, name) => t.(collections := t.collections[id := Collection(name, "ready", None)])
    case UpdateCollection(id, name) =>
      if ActiveCollection(t, id) then t.(collections := t.collections[id := t.collections[id].(name := name)]) else t
    case SetCollectionStatus(id, status) =>
      if id in t.collections then t.(collections := t.collections[id := t.collections[id].(status := status)]) else t
    case TrashCollection(id, now) => if ActiveCollection(t, id) then Trash(t, id, now) else t
    case RestoreCollection(id) => if TrashedCollection(t, id) then Restore(t, id) else t
    case InsertDocument(id, cid, name, path, sha, deduplicate) =>
      if !ActiveCollection(t, cid) || (deduplicate && Twins(t, cid, sha, id) != {}) then t
      else t.(documents := t.documents[id := Document(cid, name, path, sha, "pending", 0, None, None)])
    case ReplaceIndex(id, name, path, sha, texts, vectors) =>
      if |texts| != vectors || texts == [] || !ActiveDocument(t, id) then t else Reindex(t, id, name, path, sha, texts)
    case MarkFailed(id, error) =>
      if id in t.documents
      then t.(documents := t.documents[id := t.documents[id].(status := "failed", error := Some(error))]) else t
    case TrashDocument(id, now) =>
      if ActiveDocument(t, id) then t.(documents := t.documents[id := t.documents[id].(deletedAt := Some(now))]) else t
    case RestoreDocument(id) =>
      if Restorable(t, id) && Twins(t, t.documents[id].cid, t.documents[id].sha, id) == {}
      then t.(documents := t.documents[id := t.documents[id].(deletedAt := None)]) else t
    case DeleteDocument(id) => if Restorable(t, id) then Remove(t, {id}) else t
    case DeleteCollection(id) =>
      if TrashedCollection(t, id) then Remove(t, DocumentsOf(t, id)).(collections := t.collections - {id}) else t
    case Purge(cutoff) => PurgeAt(t, cutoff)
  }
}
