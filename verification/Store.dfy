/** The knowledge store: each transaction step by step, as the statements it runs. */
module Store {
  import opened Options
  import opened StoreTables
  import opened StoreSafety
  import opened StoreLaws

  datatype RestoreOutcome = Restored | DuplicateActive(active: int) | NotFound

  /** `paths` are the storage paths of exactly the documents in `ids`, each once. */
  ghost predicate PathsOf(documents: map<int, Document>, ids: set<int>, paths: seq<string>) {
    exists order: seq<int> :: Lists(documents, ids, paths, order)
  }

  ghost predicate Lists(documents: map<int, Document>, ids: set<int>, paths: seq<string>, order: seq<int>) {
    && |paths| == |order|
    && (forall i, j :: 0 <= i < j < |order| ==> order[i] != order[j])
    && (forall d :: d in ids <==> d in order)
    && (forall i :: 0 <= i < |order| ==> order[i] in documents && paths[i] == documents[order[i]].path)
  }

  /** The rows of a query for storage paths, in whatever order they come. */
  method SelectPaths(documents: map<int, Document>, ids: set<int>) returns (paths: seq<string>)
    requires ids <= documents.Keys
    ensures PathsOf(documents, ids, paths)
  {
    paths := [];
    ghost var order := [];
    var rest := ids;
    while rest != {}
      invariant rest <= ids && Lists(documents, ids - rest, paths, order)
    {
      NonEmpty(rest);
      var d :| d in rest;
      rest := rest - {d};
      paths := paths + [documents[d].path];
      order := order + [d];
    }
    assert Lists(documents, ids, paths, order);
  }

  class Store {
    var collections: map<int, Collection>
    var documents: map<int, Document>
    var chunks: map<Slot, Chunk>

    ghost function Abs(): Tables
      reads this
    {
      Tables(collections, documents, chunks)
    }

    constructor ()
      ensures Abs() == EMPTY
    {
      collections, documents, chunks := map[], map[], map[];
    }

    method CreateCollection(id: int, name: string)
      requires id !in collections
      modifies this`collections
      ensures Abs() == Apply(old(Abs()), Step.CreateCollection(id, name))
    {
      collections := collections[id := Collection(name, "ready", None)];
    }

    method UpdateCollection(id: int, name: string) returns (found: bool)
      modifies this`collections
      ensures found == ActiveCollection(old(Abs()), id)
      ensures Abs() == Apply(old(Abs()), Step.UpdateCollection(id, name))
    {
      if id !in collections || collections[id].deletedAt.Some? {
        return false;
      }
      collections := collections[id := collections[id].(name := name)];
      return true;
    }

    method SetCollectionStatus(id: int, status: string)
      modifies this`collections
      ensures Abs() == Apply(old(Abs()), Step.SetCollectionStatus(id, status))
    {
      if id in collections {
        collections := collections[id := collections[id].(status := status)];
      }
    }

    method MarkDocumentFailed(id: int, error: string)
      modifies this`documents
      ensures Abs() == Apply(old(Abs()), Step.MarkFailed(id, error))
    {
      if id in documents {
        documents := documents[id := documents[id].(status := "failed", error := Some(error))];
      }
    }

    /** `trash_collection`: the deletion time is moved on until no document of the collection
        has it, and then marks the collection and the documents that go with it. */
    method TrashCollection(id: int, now: int) returns (found: bool)
      modifies this`collections, this`documents
      ensures found == ActiveCollection(old(Abs()), id)
      ensures Abs() == Apply(old(Abs()), Step.TrashCollection(id, now))
    {
      ghost var stamps := Stamps(Abs(), id);
      var timestamp := now;
      while exists d :: d in documents && documents[d].cid == id && documents[d].deletedAt == Some(timestamp)
        invariant timestamp >= now && Unused(stamps, timestamp) == Unused(stamps, now)
        decreases NotBefore(stamps, timestamp)
      {
        assert timestamp in NotBefore(stamps, timestamp) && timestamp !in NotBefore(stamps, timestamp + 1);
        timestamp := timestamp + 1;
      }
      assert timestamp !in stamps;
      if id !in collections || collections[id].deletedAt.Some? {
        return false;
      }
      collections := collections[id := collections[id].(deletedAt := Some(timestamp))];
      documents := map d | d in documents ::
        if documents[d].cid == id && documents[d].deletedAt.None?
        then documents[d].(deletedAt := Some(timestamp)) else documents[d];
      assert timestamp == Unused(stamps, now);
      assert forall d :: d in documents ==> documents[d] == Stamp(old(documents)[d], id, timestamp);
      assert documents == Trash(old(Abs()), id, now).documents;
      return true;
    }

    method RestoreCollection(id: int) returns (found: bool)
      modifies this`collections, this`documents
      ensures found == TrashedCollection(old(Abs()), id)
      ensures Abs() == Apply(old(Abs()), Step.RestoreCollection(id))
    {
      if id !in collections || collections[id].deletedAt.None? {
        return false;
      }
      var deletedAt := collections[id].deletedAt;
      collections := collections[id := collections[id].(deletedAt := None)];
      documents := map d | d in documents ::
        if documents[d].cid == id && documents[d].deletedAt == deletedAt
        then documents[d].(deletedAt := None) else documents[d];
      assert forall d :: d in documents ==> documents[d] == Unstamp(old(documents)[d], id, deletedAt.value);
      assert documents == Restore(old(Abs()), id).documents;
      return true;
    }

    /** `insert_document_with_deduplication`; `existing` is the document it found instead. */
    method InsertDocument(id: int, cid: int, name: string, path: string, sha: string, deduplicate: bool)
      returns (found: bool, existing: Option<int>)
      requires id !in documents
      modifies this`documents
      ensures found == ActiveCollection(old(Abs()), cid)
      ensures Abs() == Apply(old(Abs()), Step.InsertDocument(id, cid, name, path, sha, deduplicate))
      ensures var twins := Twins(old(Abs()), cid, sha, id);
        if found && deduplicate && twins != {}
        then existing.Some? && existing.value in twins && forall d :: d in twins ==> existing.value <= d
        else existing.None?
    {
      if cid !in collections || collections[cid].deletedAt.Some? {
        return false, None;
      }
      if deduplicate {
        existing := FirstTwin(cid, sha, id);
        if existing.Some? {
          return true, existing;
        }
      }
      documents := documents[id := Document(cid, name, path, sha, "pending", 0, None, None)];
      return true, None;
    }

    /** The active document of that content with the least id, apart from `id`. */
    method FirstTwin(cid: int, sha: string, id: int) returns (first: Option<int>)
      ensures var twins := Twins(Abs(), cid, sha, id);
        if twins == {} then first.None?
        else first.Some? && first.value in twins && forall d :: d in twins ==> first.value <= d
    {
      var rest := documents.Keys;
      first := None;
      ghost var twins := Twins(Abs(), cid, sha, id);
      while rest != {}
        invariant rest <= documents.Keys
        invariant first.None? ==> twins <= rest
        invariant first.Some? ==> first.value in twins && forall d :: d in twins && d !in rest ==> first.value <= d
      {
        NonEmpty(rest);
        var d :| d in rest;
        rest := rest - {d};
        var row := documents[d];
        if row.cid == cid && row.sha == sha && row.deletedAt.None? && d != id && (first.None? || d < first.value) {
          first := Some(d);
        }
      }
    }

    /** `replace_document_index`: the old chunks go before the new ones come. */
    method ReplaceDocumentIndex(id: int, name: string, path: string, sha: string, texts: seq<string>, vectors: nat)
      returns (ok: bool)
      modifies this
      ensures ok == (|texts| == vectors && texts != [] && ActiveDocument(old(Abs()), id))
      ensures Abs() == Apply(old(Abs()), Step.ReplaceIndex(id, name, path, sha, texts, vectors))
    {
      if |texts| != vectors || texts == [] {
        return false;
      }
      if id !in documents || documents[id].deletedAt.Some? {
        return false;
      }
      hide ChunksWithout, NewChunks;
      var cid := documents[id].cid;
      chunks := RemainingChunks({id});
      InsertChunks(id, cid, texts);
      documents := documents[id := documents[id].(name := name, path := path, sha := sha, status := "ready",
                                                  nChunks := |texts|, error := None)];
      if cid in collections {
        collections := collections[cid := collections[cid].(status := "ready")];
      }
      return true;
    }

    method InsertChunks(id: int, cid: int, texts: seq<string>)
      modifies this`chunks
      ensures chunks == old(chunks) + NewChunks(id, cid, texts)
    {
      hide NewChunks;
      NoChunks(id, cid, texts);
      var ord := 0;
      while ord < |texts|
        invariant 0 <= ord <= |texts| && chunks == old(chunks) + NewChunks(id, cid, texts[..ord])
      {
        chunks := chunks[Slot(id, ord) := Chunk(cid, texts[ord])];
        ord := ord + 1;
        AnotherChunk(id, cid, texts, ord);
      }
      assert texts[..ord] == texts;
    }

    method TrashDocument(id: int, now: int) returns (found: bool)
      modifies this`documents
      ensures found == ActiveDocument(old(Abs()), id)
      ensures Abs() == Apply(old(Abs()), Step.TrashDocument(id, now))
    {
      if id !in documents || documents[id].deletedAt.Some? {
        return false;
      }
      documents := documents[id := documents[id].(deletedAt := Some(now))];
      return true;
    }

    method RestoreDocument(id: int) returns (outcome: RestoreOutcome)
      modifies this`documents
      ensures outcome == NotFound <==> !Restorable(old(Abs()), id)
      ensures outcome.DuplicateActive? ==>
        outcome.active in Twins(old(Abs()), old(documents)[id].cid, old(documents)[id].sha, id)
      ensures outcome == Restored ==> Twins(old(Abs()), old(documents)[id].cid, old(documents)[id].sha, id) == {}
      ensures Abs() == Apply(old(Abs()), Step.RestoreDocument(id))
    {
      if id !in documents || documents[id].deletedAt.None? {
        return NotFound;
      }
      var cid := documents[id].cid;
      if cid !in collections || collections[cid].deletedAt.Some? {
        return NotFound;
      }
      var duplicate := FirstTwin(cid, documents[id].sha, id);
      if duplicate.Some? {
        return DuplicateActive(duplicate.value);
      }
      documents := documents[id := documents[id].(deletedAt := None)];
      return Restored;
    }

    method PermanentlyDeleteDocument(id: int) returns (path: Option<string>)
      modifies this`documents, this`chunks
      ensures path == if Restorable(old(Abs()), id) then Some(old(documents)[id].path) else None
      ensures Abs() == Apply(old(Abs()), Step.DeleteDocument(id))
    {
      if id !in documents || documents[id].deletedAt.None? {
        return None;
      }
      var cid := documents[id].cid;
      if cid !in collections || collections[cid].deletedAt.Some? {
        return None;
      }
      path := Some(documents[id].path);
      chunks := RemainingChunks({id});
      documents := documents - {id};
    }

    /** `permanently_delete_collection`: its documents go with it, and their paths are returned. */
    method PermanentlyDeleteCollection(id: int) returns (found: bool, paths: seq<string>)
      modifies this
      ensures found == TrashedCollection(old(Abs()), id)
      ensures found ==> PathsOf(old(documents), old(documents.Keys) - documents.Keys, paths)
      ensures Abs() == Apply(old(Abs()), Step.DeleteCollection(id))
    {
      if id !in collections || collections[id].deletedAt.None? {
        return false, [];
      }
      var gone := set d | d in documents && documents[d].cid == id;
      paths := SelectPaths(documents, gone);
      chunks := RemainingChunks(gone);
      documents := documents - gone;
      collections := collections - {id};
      assert old(documents.Keys) - documents.Keys == gone;
      return true, paths;
    }

    /** `purge_expired_trash` returns the storage paths of exactly the documents it removes. */
    method PurgeExpiredTrash(cutoff: int) returns (paths: seq<string>)
      requires Integrity(Abs())
      modifies this
      ensures PathsOf(old(documents), old(documents.Keys) - documents.Keys, paths)
      ensures Abs() == Apply(old(Abs()), Step.Purge(cutoff))
      ensures forall d :: d in old(documents) ==> (d !in documents <==> (
        || (old(documents)[d].deletedAt.Some? && old(documents)[d].deletedAt.value <= cutoff)
        || (HomeTime(old(Abs()), d).Some? && HomeTime(old(Abs()), d).value <= cutoff)))
      ensures forall c :: c in old(collections) ==> (c !in collections <==>
        old(collections)[c].deletedAt.Some? && old(collections)[c].deletedAt.value <= cutoff)
      ensures forall d :: d in documents ==> d in old(documents) && documents[d] == old(documents)[d]
      ensures forall c :: c in collections ==> c in old(collections) && collections[c] == old(collections)[c]
      ensures forall s :: s in chunks <==> s in old(chunks) && s.doc in documents
      ensures forall s :: s in chunks ==> chunks[s] == old(chunks)[s]
    {
      hide Integrity, ChunksWithout, HomeTime;
      ghost var before := Abs();
      StaleJoin(before, cutoff);
      var joined := set d | d in documents && documents[d].cid in collections
        && (Stale(documents[d].deletedAt, cutoff) || Stale(collections[documents[d].cid].deletedAt, cutoff));
      paths := SelectPaths(documents, joined);
      assert joined == StaleDocuments(Abs(), cutoff);
      chunks := RemainingChunks(joined);
      var expired := set c | c in collections && Stale(collections[c].deletedAt, cutoff);
      assert expired == StaleCollections(old(Abs()), cutoff);
      documents := map d | d in documents
        && !(Stale(documents[d].deletedAt, cutoff) || documents[d].cid in expired) :: documents[d];
      assert documents == old(documents) - joined;
      collections := collections - expired;
      assert old(documents.Keys) - documents.Keys == joined;
      PurgeMeans(before, cutoff);
    }

    /** The chunks left by a DELETE for a set of documents. */
    function RemainingChunks(docs: set<int>): map<Slot, Chunk>
      reads this
      ensures RemainingChunks(docs) == ChunksWithout(Abs(), docs)
    {
      map s | s in chunks && s.doc !in docs :: chunks[s]
    }
  }

  lemma NonEmpty(ids: set<int>)
    ensures ids == {} || exists d :: d in ids
  {
    if !exists d :: d in ids {
      assert forall d: int :: d !in ids;
      assert ids == {};
    }
  }

  lemma PurgeMeans(t: Tables, cutoff: int)
    requires Integrity(t)
    ensures var u := PurgeAt(t, cutoff);
      && (forall d :: d in t.documents ==> (d !in u.documents <==> (
           || (t.documents[d].deletedAt.Some? && t.documents[d].deletedAt.value <= cutoff)
           || (HomeTime(t, d).Some? && HomeTime(t, d).value <= cutoff))))
      && (forall c :: c in t.collections ==> (c !in u.collections <==>
           t.collections[c].deletedAt.Some? && t.collections[c].deletedAt.value <= cutoff))
      && (forall d :: d in u.documents ==> d in t.documents && u.documents[d] == t.documents[d])
      && (forall c :: c in u.collections ==> c in t.collections && u.collections[c] == t.collections[c])
      && (forall s :: s in u.chunks <==> s in t.chunks && s.doc in u.documents)
      && (forall s :: s in u.chunks ==> u.chunks[s] == t.chunks[s])
  {
    HomesOf(t);
    assert forall s :: s in t.chunks ==> s.doc in t.documents;
    hide Integrity;
  }

  /** As every document is in a collection, joining the two tables loses none. */
  lemma StaleJoin(t: Tables, cutoff: int)
    requires Integrity(t)
    ensures StaleDocuments(t, cutoff) == set d | d in t.documents && t.documents[d].cid in t.collections
        && (Stale(t.documents[d].deletedAt, cutoff) || Stale(t.collections[t.documents[d].cid].deletedAt, cutoff))
  {
    HomesOf(t);
    hide Integrity;
    var joined := set d | d in t.documents && t.documents[d].cid in t.collections
      && (Stale(t.documents[d].deletedAt, cutoff) || Stale(t.collections[t.documents[d].cid].deletedAt, cutoff));
    forall d | d in t.documents
      ensures d in StaleDocuments(t, cutoff) <==> d in joined
    {
      assert Homed(t, d);
    }
    assert StaleDocuments(t, cutoff) == joined;
  }

  lemma NoChunks(id: int, cid: int, texts: seq<string>)
    ensures NewChunks(id, cid, texts[..0]) == map[]
  {
  }

  lemma AnotherChunk(id: int, cid: int, texts: seq<string>, ord: nat)
    requires 0 < ord <= |texts|
    ensures NewChunks(id, cid, texts[..ord])
         == NewChunks(id, cid, texts[..ord - 1])[Slot(id, ord - 1) := Chunk(cid, texts[ord - 1])]
  {
  }
}
