/** What every sequence of store transactions keeps. */
module StoreSafety {
  import opened StoreTables

  const EMPTY := Tables(map[], map[], map[])

  // ---- Integrity ----

  /** Every document is in a collection, and one in the bin holds no active document. */
  predicate Homed(t: Tables, id: int)
    requires id in t.documents
  {
    var d := t.documents[id];
    d.cid in t.collections && (t.collections[d.cid].deletedAt.Some? ==> d.deletedAt.Some?)
  }

  predicate DocumentOk(t: Tables, id: int)
    requires id in t.documents
  {
    Homed(t, id) && forall ord :: 0 <= ord < t.documents[id].nChunks ==> Slot(id, ord) in t.chunks
  }

  predicate ChunkOk(t: Tables, s: Slot)
    requires s in t.chunks
  {
    && s.doc in t.documents && t.chunks[s].cid == t.documents[s.doc].cid
    && 0 <= s.ord < t.documents[s.doc].nChunks
  }

  /** No document or chunk is orphaned, chunks carry the collection of their document, and
      their order numbers are exactly those below its chunk count. */
  predicate Integrity(t: Tables) {
    && (forall d :: d in t.documents ==> DocumentOk(t, d))
    && (forall s :: s in t.chunks ==> ChunkOk(t, s))
  }

  lemma TrashKeepsIntegrity(t: Tables, cid: int, now: int)
    requires Integrity(t) && ActiveCollection(t, cid)
    ensures Integrity(Trash(t, cid, now))
  {
  }

  lemma RestoreKeepsIntegrity(t: Tables, cid: int)
    requires Integrity(t) && TrashedCollection(t, cid)
    ensures Integrity(Restore(t, cid))
  {
  }

  lemma ReindexKeepsIntegrity(t: Tables, id: int, name: string, path: string, sha: string, texts: seq<string>)
    requires Integrity(t) && ActiveDocument(t, id)
    ensures Integrity(Reindex(t, id, name, path, sha, texts))
  {
  }

  lemma RemoveKeepsIntegrity(t: Tables, docs: set<int>)
    requires Integrity(t)
    ensures Integrity(Remove(t, docs))
  {
  }

  lemma ForgetKeepsIntegrity(t: Tables, cids: set<int>)
    requires Integrity(t) && forall d :: d in t.documents ==> t.documents[d].cid !in cids
    ensures Integrity(t.(collections := t.collections - cids))
  {
  }

  lemma PurgeKeepsIntegrity(t: Tables, cutoff: int)
    requires Integrity(t)
    ensures Integrity(PurgeAt(t, cutoff))
  {
  }

  /** One collection or one document changes where no chunk is concerned. */
  lemma RowKeepsIntegrity(t: Tables, u: Tables)
    requires Integrity(t) && u.chunks == t.chunks && t.collections.Keys <= u.collections.Keys
    requires t.documents.Keys <= u.documents.Keys
    requires forall d :: d in t.documents ==> u.documents[d].cid == t.documents[d].cid
    requires forall d :: d in t.documents ==> u.documents[d].nChunks == t.documents[d].nChunks
    requires forall d :: d in u.documents && d !in t.documents ==> u.documents[d].nChunks == 0
    requires forall d :: d in u.documents ==> Homed(u, d)
    ensures Integrity(u)
  {
  }

  lemma StepKeepsIntegrity(t: Tables, step: Step)
    requires Integrity(t) && Fresh(t, step)
    ensures Integrity(Apply(t, step))
  {
    hide Integrity, Trash, Restore, Reindex, PurgeAt, Twins, ChunksWithout;
    HomesOf(t);
    match step
    case TrashCollection(id, now) =>
      if ActiveCollection(t, id) { TrashKeepsIntegrity(t, id, now); }
    case RestoreCollection(id) =>
      if TrashedCollection(t, id) { RestoreKeepsIntegrity(t, id); }
    case ReplaceIndex(id, name, path, sha, texts, vectors) =>
      if ActiveDocument(t, id) { ReindexKeepsIntegrity(t, id, name, path, sha, texts); }
    case DeleteDocument(id) => RemoveKeepsIntegrity(t, {id});
    case DeleteCollection(id) =>
      RemoveKeepsIntegrity(t, DocumentsOf(t, id));
      ForgetKeepsIntegrity(Remove(t, DocumentsOf(t, id)), {id});
    case Purge(cutoff) => PurgeKeepsIntegrity(t, cutoff);
    case _ => RowKeepsIntegrity(t, Apply(t, step));
  }

  lemma HomesOf(t: Tables)
    requires Integrity(t)
    ensures forall d :: d in t.documents ==> Homed(t, d)
  {
  }

  // ---- Live documents ----

  /** Active in an active collection, or put into the bin together with it. */
  predicate Live(t: Tables, id: int) {
    && id in t.documents && t.documents[id].cid in t.collections
    && t.documents[id].deletedAt == t.collections[t.documents[id].cid].deletedAt
  }

  /** Trashing a collection and restoring it leave the same documents live. */
  lemma TrashKeepsLive(t: Tables, cid: int, now: int, id: int)
    requires Integrity(t) && ActiveCollection(t, cid)
    ensures Live(Trash(t, cid, now), id) <==> Live(t, id)
  {
  }

  lemma RestoreKeepsLive(t: Tables, cid: int, id: int)
    requires Integrity(t) && TrashedCollection(t, cid)
    ensures Live(Restore(t, cid), id) <==> Live(t, id)
  {
  }

  /** No two live documents of a collection have the same content. */
  ghost predicate Unique(t: Tables) {
    forall d, e :: Live(t, d) && Live(t, e) && SameContent(t, d, e) ==> d == e
  }

  predicate SameContent(t: Tables, d: int, e: int) {
    && d in t.documents && e in t.documents
    && t.documents[d].cid == t.documents[e].cid && t.documents[d].sha == t.documents[e].sha
  }

  /** Exactly the steps that give an active document a twin: an insert without deduplication
      and a new index, when another active document of the collection has that content. */
  predicate MakesTwin(t: Tables, step: Step) {
    match step
    case InsertDocument(id, cid, name, path, sha, deduplicate) =>
      ActiveCollection(t, cid) && !deduplicate && Twins(t, cid, sha, id) != {}
    case ReplaceIndex(id, name, path, sha, texts, vectors) =>
      ActiveDocument(t, id) && |texts| == vectors && texts != [] && Twins(t, t.documents[id].cid, sha, id) != {}
    case _ => false
  }

  /** What is live in `u` was live in `t`, with the same collection and content. */
  predicate LiveBefore(t: Tables, u: Tables, d: int) {
    Live(u, d) ==>
      Live(t, d) && u.documents[d].cid == t.documents[d].cid && u.documents[d].sha == t.documents[d].sha
  }

  /** A step after which every live document was live before, with the same collection and content. */
  lemma FewerUnique(t: Tables, u: Tables)
    requires Unique(t)
    requires forall d: int :: LiveBefore(t, u, d)
    ensures Unique(u)
  {
    forall d, e | Live(u, d) && Live(u, e) && SameContent(u, d, e)
      ensures d == e
    {
      assert LiveBefore(t, u, d) && LiveBefore(t, u, e);
      assert SameContent(t, d, e);
    }
  }

  /** A document that becomes live, or changes its content, has no twin. */
  lemma NewUnique(t: Tables, u: Tables, id: int)
    requires Unique(t) && Integrity(t) && id in u.documents && ActiveCollection(t, u.documents[id].cid)
    requires forall d: int :: d != id ==> LiveBefore(t, u, d)
    requires Twins(t, u.documents[id].cid, u.documents[id].sha, id) == {}
    ensures Unique(u)
  {
    hide Integrity;
    var cid, sha := u.documents[id].cid, u.documents[id].sha;
    forall d | d != id && Live(u, d)
      ensures !SameContent(u, d, id)
    {
      assert LiveBefore(t, u, d);
      assert d !in Twins(t, cid, sha, id);
    }
    forall d, e | Live(u, d) && Live(u, e) && SameContent(u, d, e) && d != id && e != id
      ensures d == e
    {
      assert LiveBefore(t, u, d) && LiveBefore(t, u, e);
      assert SameContent(t, d, e);
    }
  }

  lemma TwinBreaks(t: Tables, step: Step)
    requires Integrity(t) && Fresh(t, step) && MakesTwin(t, step)
    ensures !Unique(Apply(t, step))
  {
    HomesOf(t);
    hide Integrity;
    var u := Apply(t, step);
    var cid := if step.InsertDocument? then step.cid else t.documents[step.id].cid;
    var twin :| twin in Twins(t, cid, step.sha, step.id);
    assert Live(u, twin) && Live(u, step.id);
  }

  /** From a state without twins, a transaction leads to twins exactly if it makes one. */
  lemma UniqueExactly(t: Tables, step: Step)
    requires Integrity(t) && Unique(t) && Fresh(t, step)
    ensures Unique(Apply(t, step)) <==> !MakesTwin(t, step)
  {
    if MakesTwin(t, step) {
      TwinBreaks(t, step);
    } else {
      StepUnique(t, step);
    }
  }

  lemma StepUnique(t: Tables, step: Step)
    requires Integrity(t) && Unique(t) && Fresh(t, step) && !MakesTwin(t, step)
    ensures Unique(Apply(t, step))
  {
    HomesOf(t);
    var u := Apply(t, step);
    hide Integrity, Unique, Trash, Restore, Stamps, Twins;
    match step
    case TrashCollection(id, now) => TrashUnique(t, id, now);
    case RestoreCollection(id) => RestoreUnique(t, id);
    case InsertDocument(id, cid, name, path, sha, deduplicate) =>
      if u != t { NewUnique(t, u, id); }
    case ReplaceIndex(id, name, path, sha, texts, vectors) =>
      if u != t { NewUnique(t, u, id); }
    case RestoreDocument(id) =>
      if u != t { NewUnique(t, u, id); }
    case _ => FewerUnique(t, u);
  }

  lemma TrashUnique(t: Tables, id: int, now: int)
    requires Integrity(t) && Unique(t)
    ensures Unique(Apply(t, TrashCollection(id, now)))
  {
    hide Integrity, Unique, Live, Unused, Stamps;
    if ActiveCollection(t, id) {
      forall d: int
        ensures LiveBefore(t, Trash(t, id, now), d)
      {
        TrashKeepsLive(t, id, now, d);
        LiveIn(t);
      }
      FewerUnique(t, Trash(t, id, now));
    }
  }

  lemma RestoreUnique(t: Tables, id: int)
    requires Integrity(t) && Unique(t)
    ensures Unique(Apply(t, RestoreCollection(id)))
  {
    hide Integrity, Unique, Live;
    if TrashedCollection(t, id) {
      forall d: int
        ensures LiveBefore(t, Restore(t, id), d)
      {
        RestoreKeepsLive(t, id, d);
        LiveIn(t);
      }
      FewerUnique(t, Restore(t, id));
    }
  }

  lemma LiveIn(t: Tables)
    ensures forall d :: Live(t, d) ==> d in t.documents
  {
  }

  // ---- Runs ----

  ghost predicate IsRun(states: seq<Tables>, steps: seq<Step>) {
    && |states| == |steps| + 1 && states[0] == EMPTY
    && forall i :: 0 <= i < |steps| ==> StepAt(states, steps, i)
  }

  predicate StepAt(states: seq<Tables>, steps: seq<Step>, i: nat)
    requires |states| == |steps| + 1 && i < |steps|
  {
    Fresh(states[i], steps[i]) && states[i + 1] == Apply(states[i], steps[i])
  }

  lemma {:induction false} RunKeepsIntegrity(states: seq<Tables>, steps: seq<Step>, n: nat)
    requires IsRun(states, steps) && n < |states|
    ensures Integrity(states[n])
  {
    hide Integrity, Apply, Fresh;
    if n == 0 {
      EmptyIsSound();
    } else {
      RunKeepsIntegrity(states, steps, n - 1);
      assert StepAt(states, steps, n - 1);
      StepKeepsIntegrity(states[n - 1], steps[n - 1]);
    }
  }

  lemma EmptyIsSound()
    ensures Integrity(EMPTY) && Unique(EMPTY)
  {
  }

  /** Inserts deduplicate, and a new index keeps the content's hash. */
  predicate Careful(t: Tables, step: Step) {
    && (step.InsertDocument? ==> step.deduplicate)
    && (step.ReplaceIndex? && step.id in t.documents ==> step.sha == t.documents[step.id].sha)
  }

  lemma CarefulMakesNoTwin(t: Tables, step: Step)
    requires Integrity(t) && Unique(t) && Careful(t, step)
    ensures !MakesTwin(t, step)
  {
    HomesOf(t);
    hide Integrity;
    if step.ReplaceIndex? && ActiveDocument(t, step.id) {
      var d := t.documents[step.id];
      forall twin | twin != step.id && ActiveDocument(t, twin) && t.documents[twin].cid == d.cid
        ensures t.documents[twin].sha != d.sha
      {
        NotTwins(t, twin, step.id);
      }
    }
  }

  lemma NotTwins(t: Tables, d: int, e: int)
    requires Unique(t) && Live(t, d) && Live(t, e) && d != e
    ensures !SameContent(t, d, e)
  {
  }

  /** Over careful runs no two active documents of a collection ever share a content hash. */
  lemma {:induction false} CarefulRunUnique(states: seq<Tables>, steps: seq<Step>, n: nat)
    requires IsRun(states, steps) && n < |states|
    requires forall i :: 0 <= i < n ==> Careful(states[i], steps[i])
    ensures Unique(states[n])
    ensures var t := states[n];
      forall d, e :: ActiveDocument(t, d) && ActiveDocument(t, e) && d != e ==> !SameContent(t, d, e)
  {
    RunKeepsIntegrity(states, steps, n);
    if n == 0 {
      EmptyIsSound();
    } else {
      var t, step := states[n - 1], steps[n - 1];
      CarefulRunUnique(states, steps, n - 1);
      RunKeepsIntegrity(states, steps, n - 1);
      assert StepAt(states, steps, n - 1);
      hide Integrity, Apply, Fresh, Unique;
      CarefulMakesNoTwin(t, step);
      StepUnique(t, step);
    }
    ActiveUnique(states[n]);
  }

  lemma ActiveUnique(t: Tables)
    requires Integrity(t) && Unique(t)
    ensures forall d, e :: ActiveDocument(t, d) && ActiveDocument(t, e) && d != e ==> !SameContent(t, d, e)
  {
  }

  /** A new index with another document's content is not caught: four steps from the empty
      store lead to two active documents of one collection with one content hash. */
  lemma ReplaceMayDuplicate() returns (states: seq<Tables>, steps: seq<Step>)
    ensures IsRun(states, steps) && |steps| == 4
    ensures forall i :: 0 <= i < 4 ==> steps[i].InsertDocument? ==> steps[i].deduplicate
    ensures ActiveDocument(states[4], 1) && ActiveDocument(states[4], 2)
    ensures states[4].documents[1].cid == states[4].documents[2].cid
    ensures states[4].documents[1].sha == states[4].documents[2].sha
  {
    steps := [
      CreateCollection(7, "team"),
      InsertDocument(1, 7, "a", "p1", "one", true),
      InsertDocument(2, 7, "b", "p2", "two", true),
      ReplaceIndex(2, "b", "p2", "one", ["text"], 1)];
    var s1 := Apply(EMPTY, steps[0]);
    var s2 := Apply(s1, steps[1]);
    var s3 := Apply(s2, steps[2]);
    states := [EMPTY, s1, s2, s3, Apply(s3, steps[3])];
    assert StepAt(states, steps, 0) && StepAt(states, steps, 1) && StepAt(states, steps, 2) && StepAt(states, steps, 3);
  }
}
