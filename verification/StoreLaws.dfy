/** Every column of the store's tables, over all transactions of all runs: when a row comes and
    goes, and what its values become. */
module StoreLaws {
  import opened Options
  import opened StoreTables
  import opened StoreSafety

  /** Step `i` of a run leads from `t` to `u`. */
  ghost predicate Does(states: seq<Tables>, steps: seq<Step>, i: nat, t: Tables, step: Step, u: Tables) {
    IsRun(states, steps) && i < |steps| && states[i] == t && steps[i] == step && states[i + 1] == u
  }

  lemma Applied(states: seq<Tables>, steps: seq<Step>, i: nat, t: Tables, step: Step, u: Tables)
    requires Does(states, steps, i, t, step, u)
    ensures Integrity(t) && Fresh(t, step) && u == Apply(t, step)
    ensures forall d :: d in t.documents ==> t.documents[d].cid in t.collections
  {
    RunKeepsIntegrity(states, steps, i);
    HomesOf(t);
    assert StepAt(states, steps, i);
    hide IsRun, Integrity, Apply;
  }

  /** When the collection of a document went into the bin. */
  function HomeTime(t: Tables, d: int): Option<int>
    requires d in t.documents
  {
    var cid := t.documents[d].cid;
    if cid in t.collections then t.collections[cid].deletedAt else None
  }

  /** Another document than `d` is active in the collection and has the content. */
  predicate HasTwin(t: Tables, cid: int, sha: string, d: int) {
    exists e :: e in t.documents && e != d
      && t.documents[e].cid == cid && t.documents[e].sha == sha && t.documents[e].deletedAt.None?
  }

  lemma TwinsAre(t: Tables, cid: int, sha: string, d: int)
    ensures Twins(t, cid, sha, d) != {} <==> HasTwin(t, cid, sha, d)
  {
    if HasTwin(t, cid, sha, d) {
      var e :| e in t.documents && e != d
        && t.documents[e].cid == cid && t.documents[e].sha == sha && t.documents[e].deletedAt.None?;
      assert e in Twins(t, cid, sha, d);
    }
  }

  // ---- Documents ----

  /** A document goes exactly by a purge, when its own deletion time or its collection's is not
      after the cutoff; by its removal from the bin, while its collection is active; or with its
      collection, when that is removed from the bin. */
  lemma DocumentGoes(states: seq<Tables>, steps: seq<Step>, i: nat, t: Tables, step: Step, u: Tables, d: int)
    requires Does(states, steps, i, t, step, u) && d in t.documents
    ensures var own, home := t.documents[d].deletedAt, HomeTime(t, d);
      d !in u.documents <==>
        || (step.Purge? && ((own.Some? && own.value <= step.cutoff) || (home.Some? && home.value <= step.cutoff)))
        || (step == DeleteDocument(d) && own.Some? && home.None?)
        || (step == DeleteCollection(t.documents[d].cid) && home.Some?)
  {
    Applied(states, steps, i, t, step, u);
    hide Does, Integrity, Unused, Stamps, Twins, ChunksWithout, NewChunks;
  }

  /** It comes exactly by an insert into an active collection, which with deduplication must have
      no active document of the same content. */
  lemma DocumentComes(states: seq<Tables>, steps: seq<Step>, i: nat, t: Tables, step: Step, u: Tables, d: int)
    requires Does(states, steps, i, t, step, u) && d !in t.documents
    ensures d in u.documents <==>
      && step.InsertDocument? && step.id == d
      && step.cid in t.collections && t.collections[step.cid].deletedAt.None?
      && (step.deduplicate ==> !HasTwin(t, step.cid, step.sha, d))
    ensures d in u.documents ==>
      u.documents[d] == Document(step.cid, step.name, step.path, step.sha, "pending", 0, None, None)
  {
    Applied(states, steps, i, t, step, u);
    if step.InsertDocument? {
      TwinsAre(t, step.cid, step.sha, step.id);
    }
    hide Does, Integrity, Unused, Stamps, Twins, HasTwin, ChunksWithout, NewChunks;
  }

  /** An active document goes into the bin exactly by itself, at the time given, or with its
      active collection, at the time that gets. */
  lemma DocumentBinned(states: seq<Tables>, steps: seq<Step>, i: nat, t: Tables, step: Step, u: Tables, d: int)
    requires Does(states, steps, i, t, step, u) && d in t.documents && d in u.documents
    requires t.documents[d].deletedAt.None?
    ensures u.documents[d].deletedAt ==
      if step.TrashDocument? && step.id == d then Some(step.now)
      else if step.TrashCollection? && step.id == t.documents[d].cid then HomeTime(u, d)
      else None
    ensures step.TrashCollection? && step.id == t.documents[d].cid ==> HomeTime(u, d).Some?
  {
    Applied(states, steps, i, t, step, u);
    assert HomeTime(t, d).None? by { HomesOf(t); }
    hide Does, Integrity, Unused, Stamps, Twins, ChunksWithout, NewChunks;
  }

  /** One in the bin leaves it exactly by its own restoration, while its collection is active and
      has no active document of its content, or with its collection, if they share their time.
      Otherwise its time stays. */
  lemma DocumentRestored(states: seq<Tables>, steps: seq<Step>, i: nat, t: Tables, step: Step, u: Tables, d: int)
    requires Does(states, steps, i, t, step, u) && d in t.documents && d in u.documents
    requires t.documents[d].deletedAt.Some?
    ensures var row := t.documents[d];
      var leaves :=
        || (step == RestoreDocument(d) && HomeTime(t, d).None? && !HasTwin(t, row.cid, row.sha, d))
        || (step == RestoreCollection(row.cid) && HomeTime(t, d) == row.deletedAt);
      u.documents[d].deletedAt == if leaves then None else row.deletedAt
  {
    Applied(states, steps, i, t, step, u);
    TwinsAre(t, t.documents[d].cid, t.documents[d].sha, d);
    hide Does, Integrity, Unused, Stamps, Twins, HasTwin, ChunksWithout, NewChunks;
  }

  /** The step gives the document a new index: it is active, and each chunk has its vector. */
  predicate Indexes(t: Tables, step: Step, d: int) {
    && step.ReplaceIndex? && step.id == d && d in t.documents && t.documents[d].deletedAt.None?
    && |step.texts| == step.vectors && |step.texts| > 0
  }

  /** Besides its time in the bin, a document changes exactly by a new index or a failure. */
  lemma DocumentChanges(states: seq<Tables>, steps: seq<Step>, i: nat, t: Tables, step: Step, u: Tables, d: int)
    requires Does(states, steps, i, t, step, u) && d in t.documents && d in u.documents
    ensures var row := t.documents[d];
      u.documents[d].(deletedAt := row.deletedAt) ==
      if Indexes(t, step, d)
      then Document(row.cid, step.name, step.path, step.sha, "ready", |step.texts|, row.deletedAt, None)
      else if step.MarkFailed? && step.id == d then row.(status := "failed", error := Some(step.error))
      else row
  {
    Applied(states, steps, i, t, step, u);
    hide Does, Integrity, Unused, Stamps, Twins, ChunksWithout, NewChunks;
  }

  /** The chunks of a document are those of its last index, and go with it. */
  lemma ChunksAre(states: seq<Tables>, steps: seq<Step>, i: nat, t: Tables, step: Step, u: Tables, s: Slot)
    requires Does(states, steps, i, t, step, u)
    ensures s in u.chunks <==>
      s.doc in u.documents && if Indexes(t, step, s.doc) then 0 <= s.ord < |step.texts| else s in t.chunks
    ensures s in u.chunks && Indexes(t, step, s.doc) ==> u.chunks[s] == Chunk(t.documents[s.doc].cid, step.texts[s.ord])
    ensures s in u.chunks && !Indexes(t, step, s.doc) ==> u.chunks[s] == t.chunks[s]
  {
    Applied(states, steps, i, t, step, u);
    assert s in t.chunks ==> s.doc in t.documents;
    hide Does, Integrity, Unused, Stamps, Twins;
  }

  // ---- Collections ----

  /** A collection goes exactly by a purge, when its own deletion time is not after the cutoff, or
      by its removal from the bin. */
  lemma CollectionGoes(states: seq<Tables>, steps: seq<Step>, i: nat, t: Tables, step: Step, u: Tables, c: int)
    requires Does(states, steps, i, t, step, u) && c in t.collections
    ensures var own := t.collections[c].deletedAt;
      c !in u.collections <==> own.Some? && ((step.Purge? && own.value <= step.cutoff) || step == DeleteCollection(c))
  {
    Applied(states, steps, i, t, step, u);
    hide Does, Integrity, Unused, Stamps, Twins, ChunksWithout, NewChunks;
  }

  /** It comes exactly when it is created, active and ready. */
  lemma CollectionComes(states: seq<Tables>, steps: seq<Step>, i: nat, t: Tables, step: Step, u: Tables, c: int)
    requires Does(states, steps, i, t, step, u) && c !in t.collections
    ensures c in u.collections <==> step.CreateCollection? && step.id == c
    ensures c in u.collections ==> u.collections[c] == Collection(step.name, "ready", None)
  {
    Applied(states, steps, i, t, step, u);
    hide Does, Integrity, Unused, Stamps, Twins, ChunksWithout, NewChunks;
  }

  /** An active collection goes into the bin exactly when it is trashed, at the first time from
      then on that no document of it has. */
  lemma CollectionBinned(states: seq<Tables>, steps: seq<Step>, i: nat, t: Tables, step: Step, u: Tables, c: int)
    requires Does(states, steps, i, t, step, u) && c in t.collections && c in u.collections
    requires t.collections[c].deletedAt.None?
    ensures var m := u.collections[c].deletedAt;
      && (m.Some? <==> step.TrashCollection? && step.id == c)
      && (m.Some? ==> step.now <= m.value && !TimeTaken(t, c, m.value))
      && (m.Some? ==> forall k :: step.now <= k < m.value ==> TimeTaken(t, c, k))
  {
    Applied(states, steps, i, t, step, u);
    TimesAre(t, c);
    hide Does, Integrity, Stamps, TimeTaken, Twins, ChunksWithout, NewChunks;
  }

  lemma TimesAre(t: Tables, c: int)
    ensures forall k :: k in Stamps(t, c) <==> TimeTaken(t, c, k)
  {
  }

  predicate TimeTaken(t: Tables, c: int, time: int) {
    exists d :: d in t.documents && t.documents[d].cid == c && t.documents[d].deletedAt == Some(time)
  }

  /** One in the bin leaves it exactly when it is restored; otherwise its time stays. */
  lemma CollectionRestored(states: seq<Tables>, steps: seq<Step>, i: nat, t: Tables, step: Step, u: Tables, c: int)
    requires Does(states, steps, i, t, step, u) && c in t.collections && c in u.collections
    requires t.collections[c].deletedAt.Some?
    ensures u.collections[c].deletedAt == if step == RestoreCollection(c) then None else t.collections[c].deletedAt
  {
    Applied(states, steps, i, t, step, u);
    hide Does, Integrity, Unused, Stamps, Twins, ChunksWithout, NewChunks;
  }

  /** Its name changes exactly by an update while it is active, its status by being set or by a
      new index of a document. */
  lemma CollectionChanges(states: seq<Tables>, steps: seq<Step>, i: nat, t: Tables, step: Step, u: Tables, c: int)
    requires Does(states, steps, i, t, step, u) && c in t.collections && c in u.collections
    ensures var row := t.collections[c];
      && u.collections[c].name ==
         (if step.UpdateCollection? && step.id == c && row.deletedAt.None? then step.name else row.name)
      && u.collections[c].status ==
         (if step.SetCollectionStatus? && step.id == c then step.status
          else if step.ReplaceIndex? && Indexes(t, step, step.id) && t.documents[step.id].cid == c then "ready"
          else row.status)
  {
    Applied(states, steps, i, t, step, u);
    hide Does, Integrity, Unused, Stamps, Twins, ChunksWithout, NewChunks;
  }

  // ---- Over runs ----

  /** Some step from `n` on, before `m`, puts the document or its collection into the bin. */
  predicate BinnedBetween(steps: seq<Step>, n: nat, m: nat, d: int, cid: int)
    requires m <= |steps|
  {
    exists k :: n <= k < m &&
      ((steps[k].TrashDocument? && steps[k].id == d) || (steps[k].TrashCollection? && steps[k].id == cid))
  }

  /** No active document is ever lost: until it or its collection is put into the bin it stays
      active, whatever else is trashed, removed or purged. */
  lemma {:induction false} ActiveStays(states: seq<Tables>, steps: seq<Step>, n: nat, m: nat, d: int)
    requires IsRun(states, steps) && n <= m < |states| && d in states[n].documents
    requires states[n].documents[d].deletedAt.None? && !BinnedBetween(steps, n, m, d, states[n].documents[d].cid)
    ensures d in states[m].documents && states[m].documents[d].deletedAt.None?
    ensures states[m].documents[d].cid == states[n].documents[d].cid
    decreases m
  {
    if n < m {
      var t, step, u := states[m - 1], steps[m - 1], states[m];
      assert !BinnedBetween(steps, n, m - 1, d, states[n].documents[d].cid);
      ActiveStays(states, steps, n, m - 1, d);
      assert Does(states, steps, m - 1, t, step, u);
      Applied(states, steps, m - 1, t, step, u);
      HomesOf(t);
      hide IsRun, Does, Integrity, Apply;
      DocumentGoes(states, steps, m - 1, t, step, u, d);
      DocumentBinned(states, steps, m - 1, t, step, u, d);
      DocumentChanges(states, steps, m - 1, t, step, u, d);
    }
  }
}
