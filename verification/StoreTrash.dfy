/** Trashing a collection, doing other things, and restoring it. */
module StoreTrash {
  import opened Options
  import opened StoreTables
  import opened StoreSafety

  /** What a document's deletion time becomes while its collection is in the bin. */
  function Binned(deletedAt: Option<int>, marker: int): Option<int> {
    if deletedAt.None? then Some(marker) else deletedAt
  }

  predicate In(t: Tables, cid: int, d: int) {
    d in t.documents && t.documents[d].cid == cid
  }

  predicate BinnedAs(s: Tables, t: Tables, cid: int, marker: int, d: int) {
    In(s, cid, d) && In(t, cid, d) && t.documents[d].deletedAt == Binned(s.documents[d].deletedAt, marker)
  }

  /** `t` still has the collection in the bin under its marker: it has gained no document, and
      has lost none that was active when the collection was trashed in `s`. */
  ghost predicate InBin(s: Tables, t: Tables, cid: int, marker: int) {
    && TrashedCollection(t, cid) && t.collections[cid].deletedAt == Some(marker)
    && marker !in Stamps(s, cid)
    && (forall d :: In(t, cid, d) ==> BinnedAs(s, t, cid, marker, d))
    && (forall d :: In(s, cid, d) && ActiveDocument(s, d) ==> In(t, cid, d))
  }

  /** The steps that take a trashed collection out of the bin, to restore it or for good. */
  predicate TakesOut(t: Tables, step: Step, cid: int) {
    || step == RestoreCollection(cid)
    || step == DeleteCollection(cid)
    || (step.Purge? && TrashedCollection(t, cid) && t.collections[cid].deletedAt.value <= step.cutoff)
  }

  lemma TrashBins(s: Tables, cid: int, now: int)
    requires Integrity(s) && ActiveCollection(s, cid)
    ensures InBin(s, Trash(s, cid, now), cid, Unused(Stamps(s, cid), now))
  {
  }

  /** No other step touches the active or trashed status of its documents. */
  lemma StepKeepsBin(s: Tables, t: Tables, cid: int, marker: int, step: Step)
    requires Integrity(t) && InBin(s, t, cid, marker) && Fresh(t, step) && !TakesOut(t, step, cid)
    ensures InBin(s, Apply(t, step), cid, marker)
  {
    HomesOf(t);
    var u := Apply(t, step);
    BinDocuments(s, t, cid, marker, step);
    hide Integrity, Apply, Stamps;
    forall d | In(u, cid, d)
      ensures BinnedAs(s, u, cid, marker, d)
    {
      assert BinnedAs(s, t, cid, marker, d);
    }
  }

  lemma BinDocuments(s: Tables, t: Tables, cid: int, marker: int, step: Step)
    requires Integrity(t) && InBin(s, t, cid, marker) && Fresh(t, step) && !TakesOut(t, step, cid)
    ensures var u := Apply(t, step);
      && cid in u.collections && u.collections[cid].deletedAt == Some(marker)
      && (forall d :: In(u, cid, d) ==> In(t, cid, d) && u.documents[d].deletedAt == t.documents[d].deletedAt)
      && (forall d :: BinnedAs(s, t, cid, marker, d) && ActiveDocument(s, d) ==> In(u, cid, d))
  {
    hide Integrity, Unused, Stamps, Twins, ChunksWithout, Trash, Restore, PurgeAt;
    HomesOf(t);
    match step
    case TrashCollection(id, now) =>
      if id != cid && ActiveCollection(t, id) { TrashElsewhere(t, id, now, cid); }
    case RestoreCollection(id) =>
      if id != cid && TrashedCollection(t, id) { RestoreElsewhere(t, id, cid); }
    case Purge(cutoff) => PurgeLeaves(s, t, cutoff, cid, marker);
    case _ =>
  }

  lemma TrashElsewhere(t: Tables, id: int, now: int, cid: int)
    requires ActiveCollection(t, id) && id != cid && cid in t.collections
    ensures var u := Trash(t, id, now);
      && cid in u.collections && u.collections[cid] == t.collections[cid]
      && forall d :: (In(u, cid, d) <==> In(t, cid, d)) && (In(t, cid, d) ==> u.documents[d] == t.documents[d])
  {
  }

  lemma RestoreElsewhere(t: Tables, id: int, cid: int)
    requires TrashedCollection(t, id) && id != cid && cid in t.collections
    ensures var u := Restore(t, id);
      && cid in u.collections && u.collections[cid] == t.collections[cid]
      && forall d :: (In(u, cid, d) <==> In(t, cid, d)) && (In(t, cid, d) ==> u.documents[d] == t.documents[d])
  {
  }

  /** A purge that leaves the collection leaves the documents that carry its marker. */
  lemma PurgeLeaves(s: Tables, t: Tables, cutoff: int, cid: int, marker: int)
    requires TrashedCollection(t, cid) && t.collections[cid].deletedAt == Some(marker)
    requires cid !in StaleCollections(t, cutoff)
    ensures var u := PurgeAt(t, cutoff);
      && cid in u.collections && u.collections[cid] == t.collections[cid]
      && (forall d :: In(u, cid, d) ==> In(t, cid, d) && u.documents[d] == t.documents[d])
      && (forall d :: BinnedAs(s, t, cid, marker, d) && ActiveDocument(s, d) ==> In(u, cid, d))
  {
  }

  /** Restoring brings back exactly the documents that were active when it was trashed. */
  lemma RestoreBringsBack(s: Tables, t: Tables, cid: int, marker: int, d: int)
    requires InBin(s, t, cid, marker)
    ensures var u := Restore(t, cid);
      && (In(u, cid, d) && ActiveDocument(u, d) <==> In(s, cid, d) && ActiveDocument(s, d))
      && (In(u, cid, d) && !ActiveDocument(u, d)
          ==> In(s, cid, d) && u.documents[d].deletedAt == s.documents[d].deletedAt)
  {
    if In(t, cid, d) {
      assert BinnedAs(s, t, cid, marker, d);
    }
    if In(s, cid, d) && !ActiveDocument(s, d) {
      assert s.documents[d].deletedAt.value in Stamps(s, cid);
    }
  }

  // ---- Over runs ----

  /** Step `i` trashes the collection, and no later step before `j` takes it out again. */
  ghost predicate StaysInBin(states: seq<Tables>, steps: seq<Step>, cid: int, i: nat, j: nat)
    requires |states| == |steps| + 1
  {
    && i < j <= |steps| && steps[i].TrashCollection? && steps[i].id == cid && ActiveCollection(states[i], cid)
    && forall k :: i < k < j ==> !TakesOut(states[k], steps[k], cid)
  }

  ghost function Marker(states: seq<Tables>, steps: seq<Step>, cid: int, i: nat): int
    requires i < |steps| && i < |states| && steps[i].TrashCollection?
  {
    Unused(Stamps(states[i], cid), steps[i].now)
  }

  lemma {:induction false} RunKeepsBin(states: seq<Tables>, steps: seq<Step>, cid: int, i: nat, j: nat)
    requires IsRun(states, steps) && StaysInBin(states, steps, cid, i, j)
    ensures InBin(states[i], states[j], cid, Marker(states, steps, cid, i))
    decreases j
  {
    hide Integrity, InBin, Unused, Stamps, TakesOut, Fresh;
    assert StepAt(states, steps, j - 1);
    RunKeepsIntegrity(states, steps, j - 1);
    if j == i + 1 {
      TrashBins(states[i], cid, steps[i].now);
    } else {
      RunKeepsBin(states, steps, cid, i, j - 1);
      StepKeepsBin(states[i], states[j - 1], cid, Marker(states, steps, cid, i), steps[j - 1]);
    }
  }

  /** Trash, any other steps, restore: each document of the collection that was active is
      active again, none else is, and those that are in the bin are as they were in it. */
  lemma TrashRestoreRoundTrip(states: seq<Tables>, steps: seq<Step>, cid: int, i: nat, j: nat, d: int)
    requires IsRun(states, steps) && StaysInBin(states, steps, cid, i, j)
    requires j < |steps| && steps[j] == RestoreCollection(cid)
    ensures var s, u := states[i], states[j + 1];
      && ActiveCollection(u, cid)
      && (In(u, cid, d) && ActiveDocument(u, d) <==> In(s, cid, d) && ActiveDocument(s, d))
      && (In(u, cid, d) && !ActiveDocument(u, d)
          ==> In(s, cid, d) && u.documents[d].deletedAt == s.documents[d].deletedAt)
  {
    RunKeepsBin(states, steps, cid, i, j);
    assert StepAt(states, steps, j);
    hide IsRun, StaysInBin, Unused, Stamps;
    RestoreBringsBack(states[i], states[j], cid, Marker(states, steps, cid, i), d);
  }

  /** Some step from `i` on, before `j`, purged what was deleted up to then. */
  predicate PurgedBetween(steps: seq<Step>, i: nat, j: nat, deletedAt: Option<int>)
    requires j <= |steps|
  {
    exists k :: i < k < j && steps[k].Purge? && deletedAt.Some? && deletedAt.value <= steps[k].cutoff
  }

  /** A document that was in the bin before its collection is still there at the end, unless
      a purge took it by its own age. */
  lemma {:induction false} BinnedBeforeStays(states: seq<Tables>, steps: seq<Step>, cid: int, i: nat, j: nat, d: int)
    requires IsRun(states, steps) && StaysInBin(states, steps, cid, i, j)
    requires In(states[i], cid, d) && !ActiveDocument(states[i], d)
    ensures In(states[j], cid, d) || PurgedBetween(steps, i, j, states[i].documents[d].deletedAt)
    decreases j
  {
    assert StepAt(states, steps, j - 1);
    if j > i + 1 {
      BinnedBeforeStays(states, steps, cid, i, j - 1, d);
      RunKeepsBin(states, steps, cid, i, j - 1);
      if In(states[j - 1], cid, d) {
        StaysUnlessPurged(states[i], states[j - 1], cid, Marker(states, steps, cid, i), steps[j - 1], d);
      }
    }
  }

  lemma StaysUnlessPurged(s: Tables, t: Tables, cid: int, marker: int, step: Step, d: int)
    requires InBin(s, t, cid, marker) && Fresh(t, step) && !TakesOut(t, step, cid) && In(t, cid, d)
    ensures var binned := t.documents[d].deletedAt;
      In(Apply(t, step), cid, d) || (step.Purge? && binned.Some? && binned.value <= step.cutoff)
    ensures t.documents[d].deletedAt == Binned(s.documents[d].deletedAt, marker)
  {
  }

  /** While the collection is in the bin, a purge takes a document that went in with it
      exactly when it takes the collection, that is, when they went in up to the cutoff. */
  lemma PurgeTakesBoth(states: seq<Tables>, steps: seq<Step>, cid: int, i: nat, j: nat, d: int, cutoff: int)
    requires IsRun(states, steps) && StaysInBin(states, steps, cid, i, j)
    requires In(states[i], cid, d) && ActiveDocument(states[i], d) && j < |steps| && steps[j] == Purge(cutoff)
    ensures In(states[j], cid, d) && TrashedCollection(states[j], cid)
    ensures var u, marker := states[j + 1], states[j].collections[cid].deletedAt.value;
      && (d !in u.documents <==> marker <= cutoff)
      && (cid !in u.collections <==> marker <= cutoff)
  {
    RunKeepsBin(states, steps, cid, i, j);
    assert StepAt(states, steps, j);
    hide IsRun, StaysInBin, Unused, Stamps;
    assert BinnedAs(states[i], states[j], cid, Marker(states, steps, cid, i), d);
  }
}
