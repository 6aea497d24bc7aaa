/** Runs of the cleanup queue: no obligation is lost, and failing retries cannot
    starve a first attempt. The log is the independent record both are stated on. */
module CleanupHistory {
  import opened Orders
  import opened CleanupQueue

  datatype Entry = Enqueue(eid: string) | Start(sid: string) | Finish(fid: string, ok: bool)

  datatype Event =
    | EnqueueEvent(id: string, now: int)
    | ClaimEvent(now: int, limit: nat)
    | FinishEvent(id: string, ok: bool, now: int)

  /** The queue, the attempts now running, and everything that has happened so far. */
  datatype World = World(q: Queue, running: map<string, Claim>, log: seq<Entry>)

  const INITIAL := World(EMPTY, map[], [])

  function Starts(keys: seq<Key>): seq<Entry> {
    seq(|keys|, i requires 0 <= i < |keys| => Start(keys[i].id))
  }

  ghost function RunningAfter(w: World, keys: seq<Key>): map<string, Claim> {
    w.running + map id | id in Ids(Elements(keys)) && id in w.q.pending ::
      Claim(id, w.q.pending[id].retryDelay, w.q.pending[id].failedAttempts)
  }

  /** One call. An attempt can only finish while it runs; any other event always can happen. */
  ghost function Step(w: World, e: Event): World {
    match e
    case EnqueueEvent(id, now) =>
      w.(q := Enqueued(w.q, id, now), log := w.log + [Enqueue(id)])
    case ClaimEvent(now, limit) =>
      var keys := Taken(w.q.pending, now, limit);
      World(Claimed(w.q, now, limit), RunningAfter(w, keys), w.log + Starts(keys))
    case FinishEvent(id, ok, now) =>
      if id !in w.running then w else
        World(Completed(w.q, w.running[id], ok, now), w.running - {id}, w.log + [Finish(id, ok)])
  }

  ghost function Run(w: World, events: seq<Event>): World
    decreases |events|
  {
    if events == [] then w else Run(Step(w, events[0]), events[1..])
  }

  // ---- Obligations, read off the log ----

  predicate Touches(e: Entry, id: string) {
    (e.Start? && e.sid == id) || (e.Finish? && e.fid == id)
  }

  /** The attempt on `id` claimed at `j` is still running at the end of the log. */
  ghost predicate OpenAt(log: seq<Entry>, j: nat, id: string) {
    j < |log| && log[j] == Start(id) && forall m :: j < m < |log| ==> !Touches(log[m], id)
  }

  /** The attempt on `id` claimed at `j` succeeded at `k`. */
  ghost predicate Succeeded(log: seq<Entry>, j: nat, k: nat, id: string) {
    && j < k < |log| && log[j] == Start(id) && log[k] == Finish(id, true)
    && forall m :: j < m < k ==> !Touches(log[m], id)
  }

  /** Some attempt claimed after the enqueue at `i` has succeeded. */
  ghost predicate Discharged(log: seq<Entry>, i: nat, id: string) {
    exists j, k :: i < j && Succeeded(log, j, k, id)
  }

  ghost predicate Owed(log: seq<Entry>, i: nat, id: string) {
    i < |log| && log[i] == Enqueue(id) && !Discharged(log, i, id)
  }

  /** Where an obligation enqueued at `i` is kept. */
  ghost predicate Kept(w: World, i: nat, id: string) {
    || id in w.q.pending
    || (id in w.q.inFlight && exists j :: i < j && OpenAt(w.log, j, id))
    || (id in w.q.inFlight && id in w.q.rerun)
  }

  ghost predicate Disjoint(w: World) {
    && w.q.inFlight == w.running.Keys
    && w.q.pending.Keys !! w.q.inFlight
    && w.q.rerun <= w.q.inFlight
    && (forall id :: id in w.running ==> w.running[id].id == id)
    && (forall id :: id in w.q.pending ==> w.q.pending[id].sequence < w.q.nextSequence)
  }

  ghost predicate FlightsOpen(w: World) {
    forall id :: id in w.q.inFlight ==> exists j :: OpenAt(w.log, j, id)
  }

  ghost predicate NothingLost(w: World) {
    forall i: nat, id :: Owed(w.log, i, id) ==> Kept(w, i, id)
  }

  ghost predicate Inv(w: World) {
    Disjoint(w) && FlightsOpen(w) && NothingLost(w)
  }

  // ---- Appending to the log ----

  lemma OpenExtends(log: seq<Entry>, more: seq<Entry>, j: nat, id: string)
    requires OpenAt(log, j, id) && forall e :: e in more ==> !Touches(e, id)
    ensures OpenAt(log + more, j, id)
  {
  }

  lemma OwedBefore(log: seq<Entry>, more: seq<Entry>, i: nat, id: string)
    requires Owed(log + more, i, id) && i < |log|
    ensures Owed(log, i, id)
  {
    if Discharged(log, i, id) {
      var j, k :| i < j && Succeeded(log, j, k, id);
      assert Succeeded(log + more, j, k, id);
    }
  }

  /** A kept obligation stays kept when nothing happens to its id. */
  lemma KeptWhenUntouched(w: World, v: World, more: seq<Entry>, i: nat, id: string)
    requires Kept(w, i, id) && v.log == w.log + more && forall e :: e in more ==> !Touches(e, id)
    requires id in w.q.pending ==> id in v.q.pending
    requires id in w.q.inFlight ==> id in v.q.inFlight
    requires id in w.q.rerun ==> id in v.q.rerun
    ensures Kept(v, i, id)
  {
    if id !in w.q.pending && id !in w.q.rerun {
      var j :| i < j && OpenAt(w.log, j, id);
      OpenExtends(w.log, more, j, id);
    }
  }

  lemma FlightWhenUntouched(w: World, v: World, more: seq<Entry>, id: string)
    requires FlightsOpen(w) && id in w.q.inFlight
    requires v.log == w.log + more && forall e :: e in more ==> !Touches(e, id)
    ensures exists j :: OpenAt(v.log, j, id)
  {
    var j :| OpenAt(w.log, j, id);
    OpenExtends(w.log, more, j, id);
  }

  // ---- Each event keeps the invariant ----

  lemma EnqueueKeepsInv(w: World, id: string, now: int)
    requires Inv(w)
    ensures Inv(Step(w, EnqueueEvent(id, now)))
  {
    hide OpenAt, Discharged;
    var v, more := Step(w, EnqueueEvent(id, now)), [Enqueue(id)];
    forall x | x in v.q.inFlight
      ensures exists j :: OpenAt(v.log, j, x)
    {
      FlightWhenUntouched(w, v, more, x);
    }
    forall i: nat, x | Owed(v.log, i, x)
      ensures Kept(v, i, x)
    {
      if i < |w.log| {
        OwedBefore(w.log, more, i, x);
        KeptWhenUntouched(w, v, more, i, x);
      }
    }
  }

  lemma TakenPending(q: Queue, now: int, limit: nat)
    ensures var keys := Taken(q.pending, now, limit);
      && Ids(Elements(keys)) <= q.pending.Keys
      && (forall k :: k in keys ==> k == KeyOf(k.id, q.pending[k.id]))
  {
  }

  lemma StartsTouch(keys: seq<Key>, id: string)
    ensures (exists e :: e in Starts(keys) && Touches(e, id)) <==> id in Ids(Elements(keys))
    ensures forall e :: e in Starts(keys) ==> e.Start?
  {
    if id in Ids(Elements(keys)) {
      var k :| k in Elements(keys) && k.id == id;
      var i :| 0 <= i < |keys| && keys[i] == k;
      assert Starts(keys)[i] == Start(id);
      assert Start(id) in Starts(keys) && Touches(Start(id), id);
    } else {
      forall e | e in Starts(keys)
        ensures !Touches(e, id)
      {
        var i :| 0 <= i < |keys| && Starts(keys)[i] == e;
        assert keys[i] in Elements(keys);
      }
    }
  }

  /** An attempt just claimed is open in the log, later than everything before the claim. */
  lemma {:induction false} StartedOpen(log: seq<Entry>, keys: seq<Key>, id: string)
    requires id in Ids(Elements(keys))
    ensures exists j :: |log| <= j && OpenAt(log + Starts(keys), j, id)
    decreases |keys|
  {
    var n := |keys| - 1;
    assert keys != [] by { EmptyElements(keys); }
    if keys[n].id == id {
      assert OpenAt(log + Starts(keys), |log| + n, id);
    } else {
      var front := keys[..n];
      assert keys == front + [keys[n]];
      StartedOpen(log, front, id);
      var j :| |log| <= j && OpenAt(log + Starts(front), j, id);
      assert log + Starts(keys) == (log + Starts(front)) + [Start(keys[n].id)];
      OpenExtends(log + Starts(front), [Start(keys[n].id)], j, id);
    }
  }

  lemma ClaimKeepsDisjoint(w: World, now: int, limit: nat)
    requires Disjoint(w)
    ensures Disjoint(Step(w, ClaimEvent(now, limit)))
  {
    hide Ids, Taken;
    TakenPending(w.q, now, limit);
  }

  lemma ClaimKeepsInv(w: World, now: int, limit: nat)
    requires Inv(w)
    ensures Inv(Step(w, ClaimEvent(now, limit)))
  {
    hide OpenAt, Discharged, Taken, Touches, Starts, Ids, RunningAfter;
    var v, keys := Step(w, ClaimEvent(now, limit)), Taken(w.q.pending, now, limit);
    var more := Starts(keys);
    ClaimKeepsDisjoint(w, now, limit);
    TakenPending(w.q, now, limit);
    forall x | x in v.q.inFlight
      ensures exists j :: OpenAt(v.log, j, x)
    {
      StartsTouch(keys, x);
      if x in Ids(Elements(keys)) {
        StartedOpen(w.log, keys, x);
      } else {
        FlightWhenUntouched(w, v, more, x);
      }
    }
    forall i: nat, x | Owed(v.log, i, x)
      ensures Kept(v, i, x)
    {
      StartsTouch(keys, x);
      assert forall m :: |w.log| <= m < |v.log| ==> v.log[m] in more;
      OwedBefore(w.log, more, i, x);
      if x in Ids(Elements(keys)) {
        StartedOpen(w.log, keys, x);
      } else {
        KeptWhenUntouched(w, v, more, i, x);
      }
    }
  }

  lemma FinishKeepsInv(w: World, id: string, ok: bool, now: int)
    requires Inv(w)
    ensures Inv(Step(w, FinishEvent(id, ok, now)))
  {
    hide OpenAt, Discharged;
    if id in w.running {
      var v, more := Step(w, FinishEvent(id, ok, now)), [Finish(id, ok)];
      forall x | x in v.q.inFlight
        ensures exists j :: OpenAt(v.log, j, x)
      {
        FlightWhenUntouched(w, v, more, x);
      }
      forall i: nat, x | Owed(v.log, i, x)
        ensures Kept(v, i, x)
      {
        OwedBefore(w.log, more, i, x);
        if x != id {
          KeptWhenUntouched(w, v, more, i, x);
        } else if x !in v.q.pending {
          FinishDischarges(w, i, x);
        }
      }
    }
  }

  /** Only a success with no rerun asked for drops an obligation, and it discharges it. */
  lemma FinishDischarges(w: World, i: nat, id: string)
    requires Disjoint(w) && Kept(w, i, id) && id in w.running && id !in w.q.rerun
    ensures Discharged(w.log + [Finish(id, true)], i, id)
  {
    var j :| i < j && OpenAt(w.log, j, id);
    assert Succeeded(w.log + [Finish(id, true)], j, |w.log|, id);
  }

  lemma StepKeepsInv(w: World, e: Event)
    requires Inv(w)
    ensures Inv(Step(w, e))
  {
    match e
    case EnqueueEvent(id, now) => EnqueueKeepsInv(w, id, now);
    case ClaimEvent(now, limit) => ClaimKeepsInv(w, now, limit);
    case FinishEvent(id, ok, now) => FinishKeepsInv(w, id, ok, now);
  }

  lemma {:induction false} RunKeepsInv(w: World, events: seq<Event>)
    requires Inv(w)
    ensures Inv(Run(w, events))
    decreases |events|
  {
    if events != [] {
      StepKeepsInv(w, events[0]);
      RunKeepsInv(Step(w, events[0]), events[1..]);
    }
  }

  /** In every run: an enqueued id whose obligation no later attempt has met is pending, or in
      flight under a later claim, or in flight and marked for a rerun. */
  lemma NoObligationLost(events: seq<Event>)
    ensures var w := Run(INITIAL, events);
      && (forall i: nat, id :: Owed(w.log, i, id) ==> Kept(w, i, id))
      && w.q.pending.Keys !! w.q.inFlight && w.q.rerun <= w.q.inFlight
      && w.q.inFlight == w.running.Keys
  {
    RunKeepsInv(INITIAL, events);
  }
}
