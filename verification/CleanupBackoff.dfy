/** How long a failed cleanup waits, and that the queue does nothing it was not asked for, read
    off the log and the clock readings of a run. */
module CleanupBackoff {
  import opened Orders
  import opened CleanupQueue
  import opened CleanupHistory
  import opened CleanupFairness

  // ---- Consecutive failures ----

  /** How many attempts on `id` have failed since one succeeded. */
  function Failures(log: seq<Entry>, id: string): nat {
    if log == [] then 0 else
      var e := log[|log| - 1];
      var before := Failures(log[..|log| - 1], id);
      if e == Finish(id, true) then 0 else if e == Finish(id, false) then before + 1 else before
  }

  function Power(n: nat): nat {
    if n == 0 then 1 else 2 * Power(n - 1)
  }

  /** A retry delay in milliseconds: it doubles, up to half a minute. */
  function Backoff(n: nat): nat {
    if 250 * Power(n) < 30000 then 250 * Power(n) else 30000
  }

  ghost predicate ScheduleOk(log: seq<Entry>, id: string, retryDelay: int, failedAttempts: nat) {
    failedAttempts == Failures(log, id) && retryDelay == Backoff(failedAttempts)
  }

  /** Schedules and claims count the consecutive failures; nothing is left of a success. */
  ghost predicate Counted(w: World) {
    && (forall id :: id in w.q.pending ==> ScheduleOk(w.log, id, w.q.pending[id].retryDelay, w.q.pending[id].failedAttempts))
    && (forall id :: id in w.running ==> ScheduleOk(w.log, id, w.running[id].retryDelay, w.running[id].failedAttempts))
    && (forall id :: id !in w.q.pending && id !in w.running ==> Failures(w.log, id) == 0)
  }

  lemma FailuresAppend(log: seq<Entry>, e: Entry, id: string)
    ensures Failures(log + [e], id) ==
      if e == Finish(id, true) then 0 else Failures(log, id) + if e == Finish(id, false) then 1 else 0
  {
    assert (log + [e])[..|log|] == log;
  }

  lemma {:induction false} FailuresStarts(log: seq<Entry>, keys: seq<Key>, id: string)
    ensures Failures(log + Starts(keys), id) == Failures(log, id)
    decreases |keys|
  {
    if keys == [] {
      assert log + Starts(keys) == log;
    } else {
      var front := keys[..|keys| - 1];
      FailuresStarts(log, front, id);
      assert log + Starts(keys) == log + Starts(front) + [Start(keys[|keys| - 1].id)];
      FailuresAppend(log + Starts(front), Start(keys[|keys| - 1].id), id);
    }
  }

  lemma NextBackoff(n: nat)
    ensures NextRetry(Backoff(n)) == Backoff(n + 1)
  {
  }

  lemma EnqueueCounted(w: World, id: string, now: int)
    requires Disjoint(w) && Counted(w)
    ensures Counted(Step(w, EnqueueEvent(id, now)))
  {
    forall x
      ensures Failures(w.log + [Enqueue(id)], x) == Failures(w.log, x)
    {
      FailuresAppend(w.log, Enqueue(id), x);
    }
    hide Failures;
    assert Backoff(0) == 250;
  }

  lemma ClaimCounted(w: World, now: int, limit: nat)
    requires Disjoint(w) && Counted(w)
    ensures Counted(Step(w, ClaimEvent(now, limit)))
  {
    var v, keys := Step(w, ClaimEvent(now, limit)), Taken(w.q.pending, now, limit);
    hide Failures, Taken, RunningAfter, Ids, Starts, Counted;
    TakenPending(w.q, now, limit);
    ClaimsRun(w, keys);
    forall id
      ensures Failures(v.log, id) == Failures(w.log, id)
    {
      FailuresStarts(w.log, keys, id);
    }
    StillCounted(w, v);
  }

  lemma StillCounted(w: World, v: World)
    requires Counted(w) && forall id :: Failures(v.log, id) == Failures(w.log, id)
    requires forall id :: id in v.q.pending ==> id in w.q.pending && v.q.pending[id] == w.q.pending[id]
    requires forall id :: id in v.running ==>
      if id in w.q.pending
      then v.running[id] == Claim(id, w.q.pending[id].retryDelay, w.q.pending[id].failedAttempts)
      else id in w.running && v.running[id] == w.running[id]
    requires forall id :: id in w.q.pending || id in w.running ==> id in v.q.pending || id in v.running
    ensures Counted(v)
  {
    hide Failures, Backoff;
  }

  lemma ClaimsRun(w: World, keys: seq<Key>)
    requires Ids(Elements(keys)) <= w.q.pending.Keys
    ensures var ids, after := Ids(Elements(keys)), RunningAfter(w, keys);
      && after.Keys == w.running.Keys + ids
      && (forall id :: id in ids ==> after[id] == Claim(id, w.q.pending[id].retryDelay, w.q.pending[id].failedAttempts))
      && (forall id :: id in w.running && id !in ids ==> after[id] == w.running[id])
  {
  }

  lemma FinishCounted(w: World, id: string, ok: bool, now: int)
    requires Disjoint(w) && Counted(w)
    ensures Counted(Step(w, FinishEvent(id, ok, now)))
  {
    if id in w.running {
      var v := Step(w, FinishEvent(id, ok, now));
      forall x
        ensures Failures(v.log, x) == if x != id then Failures(w.log, x) else if ok then 0 else Failures(w.log, x) + 1
      {
        FailuresAppend(w.log, Finish(id, ok), x);
      }
      NextBackoff(Failures(w.log, id));
      assert Backoff(0) == 250;
      hide Failures, Backoff, NextRetry, Counted;
      assert ScheduleOk(w.log, id, w.running[id].retryDelay, w.running[id].failedAttempts) by { RunningCounted(w, id); }
      CountedBut(w, v, id);
    }
  }

  lemma RunningCounted(w: World, id: string)
    requires Counted(w) && id in w.running
    ensures ScheduleOk(w.log, id, w.running[id].retryDelay, w.running[id].failedAttempts)
  {
  }

  lemma CountedBut(w: World, v: World, id: string)
    requires Counted(w) && id !in v.running && forall x :: x != id ==> Failures(v.log, x) == Failures(w.log, x)
    requires forall x :: x != id && x in v.q.pending ==> x in w.q.pending && v.q.pending[x] == w.q.pending[x]
    requires forall x :: x != id && x in v.running ==> x in w.running && v.running[x] == w.running[x]
    requires forall x :: x in w.q.pending || x in w.running ==> x in v.q.pending || x in v.running || x == id
    requires if id in v.q.pending then ScheduleOk(v.log, id, v.q.pending[id].retryDelay, v.q.pending[id].failedAttempts)
      else Failures(v.log, id) == 0
    ensures Counted(v)
  {
    hide Failures, Backoff;
  }

  lemma StepCounted(w: World, e: Event)
    requires Disjoint(w) && Counted(w)
    ensures Counted(Step(w, e))
  {
    hide Disjoint, Counted, Step;
    match e
    case EnqueueEvent(id, now) => EnqueueCounted(w, id, now);
    case ClaimEvent(now, limit) => ClaimCounted(w, now, limit);
    case FinishEvent(id, ok, now) => FinishCounted(w, id, ok, now);
  }

  lemma {:induction false} RunCounted(w: World, events: seq<Event>)
    requires Inv(w) && Counted(w)
    ensures Counted(Run(w, events))
    decreases |events|
  {
    hide Inv, Counted, Step;
    if events != [] {
      DisjointOf(w);
      StepCounted(w, events[0]);
      StepKeepsInv(w, events[0]);
      RunCounted(Step(w, events[0]), events[1..]);
    }
  }

  lemma Reached(events: seq<Event>)
    ensures Inv(Run(INITIAL, events)) && Disjoint(Run(INITIAL, events)) && Counted(Run(INITIAL, events))
  {
    RunKeepsInv(INITIAL, events);
    DisjointOf(Run(INITIAL, events));
    RunCounted(INITIAL, events);
    hide Run;
  }

  lemma OneMore(events: seq<Event>, e: Event)
    ensures Run(INITIAL, events + [e]) == Step(Run(INITIAL, events), e)
  {
    RunAppends(INITIAL, events, [e]);
    hide Step;
    var w := Run(INITIAL, events);
    assert Run(w, [e]) == Run(Step(w, e), [e][1..]);
  }

  /** After the `k`th failure in a row, read off the clock at `t`, an id waits for 250 milliseconds
      times two to the power `k - 1`, but at most for 30 seconds. */
  lemma WaitsAfterFailure(events: seq<Event>, id: string, t: int)
    requires id in Run(INITIAL, events).running
    ensures var w := Run(INITIAL, events + [FinishEvent(id, false, t)]);
      var k := Failures(w.log, id);
      && k == Failures(Run(INITIAL, events).log, id) + 1
      && id in w.q.pending
      && w.q.pending[id].readyAt == t + if 250 * Power(k - 1) < 30000 then 250 * Power(k - 1) else 30000
  {
    Reached(events);
    OneMore(events, FinishEvent(id, false, t));
    FailuresAppend(Run(INITIAL, events).log, Finish(id, false), id);
    hide Run, Failures;
  }

  /** What is enqueued when it is neither pending nor being worked on is ready at once. */
  lemma FirstAttemptAtOnce(events: seq<Event>, id: string, t: int)
    requires id !in Run(INITIAL, events).q.pending && id !in Run(INITIAL, events).running
    ensures var w := Run(INITIAL, events + [EnqueueEvent(id, t)]);
      id in w.q.pending && w.q.pending[id].readyAt == t && Failures(w.log, id) == 0
  {
    Reached(events);
    Reached(events + [EnqueueEvent(id, t)]);
    OneMore(events, EnqueueEvent(id, t));
    hide Run, Failures;
  }

  // ---- Nothing starts early ----

  /** No claim of the run has a clock reading of `at` or later. */
  predicate ClaimsBefore(events: seq<Event>, at: int) {
    forall i :: 0 <= i < |events| && events[i].ClaimEvent? ==> events[i].now < at
  }

  lemma StaysPending(w: World, id: string, e: Event)
    requires Disjoint(w) && id in w.q.pending && (e.ClaimEvent? ==> e.now < w.q.pending[id].readyAt)
    ensures var v := Step(w, e);
      && id in v.q.pending && v.q.pending[id] == w.q.pending[id]
      && w.log <= v.log && forall i :: |w.log| <= i < |v.log| ==> v.log[i] != Start(id)
  {
    match e
    case EnqueueEvent(x, now) =>
    case ClaimEvent(now, limit) => ClaimLeaves(w, id, now, limit);
    case FinishEvent(x, ok, now) =>
  }

  lemma ClaimLeaves(w: World, id: string, now: int, limit: nat)
    requires id in w.q.pending && now < w.q.pending[id].readyAt
    ensures var v := Step(w, ClaimEvent(now, limit));
      && id in v.q.pending && v.q.pending[id] == w.q.pending[id]
      && w.log <= v.log && forall i :: |w.log| <= i < |v.log| ==> v.log[i] != Start(id)
  {
    var keys := Taken(w.q.pending, now, limit);
    hide Taken, Starts, RunningAfter, Ids, Touches;
    NotTaken(w.q.pending, id, now, limit);
    IdsFrom(keys);
    StartsTouch(keys, id);
    TouchedStarts(keys, id);
    LaterInMore(w.log, Starts(keys));
  }

  lemma NotTaken(pending: map<string, Schedule>, id: string, now: int, limit: nat)
    requires id in pending && now < pending[id].readyAt
    ensures forall k :: k in Taken(pending, now, limit) ==> k.id != id
  {
    forall k | k in Taken(pending, now, limit)
      ensures k.id != id
    {
      ReadyKey(pending, now, k);
    }
  }

  lemma IdsFrom(keys: seq<Key>)
    ensures forall id :: id in Ids(Elements(keys)) ==> exists k :: k in keys && k.id == id
  {
  }

  /** Whatever else happens, a pending id is not started, and its time does not change, by claims
      with earlier readings. */
  lemma {:induction false} NotBefore(w: World, id: string, events: seq<Event>)
    requires Inv(w) && id in w.q.pending && ClaimsBefore(events, w.q.pending[id].readyAt)
    ensures var v := Run(w, events);
      && id in v.q.pending && v.q.pending[id] == w.q.pending[id]
      && w.log <= v.log && forall i :: |w.log| <= i < |v.log| ==> v.log[i] != Start(id)
    decreases |events|
  {
    hide Inv, Step;
    if events != [] {
      DisjointOf(w);
      StaysPending(w, id, events[0]);
      StepKeepsInv(w, events[0]);
      NotBefore(Step(w, events[0]), id, events[1..]);
    }
  }

  /** So a failed id is not tried again before its time is up. */
  lemma NoRetryBefore(events: seq<Event>, id: string, t: int, more: seq<Event>)
    requires id in Run(INITIAL, events).running
    requires var k := Failures(Run(INITIAL, events).log, id) + 1;
      ClaimsBefore(more, t + if 250 * Power(k - 1) < 30000 then 250 * Power(k - 1) else 30000)
    ensures var w := Run(INITIAL, events + [FinishEvent(id, false, t)]);
      var v := Run(w, more);
      id in v.q.pending && w.log <= v.log && forall i :: |w.log| <= i < |v.log| ==> v.log[i] != Start(id)
  {
    WaitsAfterFailure(events, id, t);
    Reached(events + [FinishEvent(id, false, t)]);
    hide Run, Inv, Failures, Power;
    NotBefore(Run(INITIAL, events + [FinishEvent(id, false, t)]), id, more);
  }

  lemma {:induction false} ReadyCount(pending: map<string, Schedule>, now: int, ids: set<string>)
    requires ids <= pending.Keys
    ensures |set id | id in ids && pending[id].readyAt <= now :: KeyOf(id, pending[id])| <= |ids|
    decreases |ids|
  {
    var keys := set id | id in ids && pending[id].readyAt <= now :: KeyOf(id, pending[id]);
    if ids == {} {
      assert keys == {};
    } else {
      var x :| x in ids;
      ReadyCount(pending, now, ids - {x});
      var fewer := set id | id in ids - {x} && pending[id].readyAt <= now :: KeyOf(id, pending[id]);
      assert keys == fewer + if pending[x].readyAt <= now then {KeyOf(x, pending[x])} else {};
    }
  }

  /** A claim with room for all starts exactly what is ready by its reading. */
  lemma StartsWhenReady(w: World, id: string, now: int, limit: nat)
    requires Disjoint(w) && id in w.q.pending && limit >= |w.q.pending|
    ensures var v := Step(w, ClaimEvent(now, limit));
      && (id in v.running <==> w.q.pending[id].readyAt <= now)
      && (id in v.running <==> exists i :: |w.log| <= i < |v.log| && v.log[i] == Start(id))
  {
    hide Taken, Starts, Ids, Touches;
    var keys, v := Taken(w.q.pending, now, limit), Step(w, ClaimEvent(now, limit));
    TakesAllReady(w.q.pending, now, limit);
    TakenPending(w.q, now, limit);
    StartsTouch(keys, id);
    TouchedStarts(keys, id);
    assert forall i :: |w.log| <= i < |v.log| ==> v.log[i] == Starts(keys)[i - |w.log|];
    assert forall i :: 0 <= i < |Starts(keys)| ==> Starts(keys)[i] == v.log[|w.log| + i];
  }

  lemma TouchedStarts(keys: seq<Key>, id: string)
    ensures (exists e :: e in Starts(keys) && Touches(e, id)) <==> Start(id) in Starts(keys)
  {
    assert Touches(Start(id), id);
  }

  lemma TakesAllReady(pending: map<string, Schedule>, now: int, limit: nat)
    requires limit >= |pending|
    ensures forall id :: id in pending ==> (id in Ids(Elements(Taken(pending, now, limit))) <==> pending[id].readyAt <= now)
  {
    hide StrictTotal, KeyLess;
    var order := ReadyOrder(pending, now);
    KeysTotal();
    SortedNoDuplicates(KeyLess, order);
    ReadyCount(pending, now, pending.Keys);
    assert |pending.Keys| == |pending|;
    assert Taken(pending, now, limit) == order;
    forall id | id in pending && pending[id].readyAt <= now
      ensures id in Ids(Elements(order))
    {
      assert KeyOf(id, pending[id]) in Elements(order);
    }
  }

  /** What a claim takes comes before what it leaves though it is ready: fewer failures first, then
      what was ready earlier, then what was put back earlier. And it leaves something ready only
      when it has taken all it may. */
  lemma TakesLeast(w: World, now: int, limit: nat, x: string, y: string)
    requires x in w.q.pending && y in w.q.pending && w.q.pending[y].readyAt <= now
    requires var v := Step(w, ClaimEvent(now, limit)); x !in v.q.pending && y in v.q.pending
    ensures var a, b := w.q.pending[x], w.q.pending[y];
      || a.failedAttempts < b.failedAttempts
      || (a.failedAttempts == b.failedAttempts && a.readyAt < b.readyAt)
      || (a.failedAttempts == b.failedAttempts && a.readyAt == b.readyAt && a.sequence < b.sequence)
      || (a.failedAttempts == b.failedAttempts && a.readyAt == b.readyAt && a.sequence == b.sequence && StringLess(x, y))
    ensures |Step(w, ClaimEvent(now, limit)).q.pending| + limit == |w.q.pending|
  {
    hide StringLess, StrictTotal;
    var keys, order, v := Taken(w.q.pending, now, limit), ReadyOrder(w.q.pending, now), Step(w, ClaimEvent(now, limit));
    IdsFrom(keys);
    TakenPending(w.q, now, limit);
    var i :| 0 <= i < |keys| && keys[i].id == x;
    assert KeyOf(y, w.q.pending[y]) in Elements(order);
    var j :| 0 <= j < |order| && order[j] == KeyOf(y, w.q.pending[y]);
    assert j >= |keys| by { InIds(keys); }
    assert KeyLess(order[i], order[j]);
    CountTaken(w.q.pending, now, limit);
    SubsetCount(v.q.pending.Keys, w.q.pending.Keys);
    assert v.q.pending.Keys == w.q.pending.Keys - Ids(Elements(keys));
    assert |v.q.pending| == |v.q.pending.Keys| && |w.q.pending| == |w.q.pending.Keys|;
  }

  lemma InIds(keys: seq<Key>)
    ensures forall i :: 0 <= i < |keys| ==> keys[i].id in Ids(Elements(keys))
  {
    assert forall i :: 0 <= i < |keys| ==> keys[i] in Elements(keys);
  }

  lemma CountTaken(pending: map<string, Schedule>, now: int, limit: nat)
    ensures |Ids(Elements(Taken(pending, now, limit)))| == |Taken(pending, now, limit)|
  {
    hide StrictTotal, KeyLess;
    var keys := Taken(pending, now, limit);
    forall i, j | 0 <= i < j < |keys|
      ensures keys[i].id != keys[j].id
    {
      assert keys[i] in ReadyKeys(pending, now) && keys[j] in ReadyKeys(pending, now);
      assert KeyLess(ReadyOrder(pending, now)[i], ReadyOrder(pending, now)[j]);
      NotBelowItself(keys[i]);
    }
    CountIds(keys);
  }

  lemma {:induction false} CountIds(keys: seq<Key>)
    requires forall i, j :: 0 <= i < j < |keys| ==> keys[i].id != keys[j].id
    ensures |Ids(Elements(keys))| == |keys|
  {
    if keys == [] {
      assert Ids(Elements(keys)) == {};
    } else {
      var front, k := keys[..|keys| - 1], keys[|keys| - 1];
      CountIds(front);
      assert keys == front + [k];
      assert Ids(Elements(keys)) == Ids(Elements(front)) + {k.id};
      IdsFrom(front);
    }
  }

  // ---- Nothing is done that is not owed ----

  /** The id has been enqueued again since its attempt was claimed. */
  ghost predicate AskedAgain(log: seq<Entry>, id: string) {
    exists i :: 0 <= i < |log| && log[i] == Enqueue(id) && forall m :: i < m < |log| ==> !Touches(log[m], id)
  }

  ghost predicate IsOwed(log: seq<Entry>, id: string) {
    exists i: nat :: Owed(log, i, id)
  }

  /** What is pending or being worked on is owed, and what is marked was asked for again. */
  ghost predicate AllOwed(w: World) {
    && (forall id :: id in w.q.pending || id in w.q.inFlight ==> IsOwed(w.log, id))
    && (forall id :: id in w.q.inFlight ==> (id in w.q.rerun <==> AskedAgain(w.log, id)))
  }

  lemma AskedMore(log: seq<Entry>, more: seq<Entry>, id: string)
    requires forall e :: e in more ==> !Touches(e, id) && e != Enqueue(id)
    ensures AskedAgain(log + more, id) <==> AskedAgain(log, id)
  {
    if AskedAgain(log, id) {
      var i :| 0 <= i < |log| && log[i] == Enqueue(id) && forall m :: i < m < |log| ==> !Touches(log[m], id);
      assert (log + more)[i] == Enqueue(id);
    }
    if AskedAgain(log + more, id) {
      var i :| 0 <= i < |log + more| && (log + more)[i] == Enqueue(id)
        && forall m :: i < m < |log + more| ==> !Touches((log + more)[m], id);
      LaterInMore(log, more);
      assert log[i] == Enqueue(id);
      forall m | i < m < |log|
        ensures !Touches(log[m], id)
      {
        assert (log + more)[m] == log[m];
      }
    }
  }

  /** An obligation stays one while no attempt on its id succeeds. */
  lemma OwedMore(log: seq<Entry>, more: seq<Entry>, id: string)
    requires IsOwed(log, id) && forall e :: e in more ==> e != Finish(id, true)
    ensures IsOwed(log + more, id)
  {
    var i: nat :| Owed(log, i, id);
    if Discharged(log + more, i, id) {
      var j: nat, k: nat :| i < j && Succeeded(log + more, j, k, id);
      SucceededBefore(log, more, j, k, id);
    }
    assert Owed(log + more, i, id);
  }

  lemma LaterInMore(log: seq<Entry>, more: seq<Entry>)
    ensures forall k :: |log| <= k < |log + more| ==> (log + more)[k] in more
  {
  }

  lemma SucceededBefore(log: seq<Entry>, more: seq<Entry>, j: nat, k: nat, id: string)
    requires Succeeded(log + more, j, k, id) && forall e :: e in more ==> e != Finish(id, true)
    ensures Succeeded(log, j, k, id)
  {
    LaterInMore(log, more);
    forall m | j < m < k
      ensures !Touches(log[m], id)
    {
      assert log[m] == (log + more)[m];
    }
  }

  lemma EnqueueAllOwed(w: World, id: string, now: int)
    requires Disjoint(w) && AllOwed(w)
    ensures AllOwed(Step(w, EnqueueEvent(id, now)))
  {
    hide IsOwed, AskedAgain;
    var v, more := Step(w, EnqueueEvent(id, now)), [Enqueue(id)];
    assert IsOwed(v.log, id) && AskedAgain(v.log, id) by { JustAsked(w.log, id); }
    forall x | x != id
      ensures IsOwed(w.log, x) ==> IsOwed(v.log, x)
      ensures AskedAgain(v.log, x) <==> AskedAgain(w.log, x)
    {
      AskedMore(w.log, more, x);
      if IsOwed(w.log, x) {
        OwedMore(w.log, more, x);
      }
    }
  }

  lemma JustAsked(log: seq<Entry>, id: string)
    ensures IsOwed(log + [Enqueue(id)], id) && AskedAgain(log + [Enqueue(id)], id)
  {
    assert (log + [Enqueue(id)])[|log|] == Enqueue(id);
    assert Owed(log + [Enqueue(id)], |log|, id);
  }

  lemma ClaimAllOwed(w: World, now: int, limit: nat)
    requires Disjoint(w) && AllOwed(w)
    ensures AllOwed(Step(w, ClaimEvent(now, limit)))
  {
    hide IsOwed, AskedAgain, Taken, Starts, Ids, RunningAfter, Touches;
    var v, keys := Step(w, ClaimEvent(now, limit)), Taken(w.q.pending, now, limit);
    TakenPending(w.q, now, limit);
    forall x
      ensures IsOwed(w.log, x) ==> IsOwed(v.log, x)
      ensures x in w.q.inFlight ==> (AskedAgain(v.log, x) <==> AskedAgain(w.log, x))
      ensures x in Ids(Elements(keys)) ==> !AskedAgain(v.log, x)
    {
      StartsTouch(keys, x);
      if IsOwed(w.log, x) {
        OwedMore(w.log, Starts(keys), x);
      }
      if x in w.q.inFlight {
        AskedMore(w.log, Starts(keys), x);
      }
      if x in Ids(Elements(keys)) {
        JustStarted(w.log, keys, x);
      }
    }
  }

  lemma JustStarted(log: seq<Entry>, keys: seq<Key>, id: string)
    requires id in Ids(Elements(keys))
    ensures !AskedAgain(log + Starts(keys), id)
  {
    StartedOpen(log, keys, id);
    var j :| |log| <= j && OpenAt(log + Starts(keys), j, id);
    StartsTouch(keys, id);
    var all := log + Starts(keys);
    forall i | |log| <= i < |all|
      ensures all[i] != Enqueue(id)
    {
      assert all[i] in Starts(keys);
    }
    assert Touches(all[j], id);
  }

  lemma FinishAllOwed(w: World, id: string, ok: bool, now: int)
    requires Disjoint(w) && AllOwed(w)
    ensures AllOwed(Step(w, FinishEvent(id, ok, now)))
  {
    hide IsOwed, AskedAgain, Touches;
    if id in w.running {
      var v, more := Step(w, FinishEvent(id, ok, now)), [Finish(id, ok)];
      forall x | x != id
        ensures IsOwed(w.log, x) ==> IsOwed(v.log, x)
        ensures AskedAgain(v.log, x) <==> AskedAgain(w.log, x)
      {
        FinishesOther(w.log, id, ok, x);
      }
      if id in v.q.pending {
        FinishedOwed(w.log, id, ok);
      }
    }
  }

  lemma FinishesOther(log: seq<Entry>, id: string, ok: bool, x: string)
    requires x != id
    ensures IsOwed(log, x) ==> IsOwed(log + [Finish(id, ok)], x)
    ensures AskedAgain(log + [Finish(id, ok)], x) <==> AskedAgain(log, x)
  {
    hide IsOwed, AskedAgain;
    AskedMore(log, [Finish(id, ok)], x);
    if IsOwed(log, x) {
      OwedMore(log, [Finish(id, ok)], x);
    }
  }

  /** A failed attempt still owes, and so does one that was asked for again. */
  lemma FinishedOwed(log: seq<Entry>, id: string, ok: bool)
    requires IsOwed(log, id) && (ok ==> AskedAgain(log, id))
    ensures IsOwed(log + [Finish(id, ok)], id)
  {
    if ok {
      var i :| 0 <= i < |log| && log[i] == Enqueue(id) && forall m :: i < m < |log| ==> !Touches(log[m], id);
      var all := log + [Finish(id, ok)];
      assert all[i] == Enqueue(id);
      forall j | i < j < |all|
        ensures all[j] != Start(id)
      {
        if j < |log| {
          assert !Touches(log[j], id);
        }
      }
      assert Owed(all, i, id);
    } else {
      OwedMore(log, [Finish(id, ok)], id);
    }
  }

  lemma {:induction false} RunAllOwed(w: World, events: seq<Event>)
    requires Inv(w) && AllOwed(w)
    ensures AllOwed(Run(w, events))
    decreases |events|
  {
    hide Inv, AllOwed, Step;
    if events != [] {
      DisjointOf(w);
      StepAllOwed(w, events[0]);
      StepKeepsInv(w, events[0]);
      RunAllOwed(Step(w, events[0]), events[1..]);
    }
  }

  lemma StepAllOwed(w: World, e: Event)
    requires Disjoint(w) && AllOwed(w)
    ensures AllOwed(Step(w, e))
  {
    hide Disjoint, AllOwed, Step;
    match e
    case EnqueueEvent(id, now) => EnqueueAllOwed(w, id, now);
    case ClaimEvent(now, limit) => ClaimAllOwed(w, now, limit);
    case FinishEvent(id, ok, now) => FinishAllOwed(w, id, ok, now);
  }

  /** In every run, an id is pending or being worked on exactly if it is owed: it was enqueued, and
      no attempt claimed since then has succeeded. */
  lemma OwedExactly(events: seq<Event>, id: string)
    ensures var w := Run(INITIAL, events);
      IsOwed(w.log, id) <==> id in w.q.pending || id in w.q.inFlight
  {
    RunAllOwed(INITIAL, events);
    NoObligationLost(events);
    hide Run, Owed, Inv;
    if IsOwed(Run(INITIAL, events).log, id) {
      var i: nat :| Owed(Run(INITIAL, events).log, i, id);
      assert Kept(Run(INITIAL, events), i, id);
    }
  }

  /** After a success the id is tried again, at once, exactly if it was enqueued again since the
      attempt was claimed; and then it counts its failures anew. */
  lemma AfterSuccess(events: seq<Event>, id: string, t: int)
    requires id in Run(INITIAL, events).running
    ensures var w, v := Run(INITIAL, events), Run(INITIAL, events + [FinishEvent(id, true, t)]);
      && (id in v.q.pending <==> AskedAgain(w.log, id)) && id !in v.running
      && (id in v.q.pending ==> v.q.pending[id].readyAt == t) && Failures(v.log, id) == 0
  {
    Reached(events);
    RunAllOwed(INITIAL, events);
    OneMore(events, FinishEvent(id, true, t));
    FailuresAppend(Run(INITIAL, events).log, Finish(id, true), id);
    hide Run, Failures, AskedAgain, IsOwed, Inv, Counted;
  }
}
