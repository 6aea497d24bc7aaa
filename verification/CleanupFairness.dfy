/** Failing retries cannot starve a waiting first attempt, and only a completion with an
    older clock reading can overtake it. */
module CleanupFairness {
  import opened Orders
  import opened CleanupQueue
  import opened CleanupHistory

  /** The never-failed obligations that are claimed before `x`. */
  function Ahead(q: Queue, x: string): set<Key>
    requires x in q.pending
  {
    set id | id in q.pending && q.pending[id].failedAttempts == 0 && KeyLess(KeyOf(id, q.pending[id]), KeyOf(x, q.pending[x]))
           :: KeyOf(id, q.pending[id])
  }

  /** `x` waits for its first attempt. */
  predicate WaitsFirst(q: Queue, x: string) {
    x in q.pending && q.pending[x].failedAttempts == 0
  }

  /** And it is ready for it. */
  predicate ReadyFirst(q: Queue, x: string, now: int) {
    WaitsFirst(q, x) && q.pending[x].readyAt <= now
  }

  /** The events that put an obligation ahead of one that is ready at `at`: a first enqueue, or
      a success with a rerun asked for, that comes with an older clock reading. */
  predicate Overtakes(w: World, at: int, e: Event) {
    match e
    case EnqueueEvent(id, now) => Inserts(w.q, id) && now < at
    case ClaimEvent(now, limit) => false
    case FinishEvent(id, ok, now) => id in w.running && ok && id in w.q.rerun && now < at
  }

  function Once(b: bool): nat {
    if b then 1 else 0
  }

  lemma {:induction false} AddedAhead(q: Queue, x: string, id: string, s: Schedule)
    requires WaitsFirst(q, x) && q.pending[x].sequence < q.nextSequence
    requires id !in q.pending && s.sequence == q.nextSequence
    ensures var v, over := q.(pending := q.pending[id := s]), s.failedAttempts == 0 && s.readyAt < q.pending[x].readyAt;
      && (Ahead(v, x) != Ahead(q, x) <==> over)
      && |Ahead(v, x)| == |Ahead(q, x)| + Once(over)
  {
    var v, over := q.(pending := q.pending[id := s]), s.failedAttempts == 0 && s.readyAt < q.pending[x].readyAt;
    assert over <==> s.failedAttempts == 0 && KeyLess(KeyOf(id, s), KeyOf(x, q.pending[x]));
    hide KeyLess, Ahead;
    forall k
      ensures k in Ahead(v, x) <==> k in Ahead(q, x) || (over && k == KeyOf(id, s))
    {
      AheadIs(q, x, k);
      AheadIs(v, x, k);
    }
    assert Ahead(v, x) == Ahead(q, x) + if over then {KeyOf(id, s)} else {};
    AheadIs(q, x, KeyOf(id, s));
  }

  lemma AheadIs(q: Queue, x: string, k: Key)
    requires x in q.pending
    ensures k in Ahead(q, x) <==>
      && k.id in q.pending && q.pending[k.id].failedAttempts == 0 && k == KeyOf(k.id, q.pending[k.id])
      && KeyLess(k, KeyOf(x, q.pending[x]))
  {
  }

  /** An enqueue puts an obligation ahead of a waiting first attempt exactly if it inserts one
      with an older clock reading. */
  lemma EnqueueOvertakesExactly(w: World, x: string, id: string, now: int)
    requires Disjoint(w) && WaitsFirst(w.q, x)
    ensures var v, over := Step(w, EnqueueEvent(id, now)), Overtakes(w, w.q.pending[x].readyAt, EnqueueEvent(id, now));
      && WaitsFirst(v.q, x) && v.q.pending[x] == w.q.pending[x]
      && (Ahead(v.q, x) != Ahead(w.q, x) <==> over)
      && |Ahead(v.q, x)| == |Ahead(w.q, x)| + Once(over)
  {
    hide KeyLess;
    if Inserts(w.q, id) {
      AddedAhead(w.q, x, id, Schedule(now, INITIAL_RETRY, 0, w.q.nextSequence));
    }
  }

  /** A completion does so exactly if it is a success with a rerun asked for and an older clock
      reading; a failure never does. */
  lemma FinishOvertakesExactly(w: World, x: string, id: string, ok: bool, now: int)
    requires Disjoint(w) && WaitsFirst(w.q, x)
    ensures var v, over := Step(w, FinishEvent(id, ok, now)), Overtakes(w, w.q.pending[x].readyAt, FinishEvent(id, ok, now));
      && WaitsFirst(v.q, x) && v.q.pending[x] == w.q.pending[x]
      && (Ahead(v.q, x) != Ahead(w.q, x) <==> over)
      && |Ahead(v.q, x)| == |Ahead(w.q, x)| + Once(over)
  {
    hide KeyLess;
    if id in w.running {
      var v := Completed(w.q, w.running[id], ok, now);
      if id in v.pending {
        AddedAhead(w.q, x, id, v.pending[id]);
      }
    }
  }

  lemma AheadReady(q: Queue, x: string, now: int, k: Key)
    requires ReadyFirst(q, x, now)
    ensures k in Ahead(q, x) <==> k in ReadyKeys(q.pending, now) && KeyLess(k, KeyOf(x, q.pending[x]))
  {
  }

  /** In a sorted listing, what is below the element at `p` is what is listed before it. */
  lemma BelowIsPrefix(q: seq<Key>, p: nat)
    requires StrictTotal(KeyLess) && Sorted(KeyLess, q) && p < |q|
    ensures forall k :: k in Elements(q[..p]) <==> k in Elements(q) && KeyLess(k, q[p])
    ensures |Elements(q[..p])| == p
  {
    assert StrictTotal(KeyLess) && forall k :: !(KeyLess(k, q[p]) && KeyLess(q[p], k));
    hide KeyLess, StrictTotal;
    forall k
      ensures k in Elements(q[..p]) <==> k in Elements(q) && KeyLess(k, q[p])
    {
      if k in Elements(q) {
        var i :| 0 <= i < |q| && q[i] == k;
        assert i < p ==> q[..p][i] == k;
        if i > p {
          assert KeyLess(q[p], q[i]);
        }
        if k in q[..p] {
          var j :| 0 <= j < p && q[..p][j] == k;
          assert KeyLess(q[j], q[p]);
        } else if i == p {
          assert !(KeyLess(k, k) && KeyLess(k, k));
        }
      }
    }
    SortedNoDuplicates(KeyLess, q[..p]);
  }

  /** `x` sits in the ready order right behind the obligations ahead of it. */
  lemma PositionOf(q: Queue, x: string, now: int) returns (p: nat)
    requires ReadyFirst(q, x, now)
    ensures var order := ReadyOrder(q.pending, now);
      p < |order| && order[p] == KeyOf(x, q.pending[x]) && Ahead(q, x) == Elements(order[..p]) && |Ahead(q, x)| == p
  {
    hide KeyLess, StrictTotal, Ahead;
    var order, kx := ReadyOrder(q.pending, now), KeyOf(x, q.pending[x]);
    assert kx in ReadyKeys(q.pending, now);
    assert kx in Elements(order);
    p :| 0 <= p < |order| && order[p] == kx;
    BelowIsPrefix(order, p);
    forall k
      ensures k in Ahead(q, x) <==> k in Elements(order[..p])
    {
      AheadReady(q, x, now, k);
    }
  }

  /** One claim either takes `x` or removes `limit` of the obligations ahead of it. */
  lemma ClaimTakesOrAdvances(w: World, x: string, now: int, limit: nat)
    requires Disjoint(w) && ReadyFirst(w.q, x, now)
    ensures var v := Step(w, ClaimEvent(now, limit));
      if x in v.q.pending
      then v.q.pending[x] == w.q.pending[x] && |Ahead(w.q, x)| == |Ahead(v.q, x)| + limit
      else Start(x) in v.log
  {
    hide KeyLess, StrictTotal, Sorted, ReadyKeys, Ahead;
    var p := PositionOf(w.q, x, now);
    var order, taken := ReadyOrder(w.q.pending, now), Taken(w.q.pending, now, limit);
    if limit > p {
      assert taken[p] == KeyOf(x, w.q.pending[x]);
      assert Starts(taken)[p] == Start(x);
      assert x in Ids(Elements(taken));
      assert Start(x) in Starts(taken);
    } else {
      ClaimAdvances(w.q, x, now, limit, p);
    }
  }

  lemma ClaimAdvances(q: Queue, x: string, now: int, limit: nat, p: nat)
    requires ReadyFirst(q, x, now) && limit <= p < |ReadyOrder(q.pending, now)|
    requires var order := ReadyOrder(q.pending, now);
      order[p] == KeyOf(x, q.pending[x]) && Ahead(q, x) == Elements(order[..p]) && |Ahead(q, x)| == p
    ensures var v := Claimed(q, now, limit);
      x in v.pending && v.pending[x] == q.pending[x] && |Ahead(v, x)| == p - limit
  {
    hide StrictTotal, ReadyKeys, Ahead;
    var order, taken, v := ReadyOrder(q.pending, now), Taken(q.pending, now, limit), Claimed(q, now, limit);
    assert taken == order[..limit];
    assert Elements(taken) <= Elements(order[..p]);
    ReadyWithout(q.pending, now, Elements(taken));
    forall k | k in Elements(taken)
      ensures k.id != x
    {
      AheadReady(q, x, now, k);
      ReadyKey(q.pending, now, k);
      KeysTotal();
      NotBelowItself(KeyOf(x, q.pending[x]));
    }
    forall k
      ensures k in Ahead(v, x) <==> k in Ahead(q, x) - Elements(taken)
    {
      AheadReady(q, x, now, k);
      AheadReady(v, x, now, k);
    }
    assert Ahead(v, x) == Ahead(q, x) - Elements(taken);
    assert Sorted(KeyLess, taken);
    SortedNoDuplicates(KeyLess, taken);
  }

  lemma NotBelowItself(k: Key)
    ensures !KeyLess(k, k)
  {
    KeysTotal();
  }

  /** A claim with a reading before `x` is ready leaves it, and puts nothing ahead of it. */
  lemma EarlyClaim(w: World, x: string, now: int, limit: nat)
    requires WaitsFirst(w.q, x) && now < w.q.pending[x].readyAt
    ensures var v := Step(w, ClaimEvent(now, limit));
      x in v.q.pending && v.q.pending[x] == w.q.pending[x] && |Ahead(v.q, x)| <= |Ahead(w.q, x)|
  {
    var keys, v := Taken(w.q.pending, now, limit), Claimed(w.q, now, limit);
    forall k | k in Elements(keys)
      ensures k.id != x
    {
      ReadyKey(w.q.pending, now, k);
    }
    hide KeyLess, Taken;
    forall k | k in Ahead(v, x)
      ensures k in Ahead(w.q, x)
    {
      assert k.id in v.pending && k == KeyOf(k.id, v.pending[k.id]);
      assert k == KeyOf(k.id, w.q.pending[k.id]);
    }
    SubsetCount(Ahead(v, x), Ahead(w.q, x));
  }

  // ---- No starvation ----

  /** How many obligations the claims of a run may take whose clock reading is at least `at`. */
  function UsefulBudget(events: seq<Event>, at: int): nat {
    if events == [] then 0 else Useful(events[0], at) + UsefulBudget(events[1..], at)
  }

  function Useful(e: Event, at: int): nat {
    if e.ClaimEvent? && e.now >= at then e.limit else 0
  }

  ghost function Overtakings(w: World, at: int, events: seq<Event>): nat
    decreases |events|
  {
    if events == [] then 0 else Once(Overtakes(w, at, events[0])) + Overtakings(Step(w, events[0]), at, events[1..])
  }

  /** Any event starts `x`, or leaves it waiting behind what was ahead of it, less what a claim
      took, plus what overtook it. */
  lemma StepAdvances(w: World, x: string, e: Event)
    requires Disjoint(w) && WaitsFirst(w.q, x)
    ensures var v, at := Step(w, e), w.q.pending[x].readyAt;
      if x in v.q.pending
      then v.q.pending[x] == w.q.pending[x] && |Ahead(v.q, x)| + Useful(e, at) <= |Ahead(w.q, x)| + Once(Overtakes(w, at, e))
      else Start(x) in v.log
  {
    hide KeyLess, Ahead, Step;
    match e
    case EnqueueEvent(id, now) => EnqueueOvertakesExactly(w, x, id, now);
    case ClaimEvent(now, limit) =>
      if now >= w.q.pending[x].readyAt {
        ClaimTakesOrAdvances(w, x, now, limit);
      } else {
        EarlyClaim(w, x, now, limit);
      }
    case FinishEvent(id, ok, now) => FinishOvertakesExactly(w, x, id, ok, now);
  }

  lemma {:induction false} LogGrows(w: World, events: seq<Event>)
    ensures w.log <= Run(w, events).log
    decreases |events|
  {
    hide Taken, Completed, Claimed, Enqueued;
    if events != [] {
      LogGrows(Step(w, events[0]), events[1..]);
    }
  }

  /** Whatever the clocks read, a waiting first attempt starts once claims have been allowed to
      take more obligations, since it became ready, than were ahead of it and overtook it. */
  lemma {:induction false} StartsWithin(w: World, x: string, events: seq<Event>)
    requires Inv(w) && WaitsFirst(w.q, x)
    requires var at := w.q.pending[x].readyAt; UsefulBudget(events, at) > |Ahead(w.q, x)| + Overtakings(w, at, events)
    ensures Start(x) in Run(w, events).log
    decreases |events|
  {
    hide KeyLess, Ahead, Step, Inv, Overtakes, Useful;
    var e, v := events[0], Step(w, events[0]);
    DisjointOf(w);
    StepAdvances(w, x, e);
    StepKeepsInv(w, e);
    if x in v.q.pending {
      StartsWithin(v, x, events[1..]);
    } else {
      LogGrows(v, events[1..]);
      assert forall s :: s in v.log ==> s in Run(v, events[1..]).log;
    }
  }

  lemma DisjointOf(w: World)
    requires Inv(w)
    ensures Disjoint(w)
  {
  }

  predicate NonDecreasing(start: int, events: seq<Event>)
    decreases |events|
  {
    events == [] || (start <= events[0].now && NonDecreasing(events[0].now, events[1..]))
  }

  /** How many obligations the claims of a run may take in all. */
  function ClaimBudget(events: seq<Event>): nat {
    if events == [] then 0 else
      (if events[0].ClaimEvent? then events[0].limit else 0) + ClaimBudget(events[1..])
  }

  /** So with readings that do not decrease nothing overtakes, and every claim counts. */
  lemma NoStarvation(w: World, x: string, events: seq<Event>)
    requires Inv(w) && WaitsFirst(w.q, x) && NonDecreasing(w.q.pending[x].readyAt, events)
    requires ClaimBudget(events) > |Ahead(w.q, x)|
    ensures Start(x) in Run(w, events).log
  {
    hide Inv, Ahead, Run;
    var at := w.q.pending[x].readyAt;
    AllUseful(w, at, at, events);
    StartsWithin(w, x, events);
  }

  lemma {:induction false} AllUseful(w: World, at: int, now: int, events: seq<Event>)
    requires NonDecreasing(now, events) && at <= now
    ensures UsefulBudget(events, at) == ClaimBudget(events) && Overtakings(w, at, events) == 0
    decreases |events|
  {
    hide Step;
    if events != [] {
      AllUseful(Step(w, events[0]), at, events[0].now, events[1..]);
    }
  }

  // ---- Which readings can occur ----

  /** An enqueue reads its clock under the lock, so after every earlier call. The worker reads it
      before it takes the lock, but after its own previous call. */
  predicate ReadsClock(events: seq<Event>, i: nat)
    requires i < |events|
  {
    forall j, p :: 0 <= j <= p < i && (events[i].EnqueueEvent? || !events[p].EnqueueEvent?) ==> events[j].now <= events[i].now
  }

  predicate MayOccur(events: seq<Event>) {
    forall i :: 0 <= i < |events| ==> ReadsClock(events, i)
  }

  lemma {:induction false} RunAppends(w: World, events: seq<Event>, more: seq<Event>)
    ensures Run(w, events + more) == Run(Run(w, events), more)
    decreases |events|
  {
    hide Step;
    if events == [] {
      assert events + more == more;
    } else {
      assert (events + more)[1..] == events[1..] + more;
      RunAppends(Step(w, events[0]), events[1..], more);
    }
  }

  /** First attempts wait since a time that was read. */
  ghost predicate ReadyBy(w: World, t: int) {
    forall id :: WaitsFirst(w.q, id) ==> w.q.pending[id].readyAt <= t
  }

  lemma StepReadyBy(w: World, e: Event, t: int)
    requires ReadyBy(w, t) && e.now <= t
    ensures ReadyBy(Step(w, e), t)
  {
    hide Taken;
    assert forall id :: WaitsFirst(w.q, id) ==> w.q.pending[id].readyAt <= t;
    if e.FinishEvent? && e.id in w.running {
      assert forall id :: WaitsFirst(Step(w, e).q, id) && id != w.running[e.id].id ==> WaitsFirst(w.q, id);
    } else {
      assert forall id :: WaitsFirst(Step(w, e).q, id) ==> WaitsFirst(w.q, id) || (e.EnqueueEvent? && id == e.id);
    }
  }

  lemma {:induction false} RunReadyBy(w: World, events: seq<Event>, t: int)
    requires ReadyBy(w, t) && forall i :: 0 <= i < |events| ==> events[i].now <= t
    ensures ReadyBy(Run(w, events), t)
    decreases |events|
  {
    hide Step;
    if events != [] {
      StepReadyBy(w, events[0], t);
      RunReadyBy(Step(w, events[0]), events[1..], t);
    }
  }

  /** In runs that can occur an enqueue never overtakes: only a completion can. */
  lemma EnqueueNeverOvertakes(events: seq<Event>, id: string, now: int, x: string)
    requires MayOccur(events + [EnqueueEvent(id, now)]) && WaitsFirst(Run(INITIAL, events).q, x)
    ensures var w := Run(INITIAL, events); !Overtakes(w, w.q.pending[x].readyAt, EnqueueEvent(id, now))
  {
    hide Step, Run;
    var all := events + [EnqueueEvent(id, now)];
    assert ReadsClock(all, |events|);
    forall j | 0 <= j < |events|
      ensures events[j].now <= now
    {
      assert all[j] == events[j];
    }
    RunReadyBy(INITIAL, events, now);
  }

  /** And a completion does, in a run that can occur: the worker reads its clock, an obligation
      is enqueued, and only then does the completion, with a rerun asked for, take the lock. */
  lemma OlderReadingOvertakes() returns (events: seq<Event>, e: Event)
    ensures MayOccur(events + [e]) && e.FinishEvent? && e.ok
    ensures var w := Run(INITIAL, events);
      && WaitsFirst(w.q, "x") && Overtakes(w, w.q.pending["x"].readyAt, e)
      && |Ahead(w.q, "x")| == 0
      && WaitsFirst(Step(w, e).q, "x") && |Ahead(Step(w, e).q, "x")| == 1
  {
    hide Run, Taken, Starts, RunningAfter, Inv, Disjoint, Completed;
    events := [EnqueueEvent("y", 5), ClaimEvent(5, 1), EnqueueEvent("y", 6), EnqueueEvent("x", 10)];
    e := FinishEvent("y", true, 7);
    var w1 := Step(INITIAL, EnqueueEvent("y", 5));
    ClaimsTheOnlyOne(w1, "y", 5);
    var w3 := Step(Step(w1, ClaimEvent(5, 1)), EnqueueEvent("y", 6));
    var w := Step(w3, EnqueueEvent("x", 10));
    FourSteps(events);
    assert w == Run(INITIAL, events);
    RunKeepsInv(INITIAL, events);
    DisjointOf(w);
    assert w.q == Queue(map["x" := Schedule(10, INITIAL_RETRY, 0, 1)], {"y"}, {"y"}, 2);
    FinishOvertakesExactly(w, "x", "y", true, 7);
    NoneAhead(w.q, "x");
  }

  lemma NoneAhead(q: Queue, x: string)
    requires q.pending.Keys == {x}
    ensures Ahead(q, x) == {}
  {
    NotBelowItself(KeyOf(x, q.pending[x]));
  }

  lemma FourSteps(events: seq<Event>)
    requires |events| == 4
    ensures Run(INITIAL, events) == Step(Step(Step(Step(INITIAL, events[0]), events[1]), events[2]), events[3])
  {
    hide Step;
    var w := Step(INITIAL, events[0]);
    var rest := events[1..];
    assert Run(INITIAL, events) == Run(w, rest);
    assert Run(w, rest) == Run(Step(w, rest[0]), rest[1..]);
    var v, last := Step(w, rest[0]), rest[1..];
    assert Run(v, last) == Run(Step(v, last[0]), last[1..]);
    var u, one := Step(v, last[0]), last[1..];
    assert Run(u, one) == Run(Step(u, one[0]), one[1..]);
    assert one[1..] == [];
  }

  lemma ClaimsTheOnlyOne(w: World, id: string, now: int)
    requires w.q.pending.Keys == {id} && w.q.pending[id].readyAt <= now && w.q.inFlight == {} && w.running == map[]
    ensures var v := Step(w, ClaimEvent(now, 1));
      v.q == w.q.(pending := map[], inFlight := {id}) && v.running.Keys == {id} && v.running[id].id == id
  {
    hide StrictTotal, KeyLess, Sorted;
    var order, k := ReadyOrder(w.q.pending, now), KeyOf(id, w.q.pending[id]);
    assert ReadyKeys(w.q.pending, now) == {k};
    KeysTotal();
    SortedNoDuplicates(KeyLess, order);
    assert |order| == 1 && order[0] in Elements(order);
    assert Taken(w.q.pending, now, 1) == [k];
    assert Ids(Elements([k])) == {id};
  }
}
