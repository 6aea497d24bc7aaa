/** The cleanup worker loop against concurrent enqueuers. Every point where the loop
    can be overtaken is a step of its own, and so are the two halves of an enqueue:
    the insertion under the lock and the notification after it is released. */
module CleanupWorker {
  import opened Options
  import opened Orders
  import opened CleanupQueue
  import opened CleanupHistory
  import opened CleanupFairness

  datatype Phase =
    | Scanning
    | Pushed
    | Full
    | Measured(readAt: int, delay: Option<nat>)
    | Blocked(measuredAt: int, armedAt: int, due: Option<int>)

  datatype Worker = Worker(w: World, phase: Phase, permit: bool, notifiers: nat)

  datatype Action =
    | Insert(id: string, now: int)
    | Notify
    | ClaimReady(now: int)
    | CapacityReached
    | Measure(now: int, delay: Option<nat>)
    | Arm(now: int)
    | TakePermit
    | TimerFires(now: int)
    | AttemptEnds(id: string, ok: bool, now: int)

  const START := Worker(INITIAL, Scanning, false, 0)

  /** What `next_ready_delay` returns: the wait until the earliest pending obligation. */
  ghost predicate IsDelay(q: Queue, now: int, delay: Option<nat>) {
    && (delay.None? <==> q.pending == map[])
    && (delay.Some? ==> exists id :: id in q.pending && delay.value == Until(q.pending[id].readyAt, now))
    && (delay.Some? ==> forall id :: id in q.pending ==> delay.value <= Until(q.pending[id].readyAt, now))
  }

  ghost predicate Enabled(s: Worker, a: Action) {
    match a
    case Insert(id, now) => true
    case Notify => s.notifiers > 0
    case ClaimReady(now) => s.phase.Scanning?
    case CapacityReached => s.phase.Pushed? && |s.w.running| >= MAX_CONCURRENCY
    case Measure(now, delay) => s.phase.Pushed? && |s.w.running| < MAX_CONCURRENCY && IsDelay(s.w.q, now, delay)
    case Arm(now) => s.phase.Measured?
    case TakePermit => s.phase.Blocked? && s.permit
    case TimerFires(now) => s.phase.Blocked? && s.phase.due.Some? && s.phase.due.value <= now
    case AttemptEnds(id, ok, now) => (s.phase.Full? || s.phase.Blocked?) && id in s.w.running
  }

  /** `MAX_CONCURRENCY.saturating_sub(cleanups.len())` */
  function Available(s: Worker): nat {
    if |s.w.running| <= MAX_CONCURRENCY then MAX_CONCURRENCY - |s.w.running| else 0
  }

  ghost function Next(s: Worker, a: Action): Worker
    requires Enabled(s, a)
  {
    match a
    case Insert(id, now) =>
      s.(w := Step(s.w, EnqueueEvent(id, now)), notifiers := s.notifiers + if Inserts(s.w.q, id) then 1 else 0)
    case Notify => s.(notifiers := s.notifiers - 1, permit := true)
    case ClaimReady(now) => s.(w := Step(s.w, ClaimEvent(now, Available(s))), phase := Pushed)
    case CapacityReached => s.(phase := Full)
    case Measure(now, delay) => s.(phase := Measured(now, delay))
    case Arm(now) =>
      s.(phase := Blocked(s.phase.readAt, now,
        if s.phase.delay.Some? then Some(now + s.phase.delay.value) else None))
    case TakePermit => s.(phase := Scanning, permit := false)
    case TimerFires(now) => s.(phase := Scanning)
    case AttemptEnds(id, ok, now) => s.(w := Step(s.w, FinishEvent(id, ok, now)), phase := Scanning)
  }

  ghost predicate IsRun(states: seq<Worker>, actions: seq<Action>) {
    && |states| == |actions| + 1 && states[0] == START
    && forall i :: 0 <= i < |actions| ==> Enabled(states[i], actions[i]) && states[i + 1] == Next(states[i], actions[i])
  }

  // ---- The invariant ----

  predicate Awaited(s: Worker) {
    s.permit || s.notifiers > 0
  }

  ghost predicate Covered(s: Worker) {
    match s.phase
    case Measured(readAt, delay) =>
      Awaited(s) || forall id :: id in s.w.q.pending ==>
        delay.Some? && delay.value <= Until(s.w.q.pending[id].readyAt, readAt)
    case Blocked(measuredAt, armedAt, due) =>
      Awaited(s) || forall id :: id in s.w.q.pending ==>
        due.Some? && due.value - armedAt <= Until(s.w.q.pending[id].readyAt, measuredAt)
    case Full => |s.w.running| == MAX_CONCURRENCY
    case _ => true
  }

  ghost predicate WorkerInv(s: Worker) {
    Inv(s.w) && |s.w.running| <= MAX_CONCURRENCY && Covered(s)
  }

  lemma IdsCount(keys: seq<Key>)
    ensures |Ids(Elements(keys))| <= |keys|
    decreases |keys|
  {
    if keys != [] {
      var front := keys[..|keys| - 1];
      IdsCount(front);
      assert keys == front + [keys[|keys| - 1]];
      assert Ids(Elements(keys)) == Ids(Elements(front)) + {keys[|keys| - 1].id};
    } else {
      assert Ids(Elements(keys)) == {};
    }
  }

  lemma ClaimWithinCapacity(s: Worker, now: int)
    requires |s.w.running| <= MAX_CONCURRENCY
    ensures |Step(s.w, ClaimEvent(now, Available(s))).running| <= MAX_CONCURRENCY
  {
    hide Ids, Claimed;
    var keys := Taken(s.w.q.pending, now, Available(s));
    IdsCount(keys);
    var after := RunningAfter(s.w, keys);
    assert after.Keys <= s.w.running.Keys + Ids(Elements(keys));
    UnionCount(s.w.running.Keys, Ids(Elements(keys)), after.Keys);
    assert |after.Keys| == |after| && |s.w.running.Keys| == |s.w.running|;
  }

  lemma UnionCount<T>(a: set<T>, b: set<T>, c: set<T>)
    requires c <= a + b
    ensures |c| <= |a| + |b|
  {
    SubsetCount(c, a + b);
    assert a + b == a + (b - a);
    SubsetCount(b - a, b);
  }

  lemma InsertKeepsCovered(s: Worker, id: string, now: int)
    requires Covered(s)
    ensures Covered(Next(s, Insert(id, now)))
  {
  }

  lemma NextKeepsInv(s: Worker, a: Action)
    requires WorkerInv(s) && Enabled(s, a)
    ensures WorkerInv(Next(s, a))
  {
    hide Inv, Taken, RunningAfter, Claimed;
    match a
    case Insert(id, now) =>
      StepKeepsInv(s.w, EnqueueEvent(id, now));
      InsertKeepsCovered(s, id, now);
    case ClaimReady(now) =>
      StepKeepsInv(s.w, ClaimEvent(now, Available(s)));
      ClaimWithinCapacity(s, now);
    case AttemptEnds(id, ok, now) =>
      StepKeepsInv(s.w, FinishEvent(id, ok, now));
      SubsetCount(s.w.running.Keys - {id}, s.w.running.Keys);
      assert (s.w.running - {id}).Keys == s.w.running.Keys - {id};
    case _ =>
  }

  lemma {:induction false} RunKeepsWorkerInv(states: seq<Worker>, actions: seq<Action>, n: nat)
    requires IsRun(states, actions) && n < |states|
    ensures WorkerInv(states[n])
  {
    hide Inv, Next, Enabled;
    if n == 0 {
      StartInv();
    } else {
      RunKeepsWorkerInv(states, actions, n - 1);
      assert states[n - 1 + 1] == Next(states[n - 1], actions[n - 1]);
      NextKeepsInv(states[n - 1], actions[n - 1]);
    }
  }

  lemma StartInv()
    ensures WorkerInv(START)
  {
  }

  // ---- The theorems ----

  function Max(a: int, b: int): int {
    if a >= b then a else b
  }

  /** Wherever the worker stops: at capacity it waits for a running attempt; otherwise every
      pending id has a timer due by its ready time (or by the reading, when it was ready then),
      plus the time from that reading to the start of the sleep, or a permit is stored, or an
      enqueuer is about to store one. */
  lemma NoWakeupLost(states: seq<Worker>, actions: seq<Action>, n: nat)
    requires IsRun(states, actions) && n < |states|
    ensures var s := states[n];
      && s.w.q.inFlight == s.w.running.Keys && |s.w.running| <= 8
      && (s.phase.Full? ==> |s.w.running| == 8)
      && (s.phase.Blocked? && !Awaited(s) ==> forall id :: id in s.w.q.pending ==>
           s.phase.due.Some?
           && s.phase.due.value <= Max(s.w.q.pending[id].readyAt, s.phase.measuredAt) + (s.phase.armedAt - s.phase.measuredAt))
  {
    RunKeepsWorkerInv(states, actions, n);
    hide FlightsOpen, NothingLost;
  }

  /** The timer is set for exactly the earliest ready time, or at once if that has passed; and for
      none exactly if nothing is pending. */
  lemma TimerIsExact(states: seq<Worker>, actions: seq<Action>, n: nat)
    requires IsRun(states, actions) && n < |actions| && actions[n].Measure?
    ensures var q, now, delay := states[n].w.q, actions[n].now, actions[n].delay;
      && (delay.None? <==> q.pending == map[])
      && (delay.Some? ==> exists id :: id in q.pending && now + delay.value == Max(now, q.pending[id].readyAt))
      && (delay.Some? ==> forall id :: id in q.pending ==> now + delay.value <= Max(now, q.pending[id].readyAt))
  {
    assert Enabled(states[n], actions[n]);
    hide IsRun;
  }

  /** A stopped worker with anything left to do always has a step that will wake it. */
  lemma NeverStuck(states: seq<Worker>, actions: seq<Action>, n: nat)
    requires IsRun(states, actions) && n < |states|
    requires var s := states[n]; (s.phase.Full? || s.phase.Blocked?) && (s.w.q.pending != map[] || s.w.running != map[])
    ensures var s := states[n];
      || Enabled(s, TakePermit) || Enabled(s, Notify)
      || (exists id :: Enabled(s, AttemptEnds(id, true, 0)))
      || (exists now :: Enabled(s, TimerFires(now)))
  {
    NoWakeupLost(states, actions, n);
    hide IsRun;
    var s := states[n];
    if s.w.running != map[] {
      var id :| id in s.w.running;
      assert Enabled(s, AttemptEnds(id, true, 0));
    } else if !Awaited(s) && s.phase.Blocked? {
      var id :| id in s.w.q.pending;
      assert Enabled(s, TimerFires(s.phase.due.value));
    }
  }

  /** The obligations of every worker run are the ones its log records. */
  lemma WorkerLosesNothing(states: seq<Worker>, actions: seq<Action>, n: nat, i: nat, id: string)
    requires IsRun(states, actions) && n < |states| && Owed(states[n].w.log, i, id)
    ensures Kept(states[n].w, i, id)
  {
    RunKeepsWorkerInv(states, actions, n);
    hide IsRun, Covered, Disjoint, FlightsOpen;
  }

  // ---- No starvation under the worker ----

  /** What an action does to the queue; a claim may take as many as there are free slots. */
  function EventOf(s: Worker, a: Action): seq<Event> {
    match a
    case Insert(id, now) => [EnqueueEvent(id, now)]
    case ClaimReady(now) => [ClaimEvent(now, Available(s))]
    case AttemptEnds(id, ok, now) => [FinishEvent(id, ok, now)]
    case _ => []
  }

  function EventsOf(states: seq<Worker>, actions: seq<Action>, n: nat, m: nat): seq<Event>
    requires n <= m < |states| && |states| == |actions| + 1
    decreases m
  {
    if n == m then [] else EventsOf(states, actions, n, m - 1) + EventOf(states[m - 1], actions[m - 1])
  }

  lemma DoesItsEvents(s: Worker, a: Action)
    requires Enabled(s, a)
    ensures Next(s, a).w == Run(s.w, EventOf(s, a))
  {
    hide Step;
  }

  lemma {:induction false} RunsItsEvents(states: seq<Worker>, actions: seq<Action>, n: nat, m: nat)
    requires IsRun(states, actions) && n <= m < |states|
    ensures states[m].w == Run(states[n].w, EventsOf(states, actions, n, m))
    decreases m
  {
    hide Step, Enabled, Next, EventOf;
    if n < m {
      var s, a := states[m - 1], actions[m - 1];
      RunsItsEvents(states, actions, n, m - 1);
      assert Enabled(s, a) && states[m - 1 + 1] == Next(s, a);
      DoesItsEvents(s, a);
      RunAppends(states[n].w, EventsOf(states, actions, n, m - 1), EventOf(s, a));
    }
  }

  /** In every run of the worker a waiting first attempt starts once the free slots offered since
      it became ready outnumber what was ahead of it and what overtook it. */
  lemma WorkerStarts(states: seq<Worker>, actions: seq<Action>, n: nat, m: nat, x: string)
    requires IsRun(states, actions) && n <= m < |states| && WaitsFirst(states[n].w.q, x)
    requires var w := states[n].w;
      var at, events := w.q.pending[x].readyAt, EventsOf(states, actions, n, m);
      UsefulBudget(events, at) > |Ahead(w.q, x)| + Overtakings(w, at, events)
    ensures Start(x) in states[m].w.log
  {
    RunKeepsWorkerInv(states, actions, n);
    RunsItsEvents(states, actions, n, m);
    hide IsRun, Inv, Ahead, Run, Covered;
    StartsWithin(states[n].w, x, EventsOf(states, actions, n, m));
  }
}
