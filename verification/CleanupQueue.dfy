/** The deleted-session browser cleanup queue: what one call does to its state. */
module CleanupQueue {
  import opened Options
  import opened Orders

  // Durations and instants are in milliseconds.
  const INITIAL_RETRY := 250
  const MAX_RETRY := 30000
  const MAX_CONCURRENCY: nat := 8

  datatype Schedule = Schedule(readyAt: int, retryDelay: int, failedAttempts: nat, sequence: nat)

  datatype Claim = Claim(id: string, retryDelay: int, failedAttempts: nat)

  datatype Queue = Queue(
    pending: map<string, Schedule>,
    inFlight: set<string>,
    rerun: set<string>,
    nextSequence: nat)

  const EMPTY := Queue(map[], {}, {}, 0)

  // ---- The claiming order ----

  datatype Key = Key(failed: nat, readyAt: int, sequence: nat, id: string)

  predicate KeyLess(a: Key, b: Key) {
    if a.failed != b.failed then a.failed < b.failed
    else if a.readyAt != b.readyAt then a.readyAt < b.readyAt
    else if a.sequence != b.sequence then a.sequence < b.sequence
    else StringLess(a.id, b.id)
  }

  lemma KeysTotal()
    ensures StrictTotal(KeyLess)
  {
    StringsTotal();
    hide StringLess;
  }

  function KeyOf(id: string, s: Schedule): Key {
    Key(s.failedAttempts, s.readyAt, s.sequence, id)
  }

  function ReadyKeys(pending: map<string, Schedule>, now: int): set<Key> {
    set id | id in pending && pending[id].readyAt <= now :: KeyOf(id, pending[id])
  }

  /** The ready obligations in claiming order. */
  ghost function ReadyOrder(pending: map<string, Schedule>, now: int): (order: seq<Key>)
    ensures StrictTotal(KeyLess) && Sorted(KeyLess, order) && Elements(order) == ReadyKeys(pending, now)
  {
    KeysTotal();
    SortOf(KeyLess, ReadyKeys(pending, now))
  }

  function Min(a: nat, b: nat): nat {
    if a <= b then a else b
  }

  /** The keys one claim takes: the first `limit` of the ready order. */
  ghost function Taken(pending: map<string, Schedule>, now: int, limit: nat): (keys: seq<Key>)
    ensures forall k :: k in keys ==> k in ReadyKeys(pending, now)
  {
    var order := ReadyOrder(pending, now);
    var keys := order[..Min(limit, |order|)];
    assert forall k :: k in keys ==> k in Elements(order);
    keys
  }

  function Ids(keys: set<Key>): set<string> {
    set k | k in keys :: k.id
  }

  ghost predicate ClaimOf(pending: map<string, Schedule>, key: Key, claim: Claim) {
    key.id in pending && claim == Claim(key.id, pending[key.id].retryDelay, pending[key.id].failedAttempts)
  }

  /** `claims` carries, in order, the ids of `keys` with their retry state. */
  ghost predicate ClaimsOf(pending: map<string, Schedule>, keys: seq<Key>, claims: seq<Claim>) {
    && |claims| == |keys|
    && (forall i :: 0 <= i < |keys| ==> ClaimOf(pending, keys[i], claims[i]))
  }

  // ---- What each call does ----

  function NextRetry(current: int): int {
    if 2 * current < MAX_RETRY then 2 * current else MAX_RETRY
  }

  /** Whether `Enqueue` adds a schedule, which is when it notifies the worker. */
  predicate Inserts(q: Queue, id: string) {
    id !in q.pending && id !in q.inFlight
  }

  function Enqueued(q: Queue, id: string, now: int): Queue {
    if id in q.pending then q
    else if id in q.inFlight then q.(rerun := q.rerun + {id})
    else q.(pending := q.pending[id := Schedule(now, INITIAL_RETRY, 0, q.nextSequence)],
            nextSequence := q.nextSequence + 1)
  }

  ghost function Claimed(q: Queue, now: int, limit: nat): Queue {
    var ids := Ids(Elements(Taken(q.pending, now, limit)));
    q.(pending := q.pending - ids, inFlight := q.inFlight + ids)
  }

  function Completed(q: Queue, claim: Claim, succeeded: bool, now: int): Queue {
    var rest := q.(inFlight := q.inFlight - {claim.id}, rerun := q.rerun - {claim.id});
    if succeeded && claim.id !in q.rerun then rest else
      var schedule := if succeeded
        then Schedule(now, INITIAL_RETRY, 0, q.nextSequence)
        else Schedule(now + claim.retryDelay, NextRetry(claim.retryDelay), claim.failedAttempts + 1, q.nextSequence);
      rest.(pending := q.pending[claim.id := schedule], nextSequence := q.nextSequence + 1)
  }

  // ---- The queue itself ----

  class SessionBrowserCleanupQueue {
    var pending: map<string, Schedule>
    var inFlight: set<string>
    var rerunRequested: set<string>
    var nextSequence: nat
    var permit: bool  // the one permit a tokio Notify stores

    constructor ()
      ensures Abs() == EMPTY && !permit
    {
      pending, inFlight, rerunRequested, nextSequence, permit := map[], {}, {}, 0, false;
    }

    ghost function Abs(): Queue
      reads this
    {
      Queue(pending, inFlight, rerunRequested, nextSequence)
    }

    method Enqueue(id: string, now: int)
      modifies this
      ensures Abs() == Enqueued(old(Abs()), id, now)
      ensures permit == (old(permit) || Inserts(old(Abs()), id))
    {
      if id in pending {
        return;
      }
      if id in inFlight {
        rerunRequested := rerunRequested + {id};
        return;
      }
      pending := pending[id := Schedule(now, INITIAL_RETRY, 0, nextSequence)];
      nextSequence := nextSequence + 1;
      permit := true;
    }

    /** The ready obligation with the least key, whatever order the map is scanned in. */
    method SelectReady(now: int) returns (selected: Option<string>)
      ensures selected.None? <==> ReadyKeys(pending, now) == {}
      ensures selected.Some? ==> selected.value in pending
      ensures selected.Some? ==>
        IsLeast(KeyLess, KeyOf(selected.value, pending[selected.value]), ReadyKeys(pending, now))
    {
      KeysTotal();
      selected := None;
      var rest := pending.Keys;
      while rest != {}
        invariant rest <= pending.Keys
        invariant selected.None? ==> forall id :: id in pending.Keys - rest ==> pending[id].readyAt > now
        invariant selected.Some? ==> selected.value in pending && pending[selected.value].readyAt <= now
        invariant selected.Some? ==> forall id :: id in pending.Keys - rest && pending[id].readyAt <= now ==>
          id == selected.value || KeyLess(KeyOf(selected.value, pending[selected.value]), KeyOf(id, pending[id]))
      {
        var id :| id in rest;
        rest := rest - {id};
        if pending[id].readyAt <= now {
          if selected.None? || KeyLess(KeyOf(id, pending[id]), KeyOf(selected.value, pending[selected.value])) {
            selected := Some(id);
          }
        }
      }
      if selected.Some? {
        assert KeyOf(selected.value, pending[selected.value]) in ReadyKeys(pending, now);
      }
    }

    method ClaimReadyUpTo(now: int, limit: nat) returns (claimed: seq<Claim>)
      modifies this
      ensures Abs() == Claimed(old(Abs()), now, limit) && permit == old(permit)
      ensures ClaimsOf(old(pending), Taken(old(pending), now, limit), claimed)
    {
      hide ReadyKeys, ReadyOrder, KeyLess, StrictTotal, Sorted, IsLeast;
      ghost var before, order := pending, ReadyOrder(pending, now);
      claimed := [];
      while |claimed| < limit
        invariant |claimed| <= |order| && |claimed| <= limit
        invariant pending == before - Ids(Elements(order[..|claimed|]))
        invariant inFlight == old(inFlight) + Ids(Elements(order[..|claimed|]))
        invariant ClaimsOf(before, order[..|claimed|], claimed)
        invariant rerunRequested == old(rerunRequested) && nextSequence == old(nextSequence) && permit == old(permit)
      {
        var selected := SelectReady(now);
        if selected.None? {
          ReadyAfter(before, now, |claimed|);
          EmptyElements(order[|claimed|..]);
          break;
        }
        var schedule := pending[selected.value];
        NextInOrder(before, now, |claimed|, KeyOf(selected.value, schedule));
        assert order[..|claimed| + 1] == order[..|claimed|] + [order[|claimed|]];
        pending := pending - {selected.value};
        inFlight := inFlight + {selected.value};
        claimed := claimed + [Claim(selected.value, schedule.retryDelay, schedule.failedAttempts)];
      }
      TakenIs(before, now, limit, |claimed|);
    }

    method CompleteAttempt(claim: Claim, succeeded: bool, now: int)
      modifies this
      ensures Abs() == Completed(old(Abs()), claim, succeeded, now) && permit == old(permit)
    {
      inFlight := inFlight - {claim.id};
      var rerun := claim.id in rerunRequested;
      rerunRequested := rerunRequested - {claim.id};
      if succeeded && !rerun {
        return;
      }
      var sequence := nextSequence;
      nextSequence := nextSequence + 1;
      var schedule;
      if succeeded {
        schedule := Schedule(now, INITIAL_RETRY, 0, sequence);
      } else {
        schedule := Schedule(now + claim.retryDelay, NextRetry(claim.retryDelay), claim.failedAttempts + 1, sequence);
      }
      pending := pending[claim.id := schedule];
    }

    /** How long until the earliest pending obligation is ready; nothing when none is pending. */
    method NextReadyDelay(now: int) returns (delay: Option<nat>)
      ensures delay.None? <==> pending == map[]
      ensures delay.Some? ==>
        && (exists id :: id in pending && delay.value == Until(pending[id].readyAt, now))
        && (forall id :: id in pending ==> delay.value <= Until(pending[id].readyAt, now))
    {
      delay := None;
      var rest := pending.Keys;
      while rest != {}
        invariant rest <= pending.Keys
        invariant delay.None? <==> pending.Keys - rest == {}
        invariant delay.Some? ==>
          && (exists id :: id in pending && delay.value == Until(pending[id].readyAt, now))
          && (forall id :: id in pending.Keys - rest ==> delay.value <= Until(pending[id].readyAt, now))
      {
        var id :| id in rest;
        rest := rest - {id};
        var until := Until(pending[id].readyAt, now);
        if delay.None? || until < delay.value {
          delay := Some(until);
        }
      }
    }
  }

  /** `ready_at.saturating_duration_since(now)` */
  function Until(readyAt: int, now: int): nat {
    if readyAt > now then readyAt - now else 0
  }

  // ---- One claim at a time follows the order ----

  /** Ids determine keys, so removing the ids of some ready keys removes just those keys. */
  lemma ReadyWithout(pending: map<string, Schedule>, now: int, keys: set<Key>)
    requires keys <= ReadyKeys(pending, now)
    ensures ReadyKeys(pending - Ids(keys), now) == ReadyKeys(pending, now) - keys
  {
    var rest := pending - Ids(keys);
    forall k
      ensures k in ReadyKeys(rest, now) <==> k in ReadyKeys(pending, now) - keys
    {
      if k in ReadyKeys(rest, now) {
        assert k.id in rest && k == KeyOf(k.id, rest[k.id]);
        assert k.id !in Ids(keys) && k !in keys;
      }
      if k in ReadyKeys(pending, now) - keys {
        forall other | other in keys
          ensures other.id != k.id
        {
          assert other in ReadyKeys(pending, now);
        }
        assert k.id in rest && k == KeyOf(k.id, rest[k.id]);
      }
    }
  }

  lemma ReadyAfter(pending: map<string, Schedule>, now: int, n: nat)
    requires n <= |ReadyOrder(pending, now)|
    ensures var order := ReadyOrder(pending, now);
      ReadyKeys(pending - Ids(Elements(order[..n])), now) == Elements(order[n..])
  {
    hide KeyLess, StrictTotal, Sorted, ReadyKeys;
    var order := ReadyOrder(pending, now);
    SortedSplit(KeyLess, order, n);
    PrefixElements(order, n);
    ReadyWithout(pending, now, Elements(order[..n]));
  }

  lemma PrefixElements<T>(s: seq<T>, n: nat)
    requires n <= |s|
    ensures Elements(s[..n]) <= Elements(s)
  {
  }

  lemma TakenIs(pending: map<string, Schedule>, now: int, limit: nat, n: nat)
    requires n <= limit && n <= |ReadyOrder(pending, now)|
    requires n == limit || ReadyOrder(pending, now)[n..] == []
    ensures Taken(pending, now, limit) == ReadyOrder(pending, now)[..n]
  {
  }

  lemma ReadyKey(pending: map<string, Schedule>, now: int, k: Key)
    requires k in ReadyKeys(pending, now)
    ensures k.id in pending && k == KeyOf(k.id, pending[k.id]) && k.readyAt <= now
  {
  }

  /** What one turn of the claim loop takes is the next key of the order. */
  lemma NextInOrder(pending: map<string, Schedule>, now: int, n: nat, k: Key)
    requires n <= |ReadyOrder(pending, now)|
    requires IsLeast(KeyLess, k, ReadyKeys(pending - Ids(Elements(ReadyOrder(pending, now)[..n])), now))
    ensures var order := ReadyOrder(pending, now);
      n < |order| && order[n] == k && k.id in pending && k == KeyOf(k.id, pending[k.id])
      && Ids(Elements(order[..n + 1])) == Ids(Elements(order[..n])) + {k.id}
  {
    hide KeyLess, StrictTotal, Sorted, ReadyKeys;
    var order := ReadyOrder(pending, now);
    ReadyAfter(pending, now, n);
    LeastIsNext(KeyLess, order, n, k);
    assert order[n] in Elements(order);
    ReadyKey(pending, now, k);
  }
}
