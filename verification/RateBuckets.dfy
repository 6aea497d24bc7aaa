/** The relay's fixed-window limiter, by client address, and its clean-up by the heartbeat. */
module RateBuckets {
  import opened AttemptRate

  datatype Bucket = Bucket(startedAt: int, count: nat)

  /** The accepted times of one address: those of its last bucket, started at `start`, come
      last, and those of the bucket before it come just before them. */
  datatype History = History(times: seq<int>, start: int, last: nat, previous: nat)

  const NO_HISTORY := History([], 0, 0, 0)

  function Past(histories: map<string, History>, ip: string): History {
    if ip in histories then histories[ip] else NO_HISTORY
  }

  /** The first attempt of a window is always accepted. */
  function PerBucket(limit: nat): nat {
    if limit == 0 then 1 else limit
  }

  predicate HistoryOk(h: History, window: int, limit: nat, now: int) {
    var n := |h.times|;
    && InOrder(h.times) && AtMost(h.times, now)
    && h.last <= PerBucket(limit) && h.previous <= PerBucket(limit) && h.last + h.previous <= n
    && (n > 0 ==> h.last > 0 && h.start <= now)
    && AtMost(h.times[..n - h.last - h.previous], h.start - window)
    && AtMost(h.times[..n - h.last], h.start) && AtLeast(h.times[n - h.last..], h.start)
    && AtMost(h.times, h.start + window - 1)
    && Bounded(h.times, window, 2 * PerBucket(limit))
  }

  /** A live bucket is the last of its address; without one, the last is over. */
  predicate BucketOk(m: map<string, Bucket>, h: History, ip: string, window: int, now: int) {
    if ip in m then h.times != [] && m[ip] == Bucket(h.start, h.last)
    else h.times != [] ==> now - h.start >= window
  }

  function NewBucket(h: History, now: int): History {
    History(h.times + [now], now, 1, h.last)
  }

  function SameBucket(h: History, now: int): History {
    History(h.times + [now], h.start, h.last + 1, h.previous)
  }

  /** When an attempt counts into the bucket there is and finds it full. */
  predicate Full(h: History, window: int, limit: nat, now: int) {
    h.times != [] && now - h.start < window && h.last >= limit
  }

  function Accepting(h: History, window: int, now: int): History {
    if h.times == [] || now - h.start >= window then NewBucket(h, now) else SameBucket(h, now)
  }

  lemma {:induction false} FewAfter(times: seq<int>, cutoff: int, k: nat)
    requires k <= |times| && AtMost(times[..|times| - k], cutoff)
    ensures |After(times, cutoff)| <= k
  {
    if times != [] {
      if k == |times| {
        assert times[1..][..|times| - 1 - (k - 1)] == [];
        FewAfter(times[1..], cutoff, k - 1);
      } else {
        assert times[..|times| - k][0] == times[0];
        assert times[1..][..|times| - 1 - k] == times[..|times| - k][1..];
        FewAfter(times[1..], cutoff, k);
      }
    }
  }

  /** Times that come last and are recent are among the recent ones. */
  lemma {:induction false} ManyAfter(times: seq<int>, cutoff: int, k: nat)
    requires k <= |times| && AtLeast(times[|times| - k..], cutoff + 1)
    ensures |After(times, cutoff)| >= k
  {
    if k == |times| {
      assert times[|times| - k..] == times;
      AllAfter(times, cutoff);
    } else {
      assert times[1..][|times| - 1 - k..] == times[|times| - k..];
      ManyAfter(times[1..], cutoff, k);
    }
  }

  /** Whoever finds the bucket full has had as many attempts accepted as the limit allows, in the
      window that ends now. */
  lemma FullMeans(h: History, window: int, limit: nat, latest: int, now: int)
    requires HistoryOk(h, window, limit, latest) && Full(h, window, limit, now)
    ensures |After(h.times, now - window)| >= limit
  {
    ManyAfter(h.times, now - window, h.last);
  }

  lemma NewBucketOk(h: History, window: int, limit: nat, latest: int, now: int)
    requires HistoryOk(h, window, limit, latest) && latest <= now && window > 0
    requires h.times != [] ==> now - h.start >= window
    ensures HistoryOk(NewBucket(h, now), window, limit, now)
  {
    hide After, Bounded;
    var g, n := NewBucket(h, now), |h.times|;
    assert g.times[..n] == h.times;
    assert g.times[..n - h.last] == h.times[..n - h.last];
    assert g.times[n..] == [now];
    FewAfter(h.times, now - window, h.last);
    BoundedAppend(h.times, now, window, 2 * PerBucket(limit));
  }

  lemma SameBucketOk(h: History, window: int, limit: nat, latest: int, now: int)
    requires HistoryOk(h, window, limit, latest) && latest <= now && window > 0
    requires h.times != [] && now - h.start < window && h.last < limit
    ensures HistoryOk(SameBucket(h, now), window, limit, now)
  {
    hide After, Bounded;
    var g, n := SameBucket(h, now), |h.times|;
    assert g.times[..n - h.last] == h.times[..n - h.last];
    assert g.times[..n - h.last - h.previous] == h.times[..n - h.last - h.previous];
    assert g.times[n - h.last..] == h.times[n - h.last..] + [now];
    FewAfter(h.times, now - window, h.last + h.previous);
    BoundedAppend(h.times, now, window, 2 * PerBucket(limit));
  }

  class Limiter {
    const window: int
    const limit: nat
    var buckets: map<string, Bucket>
    ghost var histories: map<string, History>
    ghost var latest: int

    ghost predicate Valid()
      reads this
    {
      && window > 0
      && (forall ip: string :: HistoryOk(Past(histories, ip), window, limit, latest))
      && (forall ip: string :: BucketOk(buckets, Past(histories, ip), ip, window, latest))
    }

    constructor (length: int, most: nat, now: int)
      requires length > 0
      ensures Valid() && histories == map[] && latest == now && window == length && limit == most
    {
      window, limit := length, most;
      buckets, histories, latest := map[], map[], now;
    }

    predicate Admits(ip: string, now: int)
      reads this
    {
      ip !in buckets || now - buckets[ip].startedAt >= window || buckets[ip].count < limit
    }

    function Counted(ip: string, now: int): map<string, Bucket>
      reads this
    {
      if ip !in buckets || now - buckets[ip].startedAt >= window then buckets[ip := Bucket(now, 1)]
      else if buckets[ip].count < limit then buckets[ip := Bucket(buckets[ip].startedAt, buckets[ip].count + 1)]
      else buckets
    }

    /** `consumeRateLimit`. For a clock that does not go back, what it answers depends on the
        accepted attempts alone, not on which buckets the heartbeat has deleted. */
    method Consume(ip: string, now: int) returns (accepted: bool)
      modifies this
      ensures accepted == old(Admits(ip, now)) && buckets == old(Counted(ip, now))
      ensures old(Valid()) && now >= old(latest) ==>
        && Valid() && latest == now
        && (accepted <==> !Full(Past(old(histories), ip), window, limit, now))
        && (!accepted ==> |After(Past(old(histories), ip).times, now - window)| >= limit)
        && histories == if accepted then old(histories)[ip := Accepting(Past(old(histories), ip), window, now)]
                        else old(histories)
    {
      hide HistoryOk;
      ghost var h, steady := Past(histories, ip), Valid() && now >= latest;
      if steady {
        assert HistoryOk(h, window, limit, latest) && BucketOk(buckets, h, ip, window, latest);
        Later(now);
      }
      latest := now;
      if ip !in buckets || now - buckets[ip].startedAt >= window {
        buckets := buckets[ip := Bucket(now, 1)];
        if steady {
          NewBucketOk(h, window, limit, now, now);
        }
        histories := histories[ip := NewBucket(h, now)];
        assert |NewBucket(h, now).times| > 0;
        assert forall k: string :: k != ip ==> Past(histories, k) == Past(old(histories), k);
        return true;
      }
      if buckets[ip].count >= limit {
        if steady {
          FullMeans(h, window, limit, now, now);
        }
        return false;
      }
      buckets := buckets[ip := buckets[ip].(count := buckets[ip].count + 1)];
      if steady {
        SameBucketOk(h, window, limit, now, now);
      }
      histories := histories[ip := SameBucket(h, now)];
      assert forall k: string :: k != ip ==> Past(histories, k) == Past(old(histories), k);
      return true;
    }

    lemma Later(now: int)
      requires Valid() && now >= latest
      ensures forall ip: string :: HistoryOk(Past(histories, ip), window, limit, now)
    {
    }

    /** The heartbeat deletes exactly the buckets whose window is over. */
    method Heartbeat(now: int)
      requires Valid() && now >= latest
      modifies this`buckets, this`latest
      ensures Valid() && latest == now
      ensures forall ip :: ip in buckets <==> ip in old(buckets) && now - old(buckets)[ip].startedAt < window
      ensures forall ip :: ip in buckets ==> buckets[ip] == old(buckets)[ip]
    {
      hide HistoryOk;
      Later(now);
      var rest := buckets.Keys;
      while rest != {}
        invariant rest <= buckets.Keys <= old(buckets).Keys
        invariant forall ip :: ip in buckets ==> buckets[ip] == old(buckets)[ip]
        invariant forall ip :: ip in old(buckets) && ip !in rest ==>
          (ip in buckets <==> now - old(buckets)[ip].startedAt < window)
        invariant forall ip: string :: BucketOk(buckets, Past(histories, ip), ip, window, now)
      {
        var ip :| ip in rest;
        rest := rest - {ip};
        assert BucketOk(buckets, Past(histories, ip), ip, window, now);
        if buckets[ip].startedAt <= now - window {
          buckets := buckets - {ip};
        }
      }
      latest := now;
    }

    /** Whatever interval of one window length one looks at, an address had at most twice the
        limit of attempts accepted in it. */
    lemma TwiceTheLimit(ip: string, end: int)
      requires Valid()
      ensures |Within(Past(histories, ip).times, end - window, end)| <= 2 * PerBucket(limit)
    {
      assert HistoryOk(Past(histories, ip), window, limit, latest);
      AnyWindow(Past(histories, ip).times, window, 2 * PerBucket(limit), end);
    }
  }
}
