/** The sliding-window limiter in front of join requests and claim checks. */
module AttemptRate {
  type Source = nat  // an IP address

  /** An accepted attempt. */
  datatype Attempt = Attempt(source: Source, at: int)

  datatype Decision = Allowed | SourceLimited | GlobalLimited

  // ---- Times, oldest first ----

  predicate InOrder(times: seq<int>) {
    forall i, j :: 0 <= i <= j < |times| ==> times[i] <= times[j]
  }

  predicate AtLeast(times: seq<int>, lo: int) {
    forall i :: 0 <= i < |times| ==> lo <= times[i]
  }

  predicate AtMost(times: seq<int>, hi: int) {
    forall i :: 0 <= i < |times| ==> times[i] <= hi
  }

  /** The times later than `cutoff`. */
  function After(times: seq<int>, cutoff: int): seq<int> {
    if times == [] then []
    else if times[0] > cutoff then [times[0]] + After(times[1..], cutoff)
    else After(times[1..], cutoff)
  }

  /** The times in the half-open interval from `lo` to `hi`. */
  function Within(times: seq<int>, lo: int, hi: int): seq<int> {
    if times == [] then []
    else if lo < times[0] <= hi then [times[0]] + Within(times[1..], lo, hi)
    else Within(times[1..], lo, hi)
  }

  function TimesOf(log: seq<Attempt>): (r: seq<int>)
    ensures |r| == |log| && forall i :: 0 <= i < |log| ==> r[i] == log[i].at
  {
    if log == [] then [] else [log[0].at] + TimesOf(log[1..])
  }

  function TimesFrom(log: seq<Attempt>, source: Source): seq<int> {
    if log == [] then []
    else if log[0].source == source then [log[0].at] + TimesFrom(log[1..], source)
    else TimesFrom(log[1..], source)
  }

  function AttemptsAfter(log: seq<Attempt>, cutoff: int): seq<Attempt> {
    if log == [] then []
    else if log[0].at > cutoff then [log[0]] + AttemptsAfter(log[1..], cutoff)
    else AttemptsAfter(log[1..], cutoff)
  }

  lemma {:induction false} AfterAppend(times: seq<int>, x: int, cutoff: int)
    ensures After(times + [x], cutoff) == After(times, cutoff) + if x > cutoff then [x] else []
  {
    if times != [] {
      assert (times + [x])[1..] == times[1..] + [x];
      AfterAppend(times[1..], x, cutoff);
    }
  }

  lemma {:induction false} WithinAppend(times: seq<int>, x: int, lo: int, hi: int)
    ensures Within(times + [x], lo, hi) == Within(times, lo, hi) + if lo < x <= hi then [x] else []
  {
    if times != [] {
      assert (times + [x])[1..] == times[1..] + [x];
      WithinAppend(times[1..], x, lo, hi);
    }
  }

  lemma {:induction false} AfterTwice(times: seq<int>, first: int, second: int)
    requires first <= second
    ensures After(After(times, first), second) == After(times, second)
  {
    if times != [] {
      AfterTwice(times[1..], first, second);
      if times[0] > first {
        assert After(times, first)[1..] == After(times[1..], first);
      }
    }
  }

  lemma {:induction false} AllAfter(times: seq<int>, cutoff: int)
    requires AtLeast(times, cutoff + 1)
    ensures After(times, cutoff) == times
  {
    if times != [] {
      AllAfter(times[1..], cutoff);
    }
  }

  lemma {:induction false} LaterIsShorter(times: seq<int>, first: int, second: int)
    requires first <= second
    ensures |After(times, second)| <= |After(times, first)|
  {
    if times != [] {
      LaterIsShorter(times[1..], first, second);
    }
  }

  lemma {:induction false} TimesAppend(log: seq<Attempt>, a: Attempt, source: Source)
    ensures TimesOf(log + [a]) == TimesOf(log) + [a.at]
    ensures TimesFrom(log + [a], source) == TimesFrom(log, source) + if a.source == source then [a.at] else []
  {
    if log != [] {
      assert (log + [a])[1..] == log[1..] + [a];
      TimesAppend(log[1..], a, source);
    }
  }

  lemma {:induction false} FromInOrder(log: seq<Attempt>, source: Source)
    requires InOrder(TimesOf(log))
    ensures InOrder(TimesFrom(log, source))
    ensures forall lo :: AtLeast(TimesOf(log), lo) ==> AtLeast(TimesFrom(log, source), lo)
  {
    if log != [] {
      assert TimesOf(log)[1..] == TimesOf(log[1..]);
      FromInOrder(log[1..], source);
      assert AtLeast(TimesOf(log[1..]), log[0].at);
    }
  }

  lemma {:induction false} AfterInOrder(times: seq<int>, cutoff: int)
    requires InOrder(times)
    ensures InOrder(After(times, cutoff))
    ensures forall lo :: AtLeast(times, lo) ==> AtLeast(After(times, cutoff), lo)
  {
    if times != [] {
      assert AtLeast(times[1..], times[0]);
      AfterInOrder(times[1..], cutoff);
    }
  }

  // ---- The bound ----

  /** Every accepted attempt was, at its own time, within the limit over the window before it. */
  predicate Bounded(times: seq<int>, window: int, limit: nat) {
    forall i :: 0 <= i < |times| ==> |After(times[..i + 1], times[i] - window)| <= limit
  }

  lemma BoundedAppend(times: seq<int>, now: int, window: int, limit: nat)
    requires window > 0 && Bounded(times, window, limit) && |After(times, now - window)| < limit
    ensures Bounded(times + [now], window, limit)
  {
    var more := times + [now];
    AfterAppend(times, now, now - window);
    forall i | 0 <= i < |more|
      ensures |After(more[..i + 1], more[i] - window)| <= limit
    {
      if i < |times| {
        assert more[..i + 1] == times[..i + 1];
      } else {
        assert more[..i + 1] == more;
      }
    }
  }

  lemma PrefixBounded(times: seq<int>, window: int, limit: nat, n: nat)
    requires n <= |times| && Bounded(times, window, limit)
    ensures Bounded(times[..n], window, limit)
  {
    forall i | 0 <= i < n
      ensures |After(times[..n][..i + 1], times[..n][i] - window)| <= limit
    {
      assert times[..n][..i + 1] == times[..i + 1];
    }
  }

  /** No interval of one window length, wherever it ends, holds more than `limit` attempts. */
  lemma {:induction false} AnyWindow(times: seq<int>, window: int, limit: nat, end: int)
    requires InOrder(times) && Bounded(times, window, limit)
    ensures |Within(times, end - window, end)| <= limit
  {
    if times != [] {
      var n := |times| - 1;
      var last := times[n];
      assert times == times[..n] + [last];
      if last > end {
        PrefixBounded(times, window, limit, n);
        AnyWindow(times[..n], window, limit, end);
        WithinAppend(times[..n], last, end - window, end);
      } else {
        AllUpTo(times, end - window, end);
        LaterIsShorter(times, last - window, end - window);
        assert times[..n + 1] == times;
      }
    }
  }

  lemma {:induction false} AllUpTo(times: seq<int>, lo: int, hi: int)
    requires AtMost(times, hi)
    ensures Within(times, lo, hi) == After(times, lo)
  {
    if times != [] {
      AllUpTo(times[1..], lo, hi);
    }
  }

  /** The recent times of all sources are the merge of the recent times of each. */
  lemma {:induction false} Merge(log: seq<Attempt>, cutoff: int, source: Source)
    ensures After(TimesOf(log), cutoff) == TimesOf(AttemptsAfter(log, cutoff))
    ensures After(TimesFrom(log, source), cutoff) == TimesFrom(AttemptsAfter(log, cutoff), source)
  {
    if log != [] {
      Merge(log[1..], cutoff, source);
      assert TimesOf(log)[1..] == TimesOf(log[1..]);
      var rest := AttemptsAfter(log[1..], cutoff);
      if log[0].at > cutoff {
        assert AttemptsAfter(log, cutoff)[1..] == rest;
      }
      if log[0].source == source {
        assert TimesFrom(log, source)[1..] == TimesFrom(log[1..], source);
      }
    }
  }

  // ---- The limiter ----

  /** The popping loop: drops the times up to `cutoff` from the front. */
  method PopOld(times: seq<int>, cutoff: int) returns (rest: seq<int>)
    requires InOrder(times)
    ensures rest == After(times, cutoff)
  {
    rest := times;
    while rest != [] && rest[0] <= cutoff
      invariant InOrder(rest) && After(rest, cutoff) == After(times, cutoff)
    {
      rest := rest[1..];
    }
    AllAfter(rest, cutoff);
  }

  function Attempts(m: map<Source, seq<int>>, s: Source): seq<int> {
    if s in m then m[s] else []
  }

  /** What the deque of one source holds, and the bound its attempts keep. */
  predicate SourceOk(log: seq<Attempt>, latest: int, window: int, limit: nat, deque: seq<int>, s: Source) {
    deque == After(TimesFrom(log, s), latest - window) && Bounded(TimesFrom(log, s), window, limit)
  }

  predicate GlobalOk(log: seq<Attempt>, latest: int, window: int, limit: nat, deque: seq<int>) {
    && InOrder(TimesOf(log)) && AtMost(TimesOf(log), latest)
    && deque == After(TimesOf(log), latest - window) && Bounded(TimesOf(log), window, limit)
  }

  /** What is kept now is still enough to tell what is recent later. */
  lemma GlobalLater(log: seq<Attempt>, latest: int, now: int, window: int, limit: nat, deque: seq<int>)
    requires GlobalOk(log, latest, window, limit, deque) && now >= latest
    ensures InOrder(deque) && GlobalOk(log, now, window, limit, After(deque, now - window))
  {
    AfterInOrder(TimesOf(log), latest - window);
    AfterTwice(TimesOf(log), latest - window, now - window);
  }

  lemma SourceLater(log: seq<Attempt>, latest: int, now: int, window: int, limit: nat, deque: seq<int>, s: Source)
    requires InOrder(TimesOf(log)) && SourceOk(log, latest, window, limit, deque, s) && now >= latest
    ensures InOrder(deque) && SourceOk(log, now, window, limit, After(deque, now - window), s)
  {
    FromInOrder(log, s);
    AfterInOrder(TimesFrom(log, s), latest - window);
    AfterTwice(TimesFrom(log, s), latest - window, now - window);
  }

  lemma GlobalAccepts(log: seq<Attempt>, a: Attempt, window: int, limit: nat, deque: seq<int>)
    requires GlobalOk(log, a.at, window, limit, deque) && |deque| < limit && window > 0
    ensures GlobalOk(log + [a], a.at, window, limit, deque + [a.at])
  {
    hide Bounded, After;
    TimesAppend(log, a, a.source);
    BoundedAppend(TimesOf(log), a.at, window, limit);
    AfterAppend(TimesOf(log), a.at, a.at - window);
  }

  lemma SourceAccepts(log: seq<Attempt>, a: Attempt, window: int, limit: nat, deque: seq<int>, s: Source)
    requires SourceOk(log, a.at, window, limit, deque, s) && (s == a.source ==> |deque| < limit) && window > 0
    ensures SourceOk(log + [a], a.at, window, limit, if s == a.source then deque + [a.at] else deque, s)
  {
    hide Bounded, After;
    TimesAppend(log, a, s);
    if s == a.source {
      BoundedAppend(TimesFrom(log, s), a.at, window, limit);
      AfterAppend(TimesFrom(log, s), a.at, a.at - window);
    } else {
      assert TimesFrom(log, s) + [] == TimesFrom(log, s);
    }
  }

  /** `log` and `latest` are history: the accepted attempts, and the last clock reading. */
  class Limiter {
    const window: int
    const perSourceLimit: nat
    const globalLimit: nat
    var global: seq<int>
    var bySource: map<Source, seq<int>>
    ghost var log: seq<Attempt>
    ghost var latest: int

    ghost predicate Valid()
      reads this
    {
      && window > 0
      && GlobalOk(log, latest, window, globalLimit, global)
      && forall s: Source :: SourceOk(log, latest, window, perSourceLimit, Attempts(bySource, s), s)
    }

    constructor (length: int, perSource: nat, total: nat, now: int)
      requires length > 0
      ensures Valid() && log == [] && latest == now
      ensures window == length && perSourceLimit == perSource && globalLimit == total
    {
      window, perSourceLimit, globalLimit := length, perSource, total;
      global, bySource, log, latest := [], map[], [], now;
    }

    /** The `retain` over all sources: old times leave, and so do sources without any. */
    method RetainRecent(cutoff: int)
      requires forall s: Source :: InOrder(Attempts(bySource, s))
      modifies this`bySource
      ensures forall s: Source :: Attempts(bySource, s) == After(Attempts(old(bySource), s), cutoff)
      ensures forall s :: s in bySource ==> bySource[s] != []
    {
      ghost var before := bySource;
      var rest := bySource.Keys;
      while rest != {}
        invariant rest <= before.Keys && bySource.Keys <= before.Keys
        invariant forall s :: s in rest ==> s in bySource && bySource[s] == before[s]
        invariant forall s: Source :: s !in rest ==> Attempts(bySource, s) == After(Attempts(before, s), cutoff)
        invariant forall s :: s in bySource && s !in rest ==> bySource[s] != []
      {
        var s :| s in rest;
        rest := rest - {s};
        assert bySource[s] == Attempts(before, s);
        var recent := PopOld(bySource[s], cutoff);
        bySource := if recent == [] then bySource - {s} else bySource[s := recent];
      }
    }

    /** `check_attempt_rate`, for clock readings that do not decrease in lock order: an attempt
        is refused exactly when the named limit is full over the window that ends now. */
    method Check(source: Source, now: int) returns (decision: Decision)
      requires Valid() && now >= latest
      modifies this
      ensures Valid() && latest == now
      ensures log == if decision == Allowed then old(log) + [Attempt(source, now)] else old(log)
      ensures decision == GlobalLimited <==> |After(TimesOf(old(log)), now - window)| >= globalLimit
      ensures decision == SourceLimited <==>
        decision != GlobalLimited && |After(TimesFrom(old(log), source), now - window)| >= perSourceLimit
    {
      hide GlobalOk, SourceOk, InOrder, After;
      var cutoff := now - window;
      GlobalLater(log, latest, now, window, globalLimit, global);
      SourcesLater(now);
      global := PopOld(global, cutoff);
      RetainRecent(cutoff);
      latest := now;
      DequesHold(source);
      if |global| >= globalLimit {
        return GlobalLimited;
      }
      ghost var retained := bySource;
      if source !in bySource {
        bySource := bySource[source := []];
      }
      assert forall s: Source :: Attempts(bySource, s) == Attempts(retained, s);
      if |bySource[source]| >= perSourceLimit {
        return SourceLimited;
      }
      ghost var deques := bySource;
      ghost var a := Attempt(source, now);
      bySource := bySource[source := bySource[source] + [now]];
      GlobalAccepts(log, a, window, globalLimit, global);
      forall s: Source
        ensures SourceOk(log + [a], now, window, perSourceLimit, Attempts(bySource, s), s)
      {
        SourceAccepts(log, a, window, perSourceLimit, Attempts(deques, s), s);
      }
      global := global + [now];
      log := log + [a];
      return Allowed;
    }

    lemma SourcesLater(now: int)
      requires Valid() && now >= latest
      ensures forall s: Source :: InOrder(Attempts(bySource, s))
      ensures forall s: Source ::
        SourceOk(log, now, window, perSourceLimit, After(Attempts(bySource, s), now - window), s)
    {
      forall s: Source
        ensures InOrder(Attempts(bySource, s))
        ensures SourceOk(log, now, window, perSourceLimit, After(Attempts(bySource, s), now - window), s)
      {
        SourceLater(log, latest, now, window, perSourceLimit, Attempts(bySource, s), s);
      }
    }

    lemma DequesHold(source: Source)
      requires Valid()
      ensures global == After(TimesOf(log), latest - window)
      ensures Attempts(bySource, source) == After(TimesFrom(log, source), latest - window)
    {
    }

    /** In every reachable state, whatever interval of one window length one looks at, it holds
        at most the limit of accepted attempts, over all sources and for each of them; and the
        global deque is the merge of the deques of the sources. */
    lemma WindowBound(source: Source, end: int)
      requires Valid()
      ensures |Within(TimesOf(log), end - window, end)| <= globalLimit
      ensures |Within(TimesFrom(log, source), end - window, end)| <= perSourceLimit
      ensures var recent := AttemptsAfter(log, latest - window);
        global == TimesOf(recent) && Attempts(bySource, source) == TimesFrom(recent, source)
    {
      hide Bounded, After, Within, InOrder;
      AnyWindow(TimesOf(log), window, globalLimit, end);
      assert SourceOk(log, latest, window, perSourceLimit, Attempts(bySource, source), source);
      FromInOrder(log, source);
      AnyWindow(TimesFrom(log, source), window, perSourceLimit, end);
      Merge(log, latest - window, source);
    }
  }
}
