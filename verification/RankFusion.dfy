/** Hybrid search: the full-text list and the vector list fused by reciprocal rank. */
module RankFusion {
  import Chunker
  import opened Orders

  datatype Key = Key(doc: int, ord: int)

  datatype Hit = Hit(key: Key, text: string)

  /** What the scores are made of: floats with their rounding and `total_cmp`, or reals. */
  datatype Arithmetic<!F> = Arithmetic(zero: F, add: (F, F) -> F, weight: nat -> F, above: (F, F) -> bool)

  datatype Entry<F> = Entry(hit: Hit, score: F)

  datatype Ranked<F> = Ranked(score: F, key: Key)

  /** A score after the hits with a key, each adding what its place is worth. */
  function RankSum<F>(a: Arithmetic<F>, start: F, hits: seq<Hit>, key: Key): F {
    if hits == [] then start else
      var n := |hits| - 1;
      var score := RankSum(a, start, hits[..n], key);
      if hits[n].key == key then a.add(score, a.weight(n)) else score
  }

  function Keys(hits: seq<Hit>): set<Key> {
    set h | h in hits :: h.key
  }

  function Score<F>(a: Arithmetic<F>, fts: seq<Hit>, vectors: seq<Hit>, key: Key): F {
    RankSum(a, RankSum(a, a.zero, fts, key), vectors, key)
  }

  function Fused<F(==)>(a: Arithmetic<F>, fts: seq<Hit>, vectors: seq<Hit>): set<Ranked<F>> {
    set k | k in Keys(fts) + Keys(vectors) :: Ranked(Score(a, fts, vectors, k), k)
  }

  /** Higher scores first, then lower document ids, then lower order numbers. */
  function Before<F(==)>(a: Arithmetic<F>): (Ranked<F>, Ranked<F>) -> bool {
    (x: Ranked<F>, y: Ranked<F>) =>
      if x.score != y.score then a.above(x.score, y.score)
      else if x.key.doc != y.key.doc then x.key.doc < y.key.doc
      else x.key.ord < y.key.ord
  }

  lemma BeforeTotal<F(!new)>(a: Arithmetic<F>)
    requires StrictTotal(a.above)
    ensures StrictTotal(Before(a))
  {
    var less := Before(a);
    forall x, y | x != y
      ensures less(x, y) || less(y, x)
    {
      assert x.score != y.score ==> a.above(x.score, y.score) || a.above(y.score, x.score);
    }
    forall x, y, z | less(x, y) && less(y, z)
      ensures less(x, z)
    {
      assert x.score != y.score && y.score != z.score ==> a.above(x.score, y.score) && a.above(y.score, z.score);
      assert x.score != z.score ==> a.above(x.score, z.score);
    }
  }

  /** `limit.clamp(1, 50)` */
  function Clamp(limit: nat): nat {
    if limit < 1 then 1 else if limit > 50 then 50 else limit
  }

  /** The first hit with a key. */
  function FirstHit(hits: seq<Hit>, key: Key): (h: Hit)
    requires key in Keys(hits)
    ensures h in hits && h.key == key
  {
    if hits[0].key == key then hits[0] else
      assert hits == [hits[0]] + hits[1..];
      FirstHit(hits[1..], key)
  }

  /** What the entry of a key is after the hits seen so far. */
  function EntryOf<F>(a: Arithmetic<F>, before: map<Key, Entry<F>>, hits: seq<Hit>, key: Key): Entry<F>
    requires key in before || key in Keys(hits)
  {
    if key in before then before[key].(score := RankSum(a, before[key].score, hits, key))
    else Entry(FirstHit(hits, key), RankSum(a, a.zero, hits, key))
  }

  ghost predicate Entries<F(!new)>(a: Arithmetic<F>, before: map<Key, Entry<F>>, hits: seq<Hit>,
                                   merged: map<Key, Entry<F>>)
  {
    && merged.Keys == before.Keys + Keys(hits)
    && forall k :: k in before || k in Keys(hits) ==> merged[k] == EntryOf(a, before, hits, k)
  }

  /** One of the two loops: each hit adds its weight to the entry of its key. */
  method AddRanks<F(!new)>(a: Arithmetic<F>, before: map<Key, Entry<F>>, hits: seq<Hit>)
    returns (merged: map<Key, Entry<F>>)
    ensures Entries(a, before, hits, merged)
  {
    hide Entries;
    merged := before;
    NoEntries(a, before);
    var rank := 0;
    while rank < |hits|
      invariant 0 <= rank <= |hits| && Entries(a, before, hits[..rank], merged)
    {
      var hit := hits[rank];
      ghost var was := merged;
      if hit.key !in merged {
        merged := merged[hit.key := Entry(hit, a.zero)];
      }
      merged := merged[hit.key := merged[hit.key].(score := a.add(merged[hit.key].score, a.weight(rank)))];
      OneMoreEntry(a, before, hits, rank, was, merged);
      rank := rank + 1;
    }
    assert hits[..rank] == hits;
  }

  lemma NoEntries<F(!new)>(a: Arithmetic<F>, before: map<Key, Entry<F>>)
    ensures Entries(a, before, [], before)
  {
  }

  lemma OneMoreEntry<F(!new)>(a: Arithmetic<F>, before: map<Key, Entry<F>>, hits: seq<Hit>, rank: nat,
                              was: map<Key, Entry<F>>, merged: map<Key, Entry<F>>)
    requires rank < |hits| && Entries(a, before, hits[..rank], was)
    requires var hit := hits[rank];
      var e := if hit.key in was then was[hit.key] else Entry(hit, a.zero);
      merged == was[hit.key := e.(score := a.add(e.score, a.weight(rank)))]
    ensures Entries(a, before, hits[..rank + 1], merged)
  {
    hide RankSum, FirstHit, Keys;
    NextRank(a, hits, rank);
    NotYet(a, a.zero, hits[..rank], hits[rank].key);
    forall k | k in before || k in Keys(hits[..rank + 1])
      ensures merged[k] == EntryOf(a, before, hits[..rank + 1], k)
    {
      assert k != hits[rank].key ==> was[k] == EntryOf(a, before, hits[..rank], k);
    }
  }

  lemma NextRank<F(!new)>(a: Arithmetic<F>, hits: seq<Hit>, rank: nat)
    requires rank < |hits|
    ensures Keys(hits[..rank + 1]) == Keys(hits[..rank]) + {hits[rank].key}
    ensures forall x, k :: (
      var score := RankSum(a, x, hits[..rank], k);
      RankSum(a, x, hits[..rank + 1], k) == if hits[rank].key == k then a.add(score, a.weight(rank)) else score)
    ensures forall k :: k in Keys(hits[..rank]) ==> FirstHit(hits[..rank + 1], k) == FirstHit(hits[..rank], k)
    ensures hits[rank].key !in Keys(hits[..rank]) ==> FirstHit(hits[..rank + 1], hits[rank].key) == hits[rank]
  {
    assert hits[..rank + 1][..rank] == hits[..rank];
    assert hits[..rank + 1] == hits[..rank] + [hits[rank]];
    forall k | k in Keys(hits[..rank])
      ensures FirstHit(hits[..rank + 1], k) == FirstHit(hits[..rank], k)
    {
      FirstStays(hits[..rank], hits[rank], k);
    }
    if hits[rank].key !in Keys(hits[..rank]) {
      FirstLast(hits[..rank], hits[rank]);
    }
  }

  lemma {:induction false} FirstStays(hits: seq<Hit>, last: Hit, k: Key)
    requires k in Keys(hits)
    ensures FirstHit(hits + [last], k) == FirstHit(hits, k)
  {
    if hits[0].key != k {
      assert hits == [hits[0]] + hits[1..];
      assert (hits + [last])[1..] == hits[1..] + [last];
      FirstStays(hits[1..], last, k);
    }
  }

  lemma {:induction false} FirstLast(hits: seq<Hit>, last: Hit)
    requires last.key !in Keys(hits)
    ensures last in hits + [last] && FirstHit(hits + [last], last.key) == last
  {
  }

  lemma {:induction false} NotYet<F>(a: Arithmetic<F>, start: F, hits: seq<Hit>, key: Key)
    ensures key !in Keys(hits) ==> RankSum(a, start, hits, key) == start
  {
    if hits != [] {
      NotYet(a, start, hits[..|hits| - 1], key);
      assert hits[|hits| - 1].key in Keys(hits);
    }
  }

  /** `search`, given what its two searches found: nothing without a collection or a visible
      character to search for; else the leading entries, whatever order the hash map is walked in. */
  method Search<F(!new, ==)>(a: Arithmetic<F>, collections: seq<int>, query: string, fts: seq<Hit>,
                             vectors: seq<Hit>, limit: nat) returns (output: seq<Entry<F>>)
    requires StrictTotal(a.above)
    ensures collections == [] || Chunker.Blank(query) ==> output == []
    ensures collections != [] && !Chunker.Blank(query) ==>
      && |output| == Min(if limit < 1 then 1 else Min(limit, 50), |Keys(fts) + Keys(vectors)|)
      && IsFusion(a, fts, vectors, output)
  {
    BeforeTotal(a);
    hide StrictTotal, Entries, Before, Fused, IsFusion, IsFirst, SortOf, Sorted, Elements, Keys, Score;
    if collections == [] || Chunker.Blank(query) {
      return [];
    }
    var first := AddRanks(a, map[], fts);
    var merged := AddRanks(a, first, vectors);
    BothAdded(a, fts, vectors, first, merged);
    var values := set k | k in merged :: Ranked(merged[k].score, k);
    var order := SortSet(Before(a), values);
    ListsValues(merged, order);
    output := Emit(merged, order, Clamp(limit));
    Fuses(a, fts, vectors, order, output);
    FusedCount(a, fts, vectors, Keys(fts) + Keys(vectors));
  }

  /** The first place leads the second: by a higher score, or with an equal one by its document,
      or in one document by its order number. */
  predicate Leads<F(==)>(a: Arithmetic<F>, score: F, key: Key, otherScore: F, other: Key) {
    || a.above(score, otherScore)
    || (score == otherScore && (key.doc < other.doc || (key.doc == other.doc && key.ord < other.ord)))
  }

  /** The hit is the first in the list with its key. */
  ghost predicate IsFirst(hits: seq<Hit>, hit: Hit) {
    exists p :: 0 <= p < |hits| && hits[p] == hit && forall q :: 0 <= q < p ==> hits[q].key != hit.key
  }

  /** Each entry has the first hit with its key, in the two lists after each other, and the whole
      score; each leads the next, and every key that is left out. */
  ghost predicate IsFusion<F(!new)>(a: Arithmetic<F>, fts: seq<Hit>, vectors: seq<Hit>, output: seq<Entry<F>>) {
    && (forall i :: 0 <= i < |output| ==> IsFirst(fts + vectors, output[i].hit))
    && (forall i :: 0 <= i < |output| ==> output[i].score == Score(a, fts, vectors, output[i].hit.key))
    && (forall i, j :: 0 <= i < j < |output| ==>
         Leads(a, output[i].score, output[i].hit.key, output[j].score, output[j].hit.key))
    && (forall i, k :: 0 <= i < |output| && k in Keys(fts) + Keys(vectors) && LeftOut(output, k) ==>
         Leads(a, output[i].score, output[i].hit.key, Score(a, fts, vectors, k), k))
  }

  predicate LeftOut<F>(output: seq<Entry<F>>, k: Key) {
    forall i :: 0 <= i < |output| ==> output[i].hit.key != k
  }

  lemma {:induction false} FusedCount<F>(a: Arithmetic<F>, fts: seq<Hit>, vectors: seq<Hit>, keys: set<Key>)
    ensures |set k | k in keys :: Ranked(Score(a, fts, vectors, k), k)| == |keys|
    decreases |keys|
  {
    hide Score;
    var all := set k | k in keys :: Ranked(Score(a, fts, vectors, k), k);
    if keys == {} {
      assert all == {};
    } else {
      var x :| x in keys;
      FusedCount(a, fts, vectors, keys - {x});
      var less := set k | k in keys - {x} :: Ranked(Score(a, fts, vectors, k), k);
      assert all == less + {Ranked(Score(a, fts, vectors, x), x)};
    }
  }

  lemma Fuses<F(!new)>(a: Arithmetic<F>, fts: seq<Hit>, vectors: seq<Hit>, order: seq<Ranked<F>>, output: seq<Entry<F>>)
    requires StrictTotal(Before(a)) && order == SortOf(Before(a), Fused(a, fts, vectors)) && |output| <= |order|
    requires forall i :: 0 <= i < |output| ==> Ranked(output[i].score, output[i].hit.key) == order[i]
    requires forall i :: 0 <= i < |output| ==> IsFirst(fts + vectors, output[i].hit)
    ensures IsFusion(a, fts, vectors, output)
  {
    OrderLeads(a, fts, vectors, order);
    hide StrictTotal, IsFirst, Score, Before, Fused, SortOf, Sorted, Elements, Leads, Keys;
    forall i, k | 0 <= i < |output| && k in Keys(fts) + Keys(vectors) && LeftOut(output, k)
      ensures Leads(a, output[i].score, output[i].hit.key, Score(a, fts, vectors, k), k)
    {
      BehindAll(a, fts, vectors, order, output, i, k);
    }
  }

  lemma BehindAll<F(!new)>(a: Arithmetic<F>, fts: seq<Hit>, vectors: seq<Hit>, order: seq<Ranked<F>>,
                           output: seq<Entry<F>>, i: nat, k: Key)
    requires StrictTotal(Before(a)) && order == SortOf(Before(a), Fused(a, fts, vectors)) && i < |output| <= |order|
    requires forall i {:trigger order[i]} :: 0 <= i < |output| ==> Ranked(output[i].score, output[i].hit.key) == order[i]
    requires k in Keys(fts) + Keys(vectors) && LeftOut(output, k)
    ensures Leads(a, output[i].score, output[i].hit.key, Score(a, fts, vectors, k), k)
  {
    OrderLeads(a, fts, vectors, order);
    hide StrictTotal, Score, Before, Fused, SortOf, Sorted, Elements, Leads, Keys;
    var j := PlaceOf(a, fts, vectors, order, k);
    assert order[i].key == output[i].hit.key;
  }

  lemma OrderLeads<F(!new)>(a: Arithmetic<F>, fts: seq<Hit>, vectors: seq<Hit>, order: seq<Ranked<F>>)
    requires StrictTotal(Before(a)) && order == SortOf(Before(a), Fused(a, fts, vectors))
    ensures forall i :: 0 <= i < |order| ==> order[i].score == Score(a, fts, vectors, order[i].key)
    ensures forall i, j :: 0 <= i < j < |order| ==>
      Leads(a, order[i].score, order[i].key, order[j].score, order[j].key)
  {
    hide StrictTotal, SortOf, Score;
    forall i | 0 <= i < |order|
      ensures order[i].score == Score(a, fts, vectors, order[i].key)
    {
      assert order[i] in Elements(order);
    }
    forall i, j | 0 <= i < j < |order|
      ensures Leads(a, order[i].score, order[i].key, order[j].score, order[j].key)
    {
      assert Before(a)(order[i], order[j]);
    }
  }

  lemma PlaceOf<F(!new)>(a: Arithmetic<F>, fts: seq<Hit>, vectors: seq<Hit>, order: seq<Ranked<F>>, k: Key)
    returns (j: nat)
    requires StrictTotal(Before(a)) && order == SortOf(Before(a), Fused(a, fts, vectors))
    requires k in Keys(fts) + Keys(vectors)
    ensures j < |order| && order[j] == Ranked(Score(a, fts, vectors, k), k)
  {
    hide StrictTotal, SortOf, Score, Sorted, Keys, Before;
    assert Ranked(Score(a, fts, vectors, k), k) in Elements(order);
    j :| 0 <= j < |order| && order[j] == Ranked(Score(a, fts, vectors, k), k);
  }

  lemma BothAdded<F(!new)>(a: Arithmetic<F>, fts: seq<Hit>, vectors: seq<Hit>, first: map<Key, Entry<F>>,
                           merged: map<Key, Entry<F>>)
    requires Entries(a, map[], fts, first) && Entries(a, first, vectors, merged)
    ensures (set k | k in merged :: Ranked(merged[k].score, k)) == Fused(a, fts, vectors)
    ensures forall k :: k in merged ==> IsFirst(fts + vectors, merged[k].hit) && merged[k].hit.key == k
  {
    hide RankSum, IsFirst;
    forall k | k in merged
      ensures merged[k].score == Score(a, fts, vectors, k)
      ensures IsFirst(fts + vectors, merged[k].hit) && merged[k].hit.key == k
    {
      NotYet(a, a.zero, fts, k);
      FirstOfBoth(fts, vectors, k);
      assert k in first || k in Keys(vectors);
      assert k in first ==> first[k] == EntryOf(a, map[], fts, k);
    }
  }

  lemma FirstOfBoth(fts: seq<Hit>, vectors: seq<Hit>, k: Key)
    ensures k in Keys(fts) ==> IsFirst(fts + vectors, FirstHit(fts, k))
    ensures k !in Keys(fts) && k in Keys(vectors) ==> IsFirst(fts + vectors, FirstHit(vectors, k))
  {
    if k in Keys(fts) {
      var p := FirstPlace(fts, k);
      assert (fts + vectors)[p] == FirstHit(fts, k);
    } else if k in Keys(vectors) {
      var p := FirstPlace(vectors, k);
      assert (fts + vectors)[|fts| + p] == FirstHit(vectors, k);
    }
  }

  lemma {:induction false} FirstPlace(hits: seq<Hit>, k: Key) returns (p: nat)
    requires k in Keys(hits)
    ensures p < |hits| && hits[p] == FirstHit(hits, k) && forall q :: 0 <= q < p ==> hits[q].key != k
  {
    if hits[0].key == k {
      p := 0;
    } else {
      assert hits == [hits[0]] + hits[1..];
      p := FirstPlace(hits[1..], k);
      p := p + 1;
    }
  }

  lemma ListsValues<F(!new)>(merged: map<Key, Entry<F>>, order: seq<Ranked<F>>)
    requires Elements(order) == set k | k in merged :: Ranked(merged[k].score, k)
    ensures forall i :: 0 <= i < |order| ==> order[i].key in merged && order[i].score == merged[order[i].key].score
  {
    forall i | 0 <= i < |order|
      ensures order[i].key in merged && order[i].score == merged[order[i].key].score
    {
      assert order[i] in Elements(order);
    }
  }

  /** The entries in order, cut off at the limit. */
  method Emit<F>(merged: map<Key, Entry<F>>, order: seq<Ranked<F>>, limit: nat) returns (output: seq<Entry<F>>)
    requires forall i :: 0 <= i < |order| ==> order[i].key in merged && order[i].score == merged[order[i].key].score
    requires forall k :: k in merged ==> merged[k].hit.key == k
    ensures |output| == Min(limit, |order|)
    ensures forall i :: 0 <= i < |output| ==> output[i] == merged[order[i].key]
    ensures forall i :: 0 <= i < |output| ==> Ranked(output[i].score, output[i].hit.key) == order[i]
  {
    output := [];
    while |output| < |order| && |output| < limit
      invariant |output| <= Min(limit, |order|)
      invariant forall i :: 0 <= i < |output| ==> output[i] == merged[order[i].key]
    {
      output := output + [merged[order[|output|].key]];
    }
  }

  function Min(a: nat, b: nat): nat {
    if a <= b then a else b
  }

  // ---- What the fused order means ----

  /** What a place in one list adds; ranks count from zero. */
  function Weight(rank: nat): real {
    1.0 / (60.0 + rank as real + 1.0)
  }

  /** The scores without rounding. */
  const EXACT: Arithmetic<real> := Arithmetic(0.0, (x, y) => x + y, n => Weight(n), (x, y) => x > y)

  predicate NoDuplicates(hits: seq<Hit>) {
    forall i, j :: 0 <= i < j < |hits| ==> hits[i].key != hits[j].key
  }

  /** In a list without duplicates a hit counts with its one place. */
  lemma {:induction false} RankSumAt(start: real, hits: seq<Hit>, i: nat)
    requires NoDuplicates(hits) && i < |hits|
    ensures RankSum(EXACT, start, hits, hits[i].key) == start + Weight(i)
    decreases |hits|
  {
    hide Weight;
    var n := |hits| - 1;
    if i == n {
      assert hits[n].key !in Keys(hits[..n]);
      NotYet(EXACT, start, hits[..n], hits[n].key);
    } else {
      RankSumAt(start, hits[..n], i);
    }
  }

  /** At the places `i` and `j` of lists without duplicates a hit scores 1/(61 + i) + 1/(61 + j);
      in one list only, what its place there is worth. */
  lemma ScoreAt(fts: seq<Hit>, vectors: seq<Hit>, i: nat, j: nat)
    requires NoDuplicates(fts) && NoDuplicates(vectors) && i < |fts| && j < |vectors|
    ensures fts[i].key == vectors[j].key ==>
      Score(EXACT, fts, vectors, fts[i].key) == 1.0 / (61.0 + i as real) + 1.0 / (61.0 + j as real)
    ensures fts[i].key !in Keys(vectors) ==> Score(EXACT, fts, vectors, fts[i].key) == 1.0 / (61.0 + i as real)
    ensures vectors[j].key !in Keys(fts) ==> Score(EXACT, fts, vectors, vectors[j].key) == 1.0 / (61.0 + j as real)
  {
    RankSumAt(0.0, fts, i);
    RankSumAt(Weight(i), vectors, j);
    RankSumAt(0.0, vectors, j);
    NotYet(EXACT, 0.0, fts, vectors[j].key);
    NotYet(EXACT, Weight(i), vectors, fts[i].key);
  }

  /** `x` comes before `y` in a list, or only `x` is in it. */
  predicate Ahead(hits: seq<Hit>, x: Key, y: Key) {
    exists i :: 0 <= i < |hits| && hits[i].key == x && forall j :: 0 <= j <= i ==> hits[j].key != y
  }

  lemma AheadWeighsMore(hits: seq<Hit>, x: Key, y: Key, more: real, less: real)
    requires NoDuplicates(hits) && Ahead(hits, x, y) && more >= less
    ensures RankSum(EXACT, more, hits, x) > RankSum(EXACT, less, hits, y)
  {
    var i :| 0 <= i < |hits| && hits[i].key == x && forall j :: 0 <= j <= i ==> hits[j].key != y;
    RankSumAt(more, hits, i);
    hide Weight, RankSum;
    if k :| 0 <= k < |hits| && hits[k].key == y {
      RankSumAt(less, hits, k);
      WeightFalls(i, k);
    } else {
      NotYet(EXACT, less, hits, y);
      WeightFalls(i, i + 1);
    }
  }

  lemma WeightFalls(i: nat, k: nat)
    requires i < k
    ensures Weight(i) > Weight(k) > 0.0
  {
    SmallerShare(60.0 + i as real + 1.0, 60.0 + k as real + 1.0);
  }

  lemma SmallerShare(x: real, y: real)
    requires 0.0 < x < y
    ensures 1.0 / x > 1.0 / y > 0.0
  {
  }

  /** A hit that both lists put ahead of another comes before it in the fused order. */
  lemma AheadInBoth(fts: seq<Hit>, vectors: seq<Hit>, order: seq<Ranked<real>>, i: nat, j: nat)
    requires NoDuplicates(fts) && NoDuplicates(vectors)
    requires StrictTotal(Before(EXACT)) && order == SortOf(Before(EXACT), Fused(EXACT, fts, vectors))
    requires i < |order| && j < |order|
    requires Ahead(fts, order[i].key, order[j].key) && Ahead(vectors, order[i].key, order[j].key)
    ensures i < j
  {
    hide StrictTotal, Ahead, NoDuplicates;
    assert order[i] in Elements(order) && order[j] in Elements(order);
    AheadWeighsMore(fts, order[i].key, order[j].key, 0.0, 0.0);
    AheadWeighsMore(vectors, order[i].key, order[j].key,
                    RankSum(EXACT, 0.0, fts, order[i].key), RankSum(EXACT, 0.0, fts, order[j].key));
    assert !Before(EXACT)(order[j], order[i]);
  }
}
