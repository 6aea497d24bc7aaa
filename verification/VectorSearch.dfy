/** The vector scan: a bounded heap over the rows as they stream by. */
module VectorSearch {
  import opened Options
  import opened Orders

  const MAX_HEAP: nat := 200

  /** The bits of a 32-bit float, as the signed integer they spell. */
  newtype Float32 = b: int | -0x8000_0000 <= b < 0x8000_0000

  datatype Candidate = Candidate(chunkId: int, score: Float32)

  /** A row of the scan; no score comes of a vector of the wrong length, or of a sum
      that is not finite. */
  datatype Row = Row(chunkId: int, score: Option<Float32>)

  /** `total_cmp` compares these integers: the bits, with all but the sign flipped in negatives. */
  function Rank(f: Float32): int {
    if f >= 0 then f as int else -1 - (f as int + 0x8000_0000)
  }

  /** Floats without the sign bit are above those with it; the former compare as their bits do,
      the latter the other way. */
  lemma RankOrder(f: Float32, g: Float32)
    ensures f >= 0 > g ==> Rank(f) > Rank(g)
    ensures f >= 0 && g >= 0 ==> (Rank(f) > Rank(g) <==> f > g)
    ensures f < 0 && g < 0 ==> (Rank(f) > Rank(g) <==> f < g)
  {
  }

  lemma RankInjective(f: Float32, g: Float32)
    requires Rank(f) == Rank(g)
    ensures f == g
  {
  }

  /** Higher scores win, and among equal scores lower row ids. */
  predicate Better(a: Candidate, b: Candidate) {
    Rank(a.score) > Rank(b.score) || (a.score == b.score && a.chunkId < b.chunkId)
  }

  function Candidates(rows: seq<Row>): set<Candidate> {
    set r | r in rows && r.score.Some? :: Candidate(r.chunkId, r.score.value)
  }

  function Min(a: nat, b: nat): nat {
    if a <= b then a else b
  }

  /** `best` are the best `k` of `all`, or all of them if there are no more. */
  predicate IsTop(all: set<Candidate>, k: nat, best: set<Candidate>) {
    best <= all && |best| == Min(k, |all|) && forall b, o :: b in best && o in all - best ==> Better(b, o)
  }

  lemma BetterTotal()
    ensures StrictTotal(Better)
  {
  }

  /** The best `k`, sorted, are the first `k` of everything sorted. */
  lemma TopIsPrefix(all: set<Candidate>, k: nat, best: set<Candidate>)
    requires StrictTotal(Better) && IsTop(all, k, best)
    ensures |SortOf(Better, all)| >= |best|
    ensures SortOf(Better, best) == SortOf(Better, all)[..|best|]
  {
    hide StrictTotal, Better, Sorted, Elements, IsTop, SortOf;
    var p, r := SortOf(Better, best), SortOf(Better, all - best);
    TopSplits(all, k, best);
    ConcatSorted(p, r);
    ConcatElements(p, r);
    SortOfUnique(Better, all, p + r);
    assert (p + r)[..|p|] == p;
  }

  lemma TopSplits(all: set<Candidate>, k: nat, best: set<Candidate>)
    requires IsTop(all, k, best)
    ensures best + (all - best) == all
    ensures forall b, o :: b in best && o in all - best ==> Better(b, o)
  {
  }

  lemma ConcatSorted(p: seq<Candidate>, r: seq<Candidate>)
    requires Sorted(Better, p) && Sorted(Better, r)
    requires forall b, o :: b in Elements(p) && o in Elements(r) ==> Better(b, o)
    ensures Sorted(Better, p + r)
  {
  }

  lemma ConcatElements(p: seq<Candidate>, r: seq<Candidate>)
    ensures Elements(p + r) == Elements(p) + Elements(r)
  {
  }

  lemma WhileRoom(all: set<Candidate>, k: nat, best: set<Candidate>, c: Candidate)
    requires IsTop(all, k, best) && c !in all && |best| < k
    ensures IsTop(all + {c}, k, best + {c})
  {
    AllTop(all, k, best);
  }

  lemma AllTop(all: set<Candidate>, k: nat, best: set<Candidate>)
    requires IsTop(all, k, best) && |best| < k
    ensures best == all
  {
    assert |all - best| == 0;
    assert all == best + (all - best);
  }

  lemma Displaces(all: set<Candidate>, k: nat, best: set<Candidate>, worst: Candidate, c: Candidate)
    requires IsTop(all, k, best) && c !in all && |best| == k && worst in best
    requires forall b :: b in best && b != worst ==> Better(b, worst)
    ensures Better(c, worst) ==> IsTop(all + {c}, k, best - {worst} + {c})
    ensures !Better(c, worst) && c != worst ==> IsTop(all + {c}, k, best)
  {
    BetterTotal();
    if Better(c, worst) {
      var next := best - {worst} + {c};
      forall b, o | b in next && o in all + {c} - next
        ensures Better(b, o)
      {
        if o != worst {
          assert Better(worst, o);
        }
      }
    }
  }

  /** The worst of the kept candidates, which the heap has on top. */
  method Peek(best: set<Candidate>) returns (worst: Candidate)
    requires best != {}
    ensures worst in best && forall b :: b in best && b != worst ==> Better(b, worst)
  {
    worst :| worst in best;
    var rest := best - {worst};
    while rest != {}
      invariant rest <= best && worst in best - rest
      invariant forall b :: b in best && b !in rest && b != worst ==> Better(b, worst)
    {
      var b :| b in rest;
      rest := rest - {b};
      if Better(worst, b) {
        worst := b;
      }
    }
  }

  function Scored(rows: seq<Row>): set<int> {
    set i | 0 <= i < |rows| && rows[i].score.Some?
  }

  /** The first one has the higher score, or the same score and the lower id. */
  predicate Wins(id: int, score: Float32, other: int, otherScore: Float32) {
    Rank(score) > Rank(otherScore) || (score == otherScore && id < other)
  }

  /** Scored rows, the winning ones first, and none left out that beats one of them. */
  ghost predicate BestOf(rows: seq<Row>, asked: nat, found: seq<Candidate>) {
    && |found| == Min(Min(asked, 200), |Scored(rows)|)
    && (forall c :: c in found ==> Row(c.chunkId, Some(c.score)) in rows)
    && (forall i, j :: 0 <= i < j < |found| ==> Wins(found[i].chunkId, found[i].score, found[j].chunkId, found[j].score))
    && (forall r, c :: r in rows && r.score.Some? && Candidate(r.chunkId, r.score.value) !in found && c in found ==>
         Wins(c.chunkId, c.score, r.chunkId, r.score.value))
  }

  /** `search_vectors_on_connection`, for rows with distinct ids: the best rows, as many as
      asked for and never more than the heap may hold; which is the start of the full sort. */
  method BestCandidates(rows: seq<Row>, asked: nat) returns (candidates: seq<Candidate>)
    requires forall i, j :: 0 <= i < j < |rows| ==> rows[i].chunkId != rows[j].chunkId
    ensures BestOf(rows, asked, candidates)
    ensures StrictTotal(Better)
    ensures var order := SortOf(Better, Candidates(rows));
      candidates == order[..Min(Min(asked, MAX_HEAP), |order|)]
  {
    BetterTotal();
    hide StrictTotal, IsTop, Better, Candidates, Sorted, Elements, SortOf, BestOf;
    var limit := Min(asked, MAX_HEAP);
    var best: set<Candidate> := {};
    NoneSeen(limit);
    var i := 0;
    while i < |rows|
      invariant 0 <= i <= |rows| && |best| <= limit && IsTop(Candidates(rows[..i]), limit, best)
    {
      var row := rows[i];
      NextRow(rows, i);
      TopSize(Candidates(rows[..i]), limit, best);
      i := i + 1;
      if row.score.None? {
        continue;
      }
      var candidate := Candidate(row.chunkId, row.score.value);
      if |best| < limit {
        WhileRoom(Candidates(rows[..i - 1]), limit, best, candidate);
        best := best + {candidate};
      } else if best != {} {
        var worst := Peek(best);
        Displaces(Candidates(rows[..i - 1]), limit, best, worst, candidate);
        if Better(candidate, worst) {
          best := best - {worst} + {candidate};
        }
      } else {
        NoneKept(Candidates(rows[..i - 1]), candidate);
      }
    }
    assert rows[..i] == rows;
    candidates := SortSet(Better, best);
    TopIsPrefix(Candidates(rows), limit, best);
    TopSize(Candidates(rows), limit, best);
    TopIsBest(rows, asked, best, candidates);
  }

  lemma TopIsBest(rows: seq<Row>, asked: nat, best: set<Candidate>, found: seq<Candidate>)
    requires forall i, j :: 0 <= i < j < |rows| ==> rows[i].chunkId != rows[j].chunkId
    requires StrictTotal(Better) && IsTop(Candidates(rows), Min(asked, MAX_HEAP), best) && found == SortOf(Better, best)
    ensures BestOf(rows, asked, found)
  {
    hide StrictTotal, SortOf;
    CandidateCount(rows);
    assert forall c :: c in found <==> c in Elements(found);
    forall c | c in found
      ensures Row(c.chunkId, Some(c.score)) in rows
    {
      assert c in Candidates(rows);
    }
    forall r, c | r in rows && r.score.Some? && Candidate(r.chunkId, r.score.value) !in found && c in found
      ensures Wins(c.chunkId, c.score, r.chunkId, r.score.value)
    {
      assert Candidate(r.chunkId, r.score.value) in Candidates(rows) - best;
    }
  }

  lemma {:induction false} CandidateCount(rows: seq<Row>)
    requires forall i, j :: 0 <= i < j < |rows| ==> rows[i].chunkId != rows[j].chunkId
    ensures |Candidates(rows)| == |Scored(rows)|
  {
    hide Candidates, Scored;
    if rows == [] {
      NoneScored();
    } else {
      var n := |rows| - 1;
      CandidateCount(rows[..n]);
      NextRow(rows, n);
      NextScored(rows, n);
      assert rows[..n + 1] == rows;
    }
  }

  lemma NoneScored()
    ensures Candidates([]) == {} && Scored([]) == {}
  {
  }

  lemma NextScored(rows: seq<Row>, n: nat)
    requires n < |rows|
    ensures n !in Scored(rows[..n])
    ensures Scored(rows[..n + 1]) == Scored(rows[..n]) + if rows[n].score.Some? then {n} else {}
  {
  }

  lemma NoneSeen(limit: nat)
    ensures IsTop(Candidates([]), limit, {})
  {
  }

  lemma NoneKept(all: set<Candidate>, c: Candidate)
    ensures IsTop(all + {c}, 0, {})
  {
  }

  lemma TopSize(all: set<Candidate>, k: nat, best: set<Candidate>)
    requires IsTop(all, k, best)
    ensures best <= all && |best| == Min(k, |all|)
  {
  }

  lemma NextRow(rows: seq<Row>, i: nat)
    requires i < |rows|
    requires forall i, j :: 0 <= i < j < |rows| ==> rows[i].chunkId != rows[j].chunkId
    ensures var c := Candidate(rows[i].chunkId, if rows[i].score.Some? then rows[i].score.value else 0 as Float32);
      && c !in Candidates(rows[..i])
      && Candidates(rows[..i + 1]) == Candidates(rows[..i]) + if rows[i].score.Some? then {c} else {}
  {
  }

  // ---- The winners' rows ----

  /** What the second query fetches for a chunk. */
  datatype Info = Info(collection: int, doc: int, ord: int, name: string, text: string)

  datatype Hit = Hit(chunkId: int, info: Info, score: Float32)

  /** What is found for the winners: each with its row and its score, in their order, and left
      out only if it cannot be fetched. */
  ghost predicate Found(winners: seq<Candidate>, table: map<int, Info>, hits: seq<Hit>) {
    exists at: seq<int> :: FoundAt(winners, |winners|, table, hits, at)
  }

  /** For the first `n` winners, where the hits are those of the winners at the places `at`. */
  ghost predicate FoundAt(winners: seq<Candidate>, n: nat, table: map<int, Info>, hits: seq<Hit>, at: seq<int>)
    requires n <= |winners|
  {
    && |at| == |hits|
    && (forall i, j :: 0 <= i < j < |at| ==> at[i] < at[j])
    && (forall i :: 0 <= i < |at| ==> 0 <= at[i] < n && IsHit(winners[at[i]], table, hits[i]))
    && (forall k :: 0 <= k < n && 0 < winners[k].chunkId && winners[k].chunkId in table ==> k in at)
  }

  predicate IsHit(c: Candidate, table: map<int, Info>, h: Hit) {
    0 < c.chunkId && c.chunkId in table && h == Hit(c.chunkId, table[c.chunkId], c.score)
  }

  /** `search_vectors`: nothing for an empty query or no limit; else the rows of the winners, in
      their order. `table` are the rows that can be fetched in the same snapshot. */
  method SearchVectors(rows: seq<Row>, table: map<int, Info>, emptyQuery: bool, asked: nat) returns (hits: seq<Hit>)
    requires forall i, j :: 0 <= i < j < |rows| ==> rows[i].chunkId != rows[j].chunkId
    ensures emptyQuery ==> hits == []
    ensures !emptyQuery ==> exists winners :: BestOf(rows, asked, winners) && Found(winners, table, hits)
  {
    hits := [];
    if asked == 0 || emptyQuery {
      NothingAsked(rows, table);
      return;
    }
    hide BestOf, FoundAt, StrictTotal, Better, Candidates, SortOf;
    var candidates := BestCandidates(rows, asked);
    var metadata := map id | id in table && id > 0 :: table[id];
    ghost var at: seq<int> := [];
    NoneFound(candidates, table);
    var i := 0;
    while i < |candidates|
      invariant 0 <= i <= |candidates| && FoundAt(candidates, i, table, hits, at)
    {
      NextFound(candidates, i, table, hits, at);
      var c := candidates[i];
      if c.chunkId in metadata {
        hits := hits + [Hit(c.chunkId, metadata[c.chunkId], c.score)];
        at := at + [i];
      }
      i := i + 1;
    }
  }

  lemma NothingAsked(rows: seq<Row>, table: map<int, Info>)
    ensures BestOf(rows, 0, []) && Found([], table, [])
  {
    NoneFound([], table);
  }

  lemma NoneFound(winners: seq<Candidate>, table: map<int, Info>)
    ensures FoundAt(winners, 0, table, [], [])
  {
  }

  lemma NextFound(winners: seq<Candidate>, n: nat, table: map<int, Info>, hits: seq<Hit>, at: seq<int>)
    requires n < |winners| && FoundAt(winners, n, table, hits, at)
    ensures var c := winners[n];
      if 0 < c.chunkId && c.chunkId in table
      then FoundAt(winners, n + 1, table, hits + [Hit(c.chunkId, table[c.chunkId], c.score)], at + [n])
      else FoundAt(winners, n + 1, table, hits, at)
  {
  }

  /** While every winner can be fetched, none is lost. */
  lemma NoWinnerLost(winners: seq<Candidate>, table: map<int, Info>, hits: seq<Hit>)
    requires Found(winners, table, hits)
    requires forall i :: 0 <= i < |winners| ==> 0 < winners[i].chunkId && winners[i].chunkId in table
    ensures |hits| == |winners|
    ensures forall i :: 0 <= i < |winners| ==> IsHit(winners[i], table, hits[i])
  {
    var at: seq<int> :| FoundAt(winners, |winners|, table, hits, at);
    IsCount(at, |winners|);
  }

  /** A rising sequence of all numbers below `n` counts up. */
  lemma {:induction false} IsCount(at: seq<int>, n: nat)
    requires forall i, j :: 0 <= i < j < |at| ==> at[i] < at[j]
    requires forall k :: k in at <==> 0 <= k < n
    ensures |at| == n && forall i :: 0 <= i < n ==> at[i] == i
  {
    if at == [] {
      assert 0 !in at;
    } else {
      var last := |at| - 1;
      assert at[last] in at;
      assert n - 1 in at;
      forall k
        ensures k in at[..last] <==> 0 <= k < n - 1
      {
        if 0 <= k < n - 1 {
          assert k in at;
        }
      }
      IsCount(at[..last], n - 1);
    }
  }
}
