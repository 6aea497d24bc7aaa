/** Cutting a text into overlapping chunks that prefer to end after a sentence. */
module Chunker {

  /** Unicode White_Space. */
  predicate IsSpace(c: char) {
    var u := c as int;
    || 0x9 <= u <= 0xD || u == 0x20 || u == 0x85 || u == 0xA0 || u == 0x1680 || 0x2000 <= u <= 0x200A
    || u == 0x2028 || u == 0x2029 || u == 0x202F || u == 0x205F || u == 0x3000
  }

  predicate Blank(text: string) {
    forall i :: 0 <= i < |text| ==> IsSpace(text[i])
  }

  predicate IsBoundary(c: char) {
    c in {'\n', '\U{3002}', '\U{FF01}', '\U{FF1F}', '.', '!', '?'}
  }

  datatype Interval = Interval(start: nat, end: nat)

  // ---- One chunk ----

  /** The end of the latest boundary in a range, or `none`. */
  function LastBoundary(text: string, lo: nat, hi: nat, none: nat): nat
    requires hi <= |text|
    decreases hi
  {
    if hi <= lo then none else if IsBoundary(text[hi - 1]) then hi else LastBoundary(text, lo, hi - 1, none)
  }

  function EndOf(text: string, m: nat, start: nat): (e: nat)
    requires start < |text| && m > 0
    ensures start < e <= |text| && e <= start + m
  {
    if start + m >= |text| then |text| else
      LastBoundaryIs(text, start + 3 * m / 5, start + m, start + m);
      LastBoundary(text, start + 3 * m / 5, start + m, start + m)
  }

  function Max(a: int, b: int): int {
    if a >= b then a else b
  }

  function Min(a: nat, b: nat): nat {
    if a <= b then a else b
  }

  function NextStart(start: nat, end: nat, overlap: nat): nat
    requires start <= end
  {
    Max(end - Min(overlap, end - start), start + 1)
  }

  lemma {:induction false} LastBoundaryIs(text: string, lo: nat, hi: nat, none: nat)
    requires hi <= |text|
    ensures var b := LastBoundary(text, lo, hi, none);
      || (b == none && forall i :: lo <= i < hi ==> !IsBoundary(text[i]))
      || (lo < b <= hi && IsBoundary(text[b - 1]) && forall i :: b <= i < hi ==> !IsBoundary(text[i]))
    decreases hi
  {
    if hi > lo && !IsBoundary(text[hi - 1]) {
      LastBoundaryIs(text, lo, hi - 1, none);
    }
  }

  /** A chunk that is not the last ends after a boundary in the last two fifths of its range,
      as late as possible, or is of full length because there is none. */
  lemma EndIs(text: string, m: nat, start: nat)
    requires start < |text| && m > 0
    ensures var e, floor := EndOf(text, m, start), start + 3 * m / 5;
      && (e < |text| ==> e > floor && start + m < |text|)
      && (e < |text| ==>
           || (e == start + m && forall i :: floor <= i < e ==> !IsBoundary(text[i]))
           || (IsBoundary(text[e - 1]) && forall i :: e <= i < start + m ==> !IsBoundary(text[i])))
  {
    if start + m < |text| {
      LastBoundaryIs(text, start + 3 * m / 5, start + m, start + m);
    }
  }

  /** The next chunk starts later, leaves no gap, and does not end earlier. */
  lemma NextIs(text: string, m: nat, overlap: nat, start: nat)
    requires start < |text| && m > 0 && EndOf(text, m, start) < |text|
    ensures var e := EndOf(text, m, start);
      var next := NextStart(start, e, overlap);
      && start + Max(1, 3 * m / 5 + 1 - overlap) <= next <= e
      && EndOf(text, m, next) >= e
      && (overlap <= 3 * m / 5 ==> next == e - overlap && EndOf(text, m, next) > e)
  {
    var e := EndOf(text, m, start);
    EndIs(text, m, start);
    var next := NextStart(start, e, overlap);
    var end := EndOf(text, m, next);
    EndIs(text, m, next);
  }

  // ---- All chunks ----

  function Intervals(text: string, m: nat, overlap: nat, start: nat): seq<Interval>
    requires start < |text| && m > 0
    decreases |text| - start
  {
    EndIs(text, m, start);
    var end := EndOf(text, m, start);
    if end >= |text| then [Interval(start, end)] else
      NextIs(text, m, overlap, start);
      [Interval(start, end)] + Intervals(text, m, overlap, NextStart(start, end, overlap))
  }

  /** The chunks start at `start`, end at the end, follow each other without a gap, neither
      start nor end running back, and none is empty or too long. */
  ghost predicate Covers(text: string, m: nat, start: nat, iv: seq<Interval>) {
    && iv != [] && iv[0].start == start && iv[|iv| - 1].end == |text|
    && (forall k :: 0 <= k < |iv| ==> iv[k].start < iv[k].end <= iv[k].start + m && iv[k].end <= |text|)
    && (forall k :: 0 < k < |iv| ==> iv[k - 1].start < iv[k].start <= iv[k - 1].end <= iv[k].end)
  }

  lemma CoversMore(text: string, m: nat, start: nat, first: Interval, rest: seq<Interval>)
    requires first.start == start < first.end <= start + m && first.end <= |text|
    requires rest != [] && Covers(text, m, rest[0].start, rest)
    requires start < rest[0].start <= first.end <= rest[0].end
    ensures Covers(text, m, start, [first] + rest)
  {
  }

  lemma {:induction false} IntervalsCover(text: string, m: nat, overlap: nat, start: nat)
    requires start < |text| && m > 0
    ensures Covers(text, m, start, Intervals(text, m, overlap, start))
    ensures Intervals(text, m, overlap, start)[0].end == EndOf(text, m, start)
    decreases |text| - start
  {
    hide Covers, EndOf, NextStart;
    EndIs(text, m, start);
    var end := EndOf(text, m, start);
    if end < |text| {
      NextIs(text, m, overlap, start);
      var next := NextStart(start, end, overlap);
      IntervalsCover(text, m, overlap, next);
      CoversStart(text, m, next, Intervals(text, m, overlap, next));
      CoversMore(text, m, start, Interval(start, end), Intervals(text, m, overlap, next));
    } else {
      OneCovers(text, m, Interval(start, end));
    }
  }

  lemma CoversStart(text: string, m: nat, start: nat, iv: seq<Interval>)
    requires Covers(text, m, start, iv)
    ensures iv != [] && iv[0].start == start
  {
  }

  lemma OneCovers(text: string, m: nat, i: Interval)
    requires i.start < i.end == |text| && i.end <= i.start + m
    ensures Covers(text, m, i.start, [i])
  {
  }

  /** With an overlap of at most three fifths, every two neighbours share exactly the overlap,
      and each ends later than the one before. */
  lemma {:induction false} EndsIncrease(text: string, m: nat, overlap: nat, start: nat)
    requires start < |text| && m > 0 && overlap <= 3 * m / 5
    ensures Marching(Intervals(text, m, overlap, start), overlap)
    decreases |text| - start
  {
    hide Covers, EndOf, NextStart, Marching;
    EndIs(text, m, start);
    var end := EndOf(text, m, start);
    if end < |text| {
      NextIs(text, m, overlap, start);
      var next := NextStart(start, end, overlap);
      EndsIncrease(text, m, overlap, next);
      IntervalsCover(text, m, overlap, next);
      CoversStart(text, m, next, Intervals(text, m, overlap, next));
      MarchesOn(Interval(start, end), Intervals(text, m, overlap, next), overlap);
    } else {
      MarchesAlone(Interval(start, end), overlap);
    }
  }

  predicate Marching(iv: seq<Interval>, overlap: nat) {
    forall k :: 0 < k < |iv| ==> iv[k - 1].end < iv[k].end && iv[k].start == iv[k - 1].end - overlap
  }

  lemma MarchesOn(first: Interval, rest: seq<Interval>, overlap: nat)
    requires rest != [] && Marching(rest, overlap)
    requires first.end < rest[0].end && rest[0].start == first.end - overlap
    ensures Marching([first] + rest, overlap)
  {
  }

  lemma MarchesAlone(i: Interval, overlap: nat)
    ensures Marching([i], overlap)
  {
  }

  /** How far each chunk gets at least. */
  function Stride(m: nat, overlap: nat): (d: nat)
    ensures d >= 1
  {
    Max(1, 3 * m / 5 + 1 - overlap)
  }

  lemma {:induction false} StartsAdvance(text: string, m: nat, overlap: nat, start: nat)
    requires start < |text| && m > 0
    ensures (|Intervals(text, m, overlap, start)| - 1) * Stride(m, overlap) <= |text| - 1 - start
    decreases |text| - start
  {
    hide EndOf, NextStart;
    var end := EndOf(text, m, start);
    if end < |text| {
      NextIs(text, m, overlap, start);
      var next := NextStart(start, end, overlap);
      StartsAdvance(text, m, overlap, next);
      OneMore(|Intervals(text, m, overlap, next)|, Stride(m, overlap), |text| - 1 - next, next - start);
    }
  }

  lemma OneMore(n: nat, d: nat, left: int, step: int)
    requires (n - 1) * d <= left && d <= step
    ensures n * d <= left + step
  {
  }

  /** The number of chunks is bounded by the length of the text over the stride. */
  lemma CountBound(text: string, m: nat, overlap: nat)
    requires text != [] && m > 0
    ensures |Intervals(text, m, overlap, 0)| <= 1 + (|text| - 1) / Stride(m, overlap)
  {
    StartsAdvance(text, m, overlap, 0);
    Divides(|Intervals(text, m, overlap, 0)| - 1, Stride(m, overlap), |text| - 1);
  }

  lemma Divides(a: int, d: nat, n: nat)
    requires d >= 1 && a * d <= n
    ensures a <= n / d
  {
    var q := n / d;
    assert (a - q - 1) * d == a * d - q * d - d;
    NegativeFactor(a - q - 1, d);
  }

  lemma NegativeFactor(x: int, d: nat)
    requires d >= 1 && x * d < 0
    ensures x < 0
  {
  }

  // ---- Rebuilding the text ----

  /** Each chunk starts where the one before ended, or earlier, and ends there, or later. */
  predicate Chained(text: string, iv: seq<Interval>, upTo: nat) {
    iv == [] || (iv[0].start <= upTo <= iv[0].end <= |text| && Chained(text, iv[1..], iv[0].end))
  }

  lemma {:induction false} CoversChained(text: string, iv: seq<Interval>, upTo: nat)
    requires forall k :: 0 <= k < |iv| ==> iv[k].end <= |text|
    requires iv != [] ==> iv[0].start <= upTo <= iv[0].end
    requires forall k :: 0 < k < |iv| ==> iv[k].start <= iv[k - 1].end <= iv[k].end
    ensures Chained(text, iv, upTo)
    decreases |iv|
  {
    if iv != [] {
      CoversChained(text, iv[1..], iv[0].end);
    }
  }

  function LastEnd(iv: seq<Interval>, upTo: nat): nat {
    if iv == [] then upTo else iv[|iv| - 1].end
  }

  /** The chunks with what each shares with the one before dropped. */
  function Joined(text: string, iv: seq<Interval>, upTo: nat): string
    requires Chained(text, iv, upTo)
  {
    if iv == [] then [] else
      text[iv[0].start..iv[0].end][upTo - iv[0].start..] + Joined(text, iv[1..], iv[0].end)
  }

  lemma {:induction false} JoinedIs(text: string, iv: seq<Interval>, upTo: nat)
    requires upTo <= |text| && Chained(text, iv, upTo)
    ensures upTo <= LastEnd(iv, upTo) <= |text| && Joined(text, iv, upTo) == text[upTo..LastEnd(iv, upTo)]
    decreases |iv|
  {
    if iv != [] {
      var end := LastEnd(iv, upTo);
      JoinedIs(text, iv[1..], iv[0].end);
      assert LastEnd(iv[1..], iv[0].end) == end;
      assert text[iv[0].start..iv[0].end][upTo - iv[0].start..] == text[upTo..iv[0].end];
      assert text[upTo..iv[0].end] + text[iv[0].end..end] == text[upTo..end];
    }
  }

  /** Dropping each overlap and joining the chunks gives the text back. */
  lemma Rebuilds(text: string, m: nat, overlap: nat)
    requires text != [] && m > 0
    ensures var iv := Intervals(text, m, overlap, 0);
      Chained(text, iv, 0) && Joined(text, iv, 0) == text
  {
    hide Chained, Intervals, Covers, Joined;
    var iv := Intervals(text, m, overlap, 0);
    IntervalsCover(text, m, overlap, 0);
    ChainsToEnd(text, m, iv);
    JoinedIs(text, iv, 0);
    assert text[0..|text|] == text;
  }

  lemma ChainsToEnd(text: string, m: nat, iv: seq<Interval>)
    requires Covers(text, m, 0, iv)
    ensures Chained(text, iv, 0) && LastEnd(iv, 0) == |text|
  {
    hide Chained;
    CoversChained(text, iv, 0);
  }

  // ---- The method ----

  function Kept(text: string, iv: seq<Interval>): seq<string>
    requires forall k :: 0 <= k < |iv| ==> iv[k].start <= iv[k].end <= |text|
  {
    if iv == [] then [] else
      var chunk := text[iv[0].start..iv[0].end];
      (if Blank(chunk) then [] else [chunk]) + Kept(text, iv[1..])
  }

  /** What is kept are the texts of the intervals at the places `at`, which are those that are not
      blank, in their order. */
  ghost predicate KeptAt(text: string, iv: seq<Interval>, kept: seq<string>, at: seq<nat>)
    requires forall k :: 0 <= k < |iv| ==> iv[k].start <= iv[k].end <= |text|
  {
    && |at| == |kept|
    && (forall i, j :: 0 <= i < j < |at| ==> at[i] < at[j])
    && (forall i :: 0 <= i < |at| ==> at[i] < |iv| && kept[i] == text[iv[at[i]].start..iv[at[i]].end] && !Blank(kept[i]))
    && (forall k :: 0 <= k < |iv| && !Blank(text[iv[k].start..iv[k].end]) ==> k in at)
  }

  lemma {:induction false} KeptExactly(text: string, iv: seq<Interval>) returns (at: seq<nat>)
    requires forall k :: 0 <= k < |iv| ==> iv[k].start <= iv[k].end <= |text|
    ensures KeptAt(text, iv, Kept(text, iv), at)
  {
    hide Blank;
    at := [];
    if iv != [] {
      var n := |iv| - 1;
      at := KeptExactly(text, iv[..n]);
      KeptLast(text, iv);
      if !Blank(text[iv[n].start..iv[n].end]) {
        at := at + [n];
      }
    }
  }

  lemma {:induction false} KeptLast(text: string, iv: seq<Interval>)
    requires iv != [] && forall k :: 0 <= k < |iv| ==> iv[k].start <= iv[k].end <= |text|
    ensures var n := |iv| - 1;
      var chunk := text[iv[n].start..iv[n].end];
      Kept(text, iv) == Kept(text, iv[..n]) + if Blank(chunk) then [] else [chunk]
  {
    hide Blank;
    if |iv| > 1 {
      var n := |iv| - 1;
      assert iv[1..][..n - 1] == iv[..n][1..];
      KeptLast(text, iv[1..]);
    }
  }

  function ChunksOf(text: string, m: nat, overlap: nat): seq<string> {
    if Blank(text) || m == 0 then [] else KeptFrom(text, m, overlap, 0)
  }

  /** The chunks kept from a start on. */
  function KeptFrom(text: string, m: nat, overlap: nat, start: nat): seq<string>
    requires m > 0
  {
    if start >= |text| then [] else
      IntervalsCover(text, m, overlap, start);
      Kept(text, Intervals(text, m, overlap, start))
  }

  /** The search for the end of a chunk. */
  method FindEnd(text: string, maxChars: nat, start: nat) returns (end: nat)
    requires start < |text| && maxChars > 0
    ensures end == EndOf(text, maxChars, start)
  {
    end := if start + maxChars < |text| then start + maxChars else |text|;
    if end < |text| {
      var floor := start + maxChars * 3 / 5;
      var index := end;
      while index > floor && !IsBoundary(text[index - 1])
        invariant floor <= index <= end
        invariant LastBoundary(text, floor, end, end) == LastBoundary(text, floor, index, end)
      {
        index := index - 1;
      }
      if index > floor {
        end := index;
      }
    }
  }

  /** `chunk_text` */
  method ChunkText(text: string, maxChars: nat, overlap: nat) returns (chunks: seq<string>)
    ensures chunks == ChunksOf(text, maxChars, overlap)
  {
    hide KeptFrom, EndOf, Blank;
    if Blank(text) || maxChars == 0 {
      return [];
    }
    chunks := [];
    var start := 0;
    Visible(text);
    while start < |text|
      invariant start < |text| && ChunksOf(text, maxChars, overlap) == chunks + KeptFrom(text, maxChars, overlap, start)
      decreases |text| - start
    {
      var end := FindEnd(text, maxChars, start);
      KeptStep(text, maxChars, overlap, start);
      var chunk := text[start..end];
      if !Blank(chunk) {
        chunks := chunks + [chunk];
      }
      if end >= |text| {
        break;
      }
      var next := if overlap <= end - start then end - overlap else start;
      start := if next >= start + 1 then next else start + 1;
    }
  }

  lemma Visible(text: string)
    requires !Blank(text)
    ensures text != []
  {
  }

  lemma KeptStep(text: string, m: nat, overlap: nat, start: nat)
    requires start < |text| && m > 0
    ensures var end := EndOf(text, m, start);
      KeptFrom(text, m, overlap, start) ==
        (if Blank(text[start..end]) then [] else [text[start..end]])
        + if end < |text| then KeptFrom(text, m, overlap, NextStart(start, end, overlap)) else []
    ensures EndOf(text, m, start) < |text| ==> NextStart(start, EndOf(text, m, start), overlap) < |text|
  {
    hide EndOf, Covers, Blank;
    IntervalsCover(text, m, overlap, start);
    var end := EndOf(text, m, start);
    if end < |text| {
      NextIs(text, m, overlap, start);
      var next := NextStart(start, end, overlap);
      IntervalsCover(text, m, overlap, next);
      assert Intervals(text, m, overlap, start)[1..] == Intervals(text, m, overlap, next);
    } else {
      var iv := Intervals(text, m, overlap, start);
      assert iv == [Interval(start, end)] && iv[1..] == [];
      assert Kept(text, iv[1..]) == [];
    }
  }

  /** No visible character is lost: it is in a chunk that is kept. */
  lemma NothingLost(text: string, m: nat, overlap: nat, i: nat) returns (k: nat)
    requires i < |text| && !IsSpace(text[i]) && m > 0
    ensures !Blank(text)
    ensures var iv := Intervals(text, m, overlap, 0);
      && k < |iv| && iv[k].start <= i < iv[k].end <= |text|
      && text[iv[k].start..iv[k].end] in ChunksOf(text, m, overlap)
  {
    hide Intervals, Kept, Covers;
    IntervalsCover(text, m, overlap, 0);
    var iv := Intervals(text, m, overlap, 0);
    k := Holding(text, m, iv, i);
    var chunk := text[iv[k].start..iv[k].end];
    assert chunk[i - iv[k].start] == text[i];
    CoversWithin(text, m, iv);
    KeptIfVisible(text, iv, k);
  }

  lemma CoversWithin(text: string, m: nat, iv: seq<Interval>)
    requires Covers(text, m, 0, iv)
    ensures forall j :: 0 <= j < |iv| ==> iv[j].start <= iv[j].end <= |text|
  {
  }

  /** The first chunk that ends after a position holds it. */
  lemma Holding(text: string, m: nat, iv: seq<Interval>, i: nat) returns (k: nat)
    requires Covers(text, m, 0, iv) && i < |text|
    ensures k < |iv| && iv[k].start <= i < iv[k].end <= |text|
  {
    k := 0;
    while iv[k].end <= i
      invariant 0 <= k < |iv| && iv[k].start <= i
      decreases |iv| - k
    {
      k := k + 1;
    }
  }

  lemma {:induction false} KeptIfVisible(text: string, iv: seq<Interval>, k: nat)
    requires forall j :: 0 <= j < |iv| ==> iv[j].start <= iv[j].end <= |text|
    requires k < |iv| && !Blank(text[iv[k].start..iv[k].end])
    ensures text[iv[k].start..iv[k].end] in Kept(text, iv)
    decreases |iv|
  {
    if k > 0 {
      KeptIfVisible(text, iv[1..], k - 1);
    }
  }
}
