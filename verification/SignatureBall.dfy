/** The signature index: the values within Hamming distance three of a signature, for any
    bit width, and the scan filtered by them. */
module SignatureBall {
  import opened Options
  import opened Orders

  /** A signature, lowest bit first. */
  type Bits = seq<bool>

  const RADIUS := 3

  // ---- Distance ----

  function Diff(s: Bits, t: Bits): set<nat>
    requires |s| == |t|
  {
    set i: nat | i < |s| && s[i] != t[i]
  }

  /** The number of positions in which two signatures differ. */
  function Distance(s: Bits, t: Bits): nat
    requires |s| == |t|
  {
    |Diff(s, t)|
  }

  predicate InBall(s: Bits, t: Bits) {
    |s| == |t| && Distance(s, t) <= RADIUS
  }

  /** Exclusive or with a mask of bits. */
  function Flip(s: Bits, mask: set<nat>): (t: Bits)
    ensures |t| == |s|
  {
    seq(|s|, i requires 0 <= i < |s| => if i in mask then !s[i] else s[i])
  }

  function FlipBit(s: Bits, i: nat): Bits
    requires i < |s|
  {
    s[i := !s[i]]
  }

  lemma FlipDiff(s: Bits, mask: set<nat>)
    requires forall i :: i in mask ==> i < |s|
    ensures Diff(s, Flip(s, mask)) == mask
  {
  }

  lemma DiffFlip(s: Bits, t: Bits)
    requires |s| == |t|
    ensures Flip(s, Diff(s, t)) == t
  {
  }

  // ---- Masks of up to three bits ----

  datatype Mask = M0 | M1(a: nat) | M2(a: nat, b: nat) | M3(a: nat, b: nat, c: nat)

  predicate ValidMask(m: Mask, n: nat) {
    match m
    case M0 => true
    case M1(a) => a < n
    case M2(a, b) => a < b < n
    case M3(a, b, c) => a < b < c < n
  }

  function Positions(m: Mask): set<nat> {
    match m
    case M0 => {}
    case M1(a) => {a}
    case M2(a, b) => {a, b}
    case M3(a, b, c) => {a, b, c}
  }

  lemma MaskSize(m: Mask, n: nat)
    requires ValidMask(m, n)
    ensures |Positions(m)| <= RADIUS && forall i :: i in Positions(m) ==> i < n
  {
  }

  lemma MaskInjective(m: Mask, k: Mask, n: nat)
    requires ValidMask(m, n) && ValidMask(k, n) && Positions(m) == Positions(k)
    ensures m == k
  {
  }

  lemma MaskOf(positions: set<nat>, n: nat) returns (m: Mask)
    requires |positions| <= RADIUS && forall i :: i in positions ==> i < n
    ensures ValidMask(m, n) && Positions(m) == positions
  {
    if positions == {} {
      return M0;
    }
    var a := Least(positions);
    var rest := positions - {a};
    assert positions == rest + {a};
    if rest == {} {
      return M1(a);
    }
    var b := Least(rest);
    var last := rest - {b};
    assert rest == last + {b};
    if last == {} {
      return M2(a, b);
    }
    var c := Least(last);
    assert |last| == 1 && |last - {c}| == 0;
    assert last == last - {c} + {c};
    return M3(a, b, c);
  }

  lemma {:induction false} Least(s: set<nat>) returns (a: nat)
    requires s != {}
    ensures a in s && forall i :: i in s ==> a <= i
    decreases |s|
  {
    var x :| x in s;
    if s == {x} {
      return x;
    }
    var y := Least(s - {x});
    assert s == s - {x} + {x};
    return if x < y then x else y;
  }

  // ---- How many there are ----

  function Choose(n: nat, k: nat): nat {
    if k == 0 then 1 else if n == 0 then 0 else Choose(n - 1, k - 1) + Choose(n - 1, k)
  }

  function BallSize(n: nat): nat {
    1 + n + Choose(n, 2) + Choose(n, 3)
  }

  lemma {:induction false} ChooseOne(n: nat)
    ensures Choose(n, 1) == n
  {
    if n > 0 { ChooseOne(n - 1); }
  }

  /** The masks whose lowest bit is a given one of `n` remaining bits. */
  lemma NextFirst(n: nat)
    requires n > 0
    ensures BallSize(n) == BallSize(n - 1) + 1 + Choose(n - 1, 1) + Choose(n - 1, 2)
  {
  }

  lemma NextSecond(n: nat)
    requires n > 0
    ensures Choose(n, 1) + Choose(n, 2) == Choose(n - 1, 1) + Choose(n - 1, 2) + 1 + (n - 1)
  {
    ChooseOne(n);
    ChooseOne(n - 1);
  }

  // ---- The loop nest ----

  /** The head of the outer, the middle or the inner loop, by the values of their counters. */
  datatype Point = Outer(first: nat) | Middle(first: nat, second: nat) | Inner(first: nat, second: nat, third: nat)

  /** The masks generated before that point is reached. */
  predicate Before(m: Mask, p: Point) {
    match m
    case M0 => true
    case M1(a) => a < p.first || (a == p.first && !p.Outer?)
    case M2(a, b) =>
      a < p.first || (a == p.first && ((p.Middle? && b < p.second) || (p.Inner? && b <= p.second)))
    case M3(a, b, c) =>
      a < p.first || (a == p.first && !p.Outer? && (b < p.second || (p.Inner? && b == p.second && c < p.third)))
  }

  /** Exactly the masks generated before a point are listed, each once, and their images are
      what has been put out. */
  ghost predicate Listed(s: Bits, p: Point, masks: seq<Mask>, output: seq<Bits>) {
    && (forall m :: m in masks <==> ValidMask(m, |s|) && Before(m, p))
    && (forall i, j :: 0 <= i < j < |masks| ==> masks[i] != masks[j])
    && |output| == |masks| && forall i :: 0 <= i < |masks| ==> output[i] == Flip(s, Positions(masks[i]))
  }

  lemma Pushes(s: Bits, p: Point, q: Point, masks: seq<Mask>, output: seq<Bits>, m: Mask)
    requires Listed(s, p, masks, output) && ValidMask(m, |s|) && !Before(m, p)
    requires forall k :: ValidMask(k, |s|) ==> (Before(k, q) <==> Before(k, p) || k == m)
    ensures Listed(s, q, masks + [m], output + [Flip(s, Positions(m))])
  {
  }

  lemma Continues(s: Bits, p: Point, q: Point, masks: seq<Mask>, output: seq<Bits>)
    requires Listed(s, p, masks, output)
    requires forall k :: ValidMask(k, |s|) ==> (Before(k, q) <==> Before(k, p))
    ensures Listed(s, q, masks, output)
  {
  }

  lemma FlipsTwo(s: Bits, a: nat, b: nat)
    requires a < b < |s|
    ensures FlipBit(s, a) == Flip(s, {a}) && FlipBit(FlipBit(s, a), b) == Flip(s, {a, b})
  {
  }

  lemma FlipsThree(s: Bits, a: nat, b: nat, c: nat)
    requires a < b < c < |s|
    ensures FlipBit(FlipBit(FlipBit(s, a), b), c) == Flip(s, {a, b, c})
  {
  }

  /** `vector_signature_neighbors`, before its values are sorted: no duplicates, exactly the
      signatures within the radius, and as many as the binomial sum says. */
  method Neighbors(s: Bits) returns (output: seq<Bits>)
    ensures forall t :: t in output <==> InBall(s, t)
    ensures forall i, j :: 0 <= i < j < |output| ==> output[i] != output[j]
    ensures |output| == BallSize(|s|)
  {
    hide Listed, BallSize, Choose, Flip, FlipBit, InBall;
    var n := |s|;
    output := [s];
    ghost var masks := [M0];
    Start(s);
    var first := 0;
    while first < n
      invariant first <= n && Listed(s, Outer(first), masks, output)
      invariant |output| == 1 + BallSize(n) - BallSize(n - first)
    {
      Pushes(s, Outer(first), Middle(first, first + 1), masks, output, M1(first));
      output, masks := output + [FlipBit(s, first)], masks + [M1(first)];
      FlipOne(s, first);
      NextFirst(n - first);
      ghost var before := |output| + Choose(n - first - 1, 1) + Choose(n - first - 1, 2);
      var second := first + 1;
      while second < n
        invariant first < second <= n && Listed(s, Middle(first, second), masks, output)
        invariant |output| == before - Choose(n - second, 1) - Choose(n - second, 2)
      {
        FlipsTwo(s, first, second);
        Pushes(s, Middle(first, second), Inner(first, second, second + 1), masks, output, M2(first, second));
        output, masks := output + [FlipBit(FlipBit(s, first), second)], masks + [M2(first, second)];
        NextSecond(n - second);
        ghost var sofar := |output|;
        var third := second + 1;
        while third < n
          invariant second < third <= n && Listed(s, Inner(first, second, third), masks, output)
          invariant |output| == sofar + third - second - 1
        {
          FlipsThree(s, first, second, third);
          Pushes(s, Inner(first, second, third), Inner(first, second, third + 1), masks, output, M3(first, second, third));
          output := output + [FlipBit(FlipBit(FlipBit(s, first), second), third)];
          masks := masks + [M3(first, second, third)];
          third := third + 1;
        }
        Continues(s, Inner(first, second, third), Middle(first, second + 1), masks, output);
        second := second + 1;
      }
      NoneLeft();
      Continues(s, Middle(first, second), Outer(first + 1), masks, output);
      first := first + 1;
    }
    NoneLeft();
    Complete(s, masks, output);
  }

  lemma FlipOne(s: Bits, a: nat)
    requires a < |s|
    ensures FlipBit(s, a) == Flip(s, {a})
  {
  }

  lemma NoneLeft()
    ensures BallSize(0) == 1 && Choose(0, 1) == 0 && Choose(0, 2) == 0
  {
  }

  lemma Start(s: Bits)
    ensures Listed(s, Outer(0), [M0], [s])
  {
  }

  /** When the loops are done, all masks have been listed, and their images are the ball. */
  lemma Complete(s: Bits, masks: seq<Mask>, output: seq<Bits>)
    requires Listed(s, Outer(|s|), masks, output)
    ensures forall t :: t in output <==> InBall(s, t)
    ensures forall i, j :: 0 <= i < j < |output| ==> output[i] != output[j]
  {
    forall t | t in output
      ensures InBall(s, t)
    {
      var i :| 0 <= i < |output| && output[i] == t;
      assert masks[i] in masks;
      MaskSize(masks[i], |s|);
      FlipDiff(s, Positions(masks[i]));
    }
    forall t | InBall(s, t)
      ensures t in output
    {
      var m := MaskOf(Diff(s, t), |s|);
      DiffFlip(s, t);
      assert m in masks;
      var i :| 0 <= i < |masks| && masks[i] == m;
      assert output[i] == t;
    }
    forall i, j | 0 <= i < j < |output|
      ensures output[i] != output[j]
    {
      assert masks[i] in masks && masks[j] in masks;
      MaskSize(masks[i], |s|);
      MaskSize(masks[j], |s|);
      FlipDiff(s, Positions(masks[i]));
      FlipDiff(s, Positions(masks[j]));
      if Positions(masks[i]) == Positions(masks[j]) {
        MaskInjective(masks[i], masks[j], |s|);
      }
    }
  }

  // ---- As numbers ----

  /** The integer stored for a signature. */
  function Value(s: Bits): nat {
    if s == [] then 0 else (if s[0] then 1 else 0) + 2 * Value(s[1..])
  }

  lemma {:induction false} ValueInjective(s: Bits, t: Bits)
    requires |s| == |t| && Value(s) == Value(t)
    ensures s == t
    decreases |s|
  {
    if s != [] {
      assert s[0] == t[0];
      ValueInjective(s[1..], t[1..]);
      assert s == [s[0]] + s[1..] && t == [t[0]] + t[1..];
    }
  }

  function Zeros(n: nat): (z: Bits)
    ensures |z| == n && forall i :: 0 <= i < n ==> !z[i]
    ensures Value(z) == 0
  {
    if n == 0 then [] else
      var rest := Zeros(n - 1);
      assert ([false] + rest)[1..] == rest;
      [false] + rest
  }

  predicate Less(a: int, b: int) {
    a < b
  }

  /** A list of the values in the ball of a signature. */
  ghost predicate IsBallOf(s: Bits, values: seq<int>) {
    forall v :: v in values <==> exists t :: InBall(s, t) && Value(t) == v
  }

  /** `vector_signature_neighbors`: ascending, so without duplicates. */
  method NeighborValues(s: Bits) returns (values: seq<int>)
    ensures Sorted(Less, values) && IsBallOf(s, values) && |values| == BallSize(|s|)
  {
    hide BallSize, Value;
    var output := Neighbors(s);
    var found: set<int> := {};
    var i := 0;
    while i < |output|
      invariant 0 <= i <= |output| && |found| == i && found == ValuesOf(output[..i])
    {
      NextValue(s, output, i);
      found := found + {Value(output[i])};
      i := i + 1;
    }
    assert output[..i] == output;
    values := SortSet(Less, found);
    AllValues(s, output, values);
  }

  function ValuesOf(bits: seq<Bits>): set<int> {
    set t | t in bits :: Value(t)
  }

  lemma NextValue(s: Bits, output: seq<Bits>, i: nat)
    requires i < |output| && forall t :: t in output ==> |t| == |s|
    requires forall j, k :: 0 <= j < k < |output| ==> output[j] != output[k]
    ensures Value(output[i]) !in ValuesOf(output[..i])
    ensures ValuesOf(output[..i + 1]) == ValuesOf(output[..i]) + {Value(output[i])}
  {
    hide Value;
    forall t | t in output[..i]
      ensures Value(t) != Value(output[i])
    {
      assert output[i] in output && t in output;
      if Value(t) == Value(output[i]) {
        ValueInjective(t, output[i]);
      }
    }
    assert output[..i + 1] == output[..i] + [output[i]];
  }

  lemma AllValues(s: Bits, output: seq<Bits>, values: seq<int>)
    requires forall t :: t in output <==> InBall(s, t)
    requires Elements(values) == ValuesOf(output)
    ensures IsBallOf(s, values)
  {
    hide InBall, Value;
    forall v
      ensures v in values <==> exists t :: InBall(s, t) && Value(t) == v
    {
      assert v in values <==> v in Elements(values);
    }
  }

  // ---- The filtered scan ----

  /** `id_list` was written for row ids, so it keeps positive numbers only. */
  function IdList(ids: seq<int>): (kept: seq<int>)
    ensures forall v :: v in kept <==> v in ids && v > 0
  {
    if ids == [] then [] else
      var rest := IdList(ids[1..]);
      if ids[0] > 0 then [ids[0]] + rest else rest
  }

  /** The filter lets a row pass that has no signature yet, or one in the list. */
  predicate Admitted(row: Option<Bits>, ids: seq<int>) {
    row.None? || Value(row.value) in ids
  }

  /** The rows that pass are those without a signature, and those in the ball but for zero. */
  lemma AdmittedExactly(s: Bits, values: seq<int>, row: Option<Bits>)
    requires IsBallOf(s, values) && (row.Some? ==> |row.value| == |s|)
    ensures Admitted(row, IdList(values)) <==> row.None? || (InBall(s, row.value) && Value(row.value) != 0)
  {
    if row.Some? && Value(row.value) in values {
      var t :| InBall(s, t) && Value(t) == Value(row.value);
      ValueInjective(t, row.value);
    }
  }

  /** The scan finds every row in the ball exactly if the query's signature has more bits set
      than the radius. */
  lemma CompleteExactly(s: Bits, values: seq<int>)
    requires IsBallOf(s, values)
    ensures (forall t :: InBall(s, t) ==> Admitted(Some(t), IdList(values)))
      <==> |set i: nat | i < |s| && s[i]| > RADIUS
  {
    var zero := Zeros(|s|);
    assert Diff(s, zero) == set i: nat | i < |s| && s[i];
    AdmittedExactly(s, values, Some(zero));
    if Distance(s, zero) > RADIUS {
      forall t | InBall(s, t)
        ensures Admitted(Some(t), IdList(values))
      {
        AdmittedExactly(s, values, Some(t));
        if Value(t) == 0 {
          ValueInjective(t, zero);
        }
      }
    }
  }

  /** A query whose signature is 1 misses the rows whose signature is 0, at distance one. */
  lemma ZeroIsMissed(values: seq<int>)
    requires IsBallOf([true] + Zeros(15), values)
    ensures InBall([true] + Zeros(15), Zeros(16)) && !Admitted(Some(Zeros(16)), IdList(values))
  {
    var s := [true] + Zeros(15);
    assert Diff(s, Zeros(16)) == {0};
    AdmittedExactly(s, values, Some(Zeros(16)));
  }
}
