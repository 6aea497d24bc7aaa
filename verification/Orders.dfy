/** Strict total orders, and the one sequence that lists a finite set in order.
    Python's `sorted`, Rust's `sort_by` and `min_by` are all specified by `SortOf`. */
module Orders {

  ghost predicate StrictTotal<T(!new)>(less: (T, T) -> bool) {
    && (forall x :: !less(x, x))
    && (forall x, y, z {:trigger less(x, y), less(y, z)} :: less(x, y) && less(y, z) ==> less(x, z))
    && (forall x, y {:trigger less(x, y)} :: x != y ==> less(x, y) || less(y, x))
  }

  ghost predicate Sorted<T(!new)>(less: (T, T) -> bool, s: seq<T>) {
    forall i, j :: 0 <= i < j < |s| ==> less(s[i], s[j])
  }

  function Elements<T>(s: seq<T>): set<T> {
    set x | x in s
  }

  ghost predicate IsLeast<T(!new)>(less: (T, T) -> bool, m: T, s: set<T>) {
    m in s && forall x :: x in s && x != m ==> less(m, x)
  }

  lemma {:induction false} LeastExists<T(!new)>(less: (T, T) -> bool, s: set<T>)
    requires StrictTotal(less) && s != {}
    ensures exists m :: IsLeast(less, m, s)
    decreases |s|
  {
    var x :| x in s;
    if s == {x} {
      assert IsLeast(less, x, s);
    } else {
      LeastExists(less, s - {x});
      var m :| IsLeast(less, m, s - {x});
      if less(x, m) {
        forall y | y in s && y != x
          ensures less(x, y)
        {
          assert y in s - {x};
        }
        assert IsLeast(less, x, s);
      } else {
        assert IsLeast(less, m, s);
      }
    }
  }

  /** The elements of `s` listed in strictly increasing order. */
  ghost function SortOf<T(!new)>(less: (T, T) -> bool, s: set<T>): (q: seq<T>)
    requires StrictTotal(less)
    ensures Sorted(less, q) && Elements(q) == s && |q| == |s|
    decreases |s|
  {
    if s == {} then [] else
      LeastExists(less, s);
      var m :| IsLeast(less, m, s);
      var rest := SortOf(less, s - {m});
      assert forall x :: x in rest <==> x in Elements(rest);
      [m] + rest
  }

  /** A sorted listing is unique, so "sorted and with these elements" pins a sequence down. */
  lemma {:induction false} SortedUnique<T(!new)>(less: (T, T) -> bool, a: seq<T>, b: seq<T>)
    requires StrictTotal(less) && Sorted(less, a) && Sorted(less, b)
    requires Elements(a) == Elements(b)
    ensures a == b
    decreases |a|
  {
    if a == [] || b == [] {
      EmptyElements(a);
      EmptyElements(b);
    } else {
      assert a[0] in Elements(b);
      assert b[0] in Elements(a);
      assert a[0] == b[0];
      forall x
        ensures x in a[1..] <==> x in b[1..]
      {
        TailElement(less, a, x);
        TailElement(less, b, x);
        assert x in a <==> x in Elements(a);
        assert x in b <==> x in Elements(b);
      }
      assert Elements(a[1..]) == Elements(b[1..]);
      SortedUnique(less, a[1..], b[1..]);
      assert a == [a[0]] + a[1..] && b == [b[0]] + b[1..];
    }
  }

  lemma EmptyElements<T>(s: seq<T>)
    ensures Elements(s) == {} <==> s == []
  {
    if s != [] {
      assert s[0] in Elements(s);
    }
  }

  lemma TailElement<T(!new)>(less: (T, T) -> bool, s: seq<T>, x: T)
    requires StrictTotal(less) && Sorted(less, s) && s != []
    ensures x in s[1..] <==> x in s && x != s[0]
  {
  }

  lemma SortOfUnique<T(!new)>(less: (T, T) -> bool, s: set<T>, q: seq<T>)
    requires StrictTotal(less) && Sorted(less, q) && Elements(q) == s
    ensures q == SortOf(less, s)
  {
    SortedUnique(less, q, SortOf(less, s));
  }

  lemma SortedNoDuplicates<T(!new)>(less: (T, T) -> bool, q: seq<T>)
    requires StrictTotal(less) && Sorted(less, q)
    ensures |Elements(q)| == |q|
  {
    SortOfUnique(less, Elements(q), q);
  }

  /** A prefix of a sorted listing leaves the elements of the rest. */
  lemma SortedSplit<T(!new)>(less: (T, T) -> bool, q: seq<T>, n: nat)
    requires StrictTotal(less) && Sorted(less, q) && n <= |q|
    ensures Elements(q) - Elements(q[..n]) == Elements(q[n..])
  {
  }

  /** The least element of what a prefix leaves is the next one listed. */
  lemma LeastIsNext<T(!new)>(less: (T, T) -> bool, q: seq<T>, n: nat, m: T)
    requires StrictTotal(less) && Sorted(less, q) && n <= |q|
    requires IsLeast(less, m, Elements(q[n..]))
    ensures n < |q| && q[n] == m && Elements(q[..n + 1]) == Elements(q[..n]) + {m}
  {
    assert m in q[n..];
    var j :| 0 <= j < |q[n..]| && q[n..][j] == m;
    assert q[n + j] == m;
    assert q[n] in q[n..];
    assert q[n] in Elements(q[n..]);
    assert forall i :: n < i < |q| ==> less(q[n], q[i]);
    assert q[..n + 1] == q[..n] + [q[n]];
  }

  lemma SubsetCount<T>(c: set<T>, d: set<T>)
    requires c <= d
    ensures |c| <= |d|
  {
    assert d == c + (d - c);
  }

  /** Any correct library sort of distinct elements: the elements arrive in
      an arbitrary order, one at a time, and are inserted where they belong. */
  method SortSet<T(!new, ==)>(less: (T, T) -> bool, s: set<T>) returns (q: seq<T>)
    requires StrictTotal(less)
    ensures q == SortOf(less, s)
  {
    q := [];
    var rest := s;
    while rest != {}
      invariant rest <= s
      invariant Sorted(less, q) && Elements(q) == s - rest
    {
      var x :| x in rest;
      q := Insert(less, q, x);
      rest := rest - {x};
    }
    SortOfUnique(less, s, q);
  }

  method Insert<T(!new, ==)>(less: (T, T) -> bool, q: seq<T>, x: T) returns (r: seq<T>)
    requires StrictTotal(less) && Sorted(less, q) && x !in Elements(q)
    ensures Sorted(less, r) && Elements(r) == Elements(q) + {x}
  {
    var i := 0;
    while i < |q| && less(q[i], x)
      invariant 0 <= i <= |q|
      invariant forall k :: 0 <= k < i ==> less(q[k], x)
    {
      i := i + 1;
    }
    r := q[..i] + [x] + q[i..];
    forall k | i <= k < |q|
      ensures less(x, q[k])
    {
      assert q[k] in Elements(q) && q[i] in Elements(q);
      assert less(x, q[i]);
    }
    assert forall y :: y in q <==> y in q[..i] || y in q[i..] by {
      assert q == q[..i] + q[i..];
    }
  }

  // ---- Lexicographic order: how Python and Rust compare strings and lists ----

  predicate LexLess<T(==)>(less: (T, T) -> bool, a: seq<T>, b: seq<T>) {
    if b == [] then false
    else if a == [] then true
    else if a[0] == b[0] then LexLess(less, a[1..], b[1..])
    else less(a[0], b[0])
  }

  lemma {:induction false} LexTransitive<T(!new)>(less: (T, T) -> bool, a: seq<T>, b: seq<T>, c: seq<T>)
    requires StrictTotal(less) && LexLess(less, a, b) && LexLess(less, b, c)
    ensures LexLess(less, a, c)
    decreases |a|
  {
    if a != [] && a[0] == b[0] && b[0] == c[0] {
      LexTransitive(less, a[1..], b[1..], c[1..]);
    }
  }

  lemma {:induction false} LexTotal<T(!new)>(less: (T, T) -> bool, a: seq<T>, b: seq<T>)
    requires StrictTotal(less)
    ensures !LexLess(less, a, a)
    ensures a != b ==> LexLess(less, a, b) || LexLess(less, b, a)
    decreases |a|
  {
    if a != [] {
      LexTotal(less, a[1..], if b == [] then [] else b[1..]);
      if b != [] && a[0] == b[0] && a != b {
        assert a == [a[0]] + a[1..] && b == [b[0]] + b[1..];
      }
    }
  }

  predicate CharLess(a: char, b: char) {
    a < b
  }

  predicate StringLess(a: string, b: string) {
    LexLess(CharLess, a, b)
  }

  predicate ListLess(a: seq<string>, b: seq<string>) {
    LexLess(StringLess, a, b)
  }

  lemma StringsTotal()
    ensures StrictTotal(StringLess)
  {
    assert StrictTotal(CharLess);
    forall a, b, c | StringLess(a, b) && StringLess(b, c)
      ensures StringLess(a, c)
    {
      LexTransitive(CharLess, a, b, c);
    }
    forall a, b
      ensures !StringLess(a, a) && (a != b ==> StringLess(a, b) || StringLess(b, a))
    {
      LexTotal(CharLess, a, b);
    }
  }

  /** Strings in ascending order: Python's `sorted` of a set of strings. */
  ghost function Alphabetical(s: set<string>): (q: seq<string>)
    ensures Sorted(StringLess, q) && Elements(q) == s && |q| == |s|
  {
    StringsTotal();
    SortOf(StringLess, s)
  }

  method SortStrings(s: set<string>) returns (q: seq<string>)
    ensures q == Alphabetical(s)
  {
    StringsTotal();
    q := SortSet(StringLess, s);
  }

  lemma ListsTotal()
    ensures StrictTotal(ListLess)
  {
    StringsTotal();
    forall a, b, c | ListLess(a, b) && ListLess(b, c)
      ensures ListLess(a, c)
    {
      LexTransitive(StringLess, a, b, c);
    }
    forall a, b
      ensures !ListLess(a, a) && (a != b ==> ListLess(a, b) || ListLess(b, a))
    {
      LexTotal(StringLess, a, b);
    }
  }
}
