/** Tarjan's algorithm as the architecture guard runs it over the feature graph.
    `State` is the value of the variables the recursive visit shares; the lemmas
    are about states, and `Finder` updates those variables in place. */
module Components {
  import opened Orders
  import opened Reachability

  datatype State = State(
    index: nat,
    indices: map<string, nat>,
    lowlinks: map<string, nat>,
    stack: seq<string>,
    onStack: set<string>)
  {
    /** Nodes whose component has been taken off the stack. */
    function Popped(): set<string> {
      indices.Keys - onStack
    }
  }

  // ---- What every state of the search satisfies; `gray` holds the visits in progress ----

  ghost predicate Shape(s: State) {
    && s.onStack == Elements(s.stack)
    && s.onStack <= s.indices.Keys == s.lowlinks.Keys
    && (forall v :: v in s.indices ==> s.indices[v] < s.index)
    && (forall i, j :: 0 <= i < j < |s.stack| ==>
         s.stack[i] in s.indices && s.stack[j] in s.indices && s.indices[s.stack[i]] < s.indices[s.stack[j]])
  }

  ghost predicate EdgesExplored(g: Graph, s: State, gray: set<string>) {
    && s.indices.Keys <= Nodes(g)
    && gray <= s.onStack
    && (forall u :: u in s.indices && u !in gray ==> Targets(g, u) <= s.indices.Keys)
    && (forall u :: u in s.Popped() ==> Targets(g, u) <= s.Popped())
  }

  ghost predicate StackReachesUp(g: Graph, s: State) {
    forall i, j :: 0 <= i <= j < |s.stack| ==> Reach(g, s.stack[i], s.stack[j])
  }

  /** `w` is a visit in progress, no higher on the stack than `v`, that `v` can get back to. */
  ghost predicate Anchor(g: Graph, s: State, gray: set<string>, v: string, w: string) {
    w in gray && v in s.indices && w in s.indices && s.indices[w] <= s.indices[v] && Reach(g, v, w)
  }

  ghost predicate StackAnchored(g: Graph, s: State, gray: set<string>) {
    forall v :: v in s.onStack ==> exists w :: Anchor(g, s, gray, v, w)
  }

  ghost predicate Inv(g: Graph, s: State, gray: set<string>) {
    Shape(s) && EdgesExplored(g, s, gray) && StackReachesUp(g, s) && StackAnchored(g, s, gray)
  }

  // ---- What one visit and one pass of its loop achieve ----

  ghost predicate Grows(s0: State, s: State) {
    && s0.stack <= s.stack
    && s0.indices.Keys <= s.indices.Keys == s.lowlinks.Keys
    && s0.indices.Keys == s0.lowlinks.Keys
    && (forall v :: v in s0.indices ==> s.indices[v] == s0.indices[v] && s.lowlinks[v] == s0.lowlinks[v])
    && (forall i :: |s0.stack| <= i < |s.stack| ==> s.stack[i] !in s0.indices)
  }

  /** Edges from the stack at or above `from` down into `s0`'s stack reach no index below `low`. */
  ghost predicate EdgesBounded(g: Graph, s0: State, s: State, from: nat, low: nat) {
    forall i, w :: from <= i < |s.stack| && w in Targets(g, s.stack[i]) && w in s0.onStack && w in s.indices ==>
      low <= s.indices[w]
  }

  /** `low` is the index of a node on `s0`'s stack that `x` reaches. */
  ghost predicate LowWitness(g: Graph, s0: State, s: State, x: string, low: nat) {
    exists w :: w in s0.onStack && w in s.indices && s.indices[w] == low && Reach(g, x, w)
  }

  ghost predicate Visited(g: Graph, s0: State, s: State, x: string) {
    && Grows(s0, s)
    && x in s.indices && s.indices[x] == s0.index <= s.index
    && (if x in s.onStack
        then s.lowlinks[x] < s.indices[x] && LowWitness(g, s0, s, x, s.lowlinks[x])
        else s.lowlinks[x] == s.indices[x] && s.stack == s0.stack)
    && EdgesBounded(g, s0, s, |s0.stack|, s.lowlinks[x])
  }

  ghost predicate Exploring(g: Graph, s0: State, s: State, x: string, done: seq<string>) {
    && Grows(s0, s)
    && x in s.indices && s.indices[x] == s0.index < s.index
    && |s0.stack| < |s.stack| && s.stack[|s0.stack|] == x
    && s.lowlinks[x] <= s.indices[x]
    && (s.lowlinks[x] == s.indices[x] || LowWitness(g, s0, s, x, s.lowlinks[x]))
    && EdgesBounded(g, s0, s, |s0.stack| + 1, s.lowlinks[x])
    && (forall t :: t in done ==> t in s.indices && (t in s0.onStack ==> s.lowlinks[x] <= s.indices[t]))
  }

  // ---- The steps of a visit ----

  function Push(s: State, x: string): State {
    State(s.index + 1, s.indices[x := s.index], s.lowlinks[x := s.index], s.stack + [x], s.onStack + {x})
  }

  lemma StackElement(s: State, i: nat)
    requires Shape(s) && i < |s.stack|
    ensures s.stack[i] in s.onStack && s.stack[i] in s.indices
  {
  }

  lemma PushShape(s: State, x: string)
    requires Shape(s) && x !in s.indices
    ensures Shape(Push(s, x))
  {
  }

  lemma PushEdgesExplored(g: Graph, s: State, x: string, gray: set<string>)
    requires EdgesExplored(g, s, gray) && x in Nodes(g) && x !in s.indices
    ensures EdgesExplored(g, Push(s, x), gray + {x})
  {
  }

  lemma PushReachesUp(g: Graph, s: State, x: string, gray: set<string>)
    requires Shape(s) && StackReachesUp(g, s) && StackAnchored(g, s, gray) && x !in s.indices
    requires forall w :: w in gray ==> Reach(g, w, x)
    ensures StackReachesUp(g, Push(s, x))
  {
    var p := Push(s, x);
    forall i, j | 0 <= i <= j < |p.stack|
      ensures Reach(g, p.stack[i], p.stack[j])
    {
      if j < |s.stack| {
        assert Reach(g, s.stack[i], s.stack[j]);
      } else if i == j {
        ReachSelf(g, x);
      } else {
        StackElement(s, i);
        var w :| Anchor(g, s, gray, s.stack[i], w);
        ReachTrans(g, s.stack[i], w, x);
      }
    }
  }

  lemma PushAnchored(g: Graph, s: State, x: string, gray: set<string>)
    requires StackAnchored(g, s, gray) && x !in s.indices
    ensures StackAnchored(g, Push(s, x), gray + {x})
  {
    var p := Push(s, x);
    forall v | v in p.onStack
      ensures exists w :: Anchor(g, p, gray + {x}, v, w)
    {
      if v == x {
        ReachSelf(g, x);
        assert Anchor(g, p, gray + {x}, x, x);
      } else {
        var w :| Anchor(g, s, gray, v, w);
        assert Anchor(g, p, gray + {x}, v, w);
      }
    }
  }

  lemma PushStartsExploring(g: Graph, s: State, x: string)
    requires Shape(s) && x !in s.indices
    ensures Exploring(g, s, Push(s, x), x, [])
  {
  }

  lemma PushKeepsInv(g: Graph, s: State, x: string, gray: set<string>)
    requires Inv(g, s, gray) && x in Nodes(g) && x !in s.indices
    requires forall w :: w in gray ==> Reach(g, w, x)
    ensures Inv(g, Push(s, x), gray + {x}) && Exploring(g, s, Push(s, x), x, [])
  {
    PushShape(s, x);
    PushEdgesExplored(g, s, x, gray);
    PushReachesUp(g, s, x, gray);
    PushAnchored(g, s, x, gray);
    PushStartsExploring(g, s, x);
  }

  // ---- One target of the node being explored ----

  function Min(a: nat, b: nat): nat {
    if a <= b then a else b
  }

  function Lower(s: State, x: string, low: nat): State
    requires x in s.lowlinks
  {
    s.(lowlinks := s.lowlinks[x := Min(s.lowlinks[x], low)])
  }

  lemma LowerAnchored(g: Graph, s: State, x: string, low: nat, gray: set<string>)
    requires StackAnchored(g, s, gray) && x in s.lowlinks
    ensures StackAnchored(g, Lower(s, x, low), gray)
  {
    var l := Lower(s, x, low);
    forall v | v in l.onStack
      ensures exists w :: Anchor(g, l, gray, v, w)
    {
      var w :| Anchor(g, s, gray, v, w);
      assert Anchor(g, l, gray, v, w);
    }
  }

  lemma LowerShape(g: Graph, s: State, x: string, low: nat, gray: set<string>)
    requires Shape(s) && EdgesExplored(g, s, gray) && x in s.lowlinks
    ensures Shape(Lower(s, x, low)) && EdgesExplored(g, Lower(s, x, low), gray)
  {
  }

  lemma LowerReachesUp(g: Graph, s: State, x: string, low: nat)
    requires StackReachesUp(g, s) && x in s.lowlinks
    ensures StackReachesUp(g, Lower(s, x, low))
  {
  }

  lemma LowerKeepsInv(g: Graph, s: State, x: string, low: nat, gray: set<string>)
    requires Inv(g, s, gray) && x in s.lowlinks
    ensures Inv(g, Lower(s, x, low), gray)
  {
    hide Shape, EdgesExplored, StackReachesUp, StackAnchored, Lower;
    LowerShape(g, s, x, low, gray);
    LowerReachesUp(g, s, x, low);
    LowerAnchored(g, s, x, low, gray);
  }

  /** A stacked node with a smaller index than `x` was on the stack before `x`. */
  lemma BelowIsOld(s0: State, s: State, x: string, w: string)
    requires Shape(s0) && Shape(s) && Grows(s0, s)
    requires |s0.stack| < |s.stack| && s.stack[|s0.stack|] == x
    requires x in s.indices && w in s.onStack && s.indices[w] < s.indices[x]
    ensures w in s0.onStack
  {
  }

  lemma GrowsTrans(s0: State, s: State, s1: State, x: string)
    requires Shape(s0) && Shape(s) && Shape(s1) && Grows(s0, s) && Grows(s, s1)
    requires x in s1.lowlinks && x !in s0.indices
    ensures forall low :: Grows(s0, Lower(s1, x, low))
  {
  }

  lemma BoundsMerge(g: Graph, s0: State, s: State, s1: State, from: nat, low: nat, low1: nat)
    requires Shape(s0) && Grows(s0, s) && Grows(s, s1) && from <= |s.stack|
    requires s0.onStack <= s.onStack && s0.onStack <= s0.indices.Keys
    requires EdgesBounded(g, s0, s, from, low) && EdgesBounded(g, s, s1, |s.stack|, low1)
    ensures EdgesBounded(g, s0, s1, from, Min(low, low1))
  {
  }

  lemma OldStackStays(s0: State, s: State)
    requires Shape(s0) && Shape(s) && Grows(s0, s)
    ensures s0.onStack <= s.onStack
  {
  }

  /** The lowlink the explored node takes over from a target keeps its meaning. */
  lemma WitnessMoves(g: Graph, s0: State, s: State, s1: State, x: string, low: nat)
    requires Shape(s0) && Grows(s, s1) && s0.onStack <= s.indices.Keys
    requires LowWitness(g, s0, s, x, low)
    ensures LowWitness(g, s0, s1, x, low)
  {
  }

  lemma TargetVisited(g: Graph, s0: State, s: State, s1: State, x: string, t: string, done: seq<string>)
    requires Shape(s0) && Shape(s) && Shape(s1) && x !in s0.indices && t in Targets(g, x)
    requires Exploring(g, s0, s, x, done) && Visited(g, s, s1, t)
    ensures Exploring(g, s0, Lower(s1, x, s1.lowlinks[t]), x, done + [t])
  {
    var l := Lower(s1, x, s1.lowlinks[t]);
    GrowsTrans(s0, s, s1, x);
    OldStackStays(s0, s);
    assert s1.lowlinks[x] == s.lowlinks[x] && s1.indices[x] == s.indices[x];
    if s1.lowlinks[t] < s.lowlinks[x] {
      var w :| w in s.onStack && w in s1.indices && s1.indices[w] == s1.lowlinks[t] && Reach(g, t, w);
      BelowIsOld(s0, s, x, w);
      ReachEdge(g, x, t);
      ReachTrans(g, x, t, w);
      assert LowWitness(g, s0, l, x, l.lowlinks[x]);
    } else if s.lowlinks[x] < s.indices[x] {
      WitnessMoves(g, s0, s, s1, x, s.lowlinks[x]);
      assert LowWitness(g, s0, l, x, l.lowlinks[x]);
    }
    BoundsMerge(g, s0, s, s1, |s0.stack| + 1, s.lowlinks[x], s1.lowlinks[t]);
    assert EdgesBounded(g, s0, l, |s0.stack| + 1, l.lowlinks[x]);
    forall u | u in done + [t]
      ensures u in l.indices && (u in s0.onStack ==> l.lowlinks[x] <= l.indices[u])
    {
      if u !in done {
        assert u == t && t !in s.indices;
      }
    }
  }

  lemma TargetStacked(g: Graph, s0: State, s: State, x: string, t: string, done: seq<string>)
    requires Shape(s0) && Shape(s) && x !in s0.indices && t in Targets(g, x)
    requires Exploring(g, s0, s, x, done) && t in s.indices && t in s.onStack
    ensures Exploring(g, s0, Lower(s, x, s.indices[t]), x, done + [t])
  {
    var l := Lower(s, x, s.indices[t]);
    if s.indices[t] < s.lowlinks[x] {
      BelowIsOld(s0, s, x, t);
      ReachEdge(g, x, t);
      assert LowWitness(g, s0, l, x, l.lowlinks[x]);
    } else if s.lowlinks[x] < s.indices[x] {
      WitnessMoves(g, s0, s, s, x, s.lowlinks[x]);
      assert LowWitness(g, s0, l, x, l.lowlinks[x]);
    }
    assert EdgesBounded(g, s0, l, |s0.stack| + 1, l.lowlinks[x]);
  }

  lemma TargetPopped(g: Graph, s0: State, s: State, x: string, t: string, done: seq<string>)
    requires Shape(s0) && Shape(s) && Exploring(g, s0, s, x, done) && t in s.indices && t !in s.onStack
    ensures Exploring(g, s0, s, x, done + [t])
  {
  }

  // ---- The end of a visit ----

  /** `s` is the state after every target of `x` has been explored. */
  ghost predicate Explored(g: Graph, s0: State, s: State, x: string, done: seq<string>, gray: set<string>) {
    && Inv(g, s0, gray) && x !in s0.indices
    && Inv(g, s, gray + {x})
    && Exploring(g, s0, s, x, done) && Elements(done) == Targets(g, x)
  }

  lemma StayKeepsInv(g: Graph, s0: State, s: State, x: string, done: seq<string>, gray: set<string>)
    requires Explored(g, s0, s, x, done, gray) && s.lowlinks[x] < s.indices[x]
    ensures Inv(g, s, gray) && Visited(g, s0, s, x)
  {
    hide Shape, EdgesExplored, StackReachesUp, StackAnchored, LowWitness, EdgesBounded, Grows, Visited;
    StackElement(s, |s0.stack|);
    StayAnchored(g, s0, s, x, gray);
    StayExplored(g, s0, s, x, done, gray);
    StayVisited(g, s0, s, x, done);
  }

  lemma StayAnchored(g: Graph, s0: State, s: State, x: string, gray: set<string>)
    requires StackAnchored(g, s0, gray) && StackAnchored(g, s, gray + {x})
    requires Grows(s0, s) && x in s.indices
    requires s.lowlinks[x] < s.indices[x] && LowWitness(g, s0, s, x, s.lowlinks[x])
    ensures StackAnchored(g, s, gray)
  {
    var low :| low in s0.onStack && low in s.indices && s.indices[low] == s.lowlinks[x] && Reach(g, x, low);
    var base :| Anchor(g, s0, gray, low, base);
    ReachTrans(g, x, low, base);
    forall v | v in s.onStack
      ensures exists w :: Anchor(g, s, gray, v, w)
    {
      var w :| Anchor(g, s, gray + {x}, v, w);
      if w == x {
        ReachTrans(g, v, x, base);
        assert Anchor(g, s, gray, v, base);
      } else {
        assert Anchor(g, s, gray, v, w);
      }
    }
  }

  lemma StayExplored(g: Graph, s0: State, s: State, x: string, done: seq<string>, gray: set<string>)
    requires EdgesExplored(g, s, gray + {x}) && Exploring(g, s0, s, x, done) && Elements(done) == Targets(g, x)
    ensures EdgesExplored(g, s, gray)
  {
  }

  lemma StayVisited(g: Graph, s0: State, s: State, x: string, done: seq<string>)
    requires Shape(s0) && Shape(s) && Exploring(g, s0, s, x, done) && Elements(done) == Targets(g, x)
    requires s.lowlinks[x] < s.indices[x] && x in s.onStack
    ensures Visited(g, s0, s, x)
  {
  }

  lemma BoundAtNode(g: Graph, s0: State, s: State, x: string, done: seq<string>)
    requires Exploring(g, s0, s, x, done) && Elements(done) == Targets(g, x)
    ensures EdgesBounded(g, s0, s, |s0.stack|, s.lowlinks[x])
  {
  }

  function Segment(s0: State, s: State): set<string>
    requires |s0.stack| <= |s.stack|
  {
    Elements(s.stack[|s0.stack|..])
  }

  function Pop(s0: State, s: State): State {
    s.(stack := s0.stack, onStack := s0.onStack)
  }

  lemma SegmentSplits(s0: State, s: State)
    requires Shape(s0) && Shape(s) && Grows(s0, s)
    ensures s.onStack == s0.onStack + Segment(s0, s) && s0.onStack !! Segment(s0, s)
    ensures Pop(s0, s).Popped() == s.Popped() + Segment(s0, s)
  {
  }

  lemma SegmentElement(s0: State, s: State, u: string) returns (k: nat)
    requires Shape(s) && |s0.stack| <= |s.stack| && u in Segment(s0, s)
    ensures |s0.stack| <= k < |s.stack| && s.stack[k] == u && u in s.onStack && u in s.indices
  {
    assert u in s.stack[|s0.stack|..];
    var i :| 0 <= i < |s.stack[|s0.stack|..]| && s.stack[|s0.stack|..][i] == u;
    k := |s0.stack| + i;
    StackElement(s, k);
  }

  lemma OldBelow(s0: State, s: State, x: string, w: string)
    requires Shape(s0) && Grows(s0, s) && w in s0.onStack
    requires x in s.indices && s.indices[x] == s0.index
    ensures w in s.indices && s.indices[w] < s.indices[x]
  {
  }

  /** With no edge from the segment below it, the segment's edges stay among visited nodes above. */
  lemma SegmentEdge(g: Graph, s0: State, s: State, x: string, done: seq<string>, gray: set<string>, u: string, t: string)
    requires Explored(g, s0, s, x, done, gray) && s.lowlinks[x] == s.indices[x]
    requires u in Segment(s0, s) && t in Targets(g, u)
    ensures t in s.indices && t !in s0.onStack
  {
    hide StackReachesUp, StackAnchored, LowWitness;
    var k := SegmentElement(s0, s, u);
    assert u !in gray by {
      assert u !in s0.indices;
    }
    StayExplored(g, s0, s, x, done, gray);
    BoundAtNode(g, s0, s, x, done);
    if t in s0.onStack {
      OldBelow(s0, s, x, t);
    }
  }

  /** So the segment together with the popped nodes is closed under edges. */
  lemma SegmentClosed(g: Graph, s0: State, s: State, x: string, done: seq<string>, gray: set<string>)
    requires Explored(g, s0, s, x, done, gray) && s.lowlinks[x] == s.indices[x]
    ensures forall u :: u in Pop(s0, s).Popped() ==> Targets(g, u) <= Pop(s0, s).Popped()
  {
    hide StackReachesUp, StackAnchored, LowWitness, EdgesBounded, Shape;
    SegmentSplits(s0, s);
    forall u, t | u in Segment(s0, s) && t in Targets(g, u)
      ensures t in Pop(s0, s).Popped()
    {
      SegmentEdge(g, s0, s, x, done, gray, u, t);
    }
  }

  lemma SegmentMutual(g: Graph, s0: State, s: State, x: string, done: seq<string>, gray: set<string>, v: string)
    requires Explored(g, s0, s, x, done, gray) && v in Segment(s0, s)
    ensures Reach(g, x, v) && Reach(g, v, x)
  {
    hide EdgesExplored, EdgesBounded, LowWitness, Shape, Reach;
    assert s.stack[|s0.stack|] == x;
    var k := SegmentElement(s0, s, v);
    var w :| Anchor(g, s, gray + {x}, v, w);
    if w != x {
      AnchorReachesUp(g, s0, s, x, gray, w);
      ReachTrans(g, v, w, x);
    }
  }

  lemma AnchorReachesUp(g: Graph, s0: State, s: State, x: string, gray: set<string>, w: string)
    requires Shape(s0) && EdgesExplored(g, s0, gray) && StackReachesUp(g, s) && Grows(s0, s)
    requires |s0.stack| < |s.stack| && s.stack[|s0.stack|] == x && w in gray
    ensures Reach(g, w, x)
  {
  }

  lemma SegmentIsScc(g: Graph, s0: State, s: State, x: string, done: seq<string>, gray: set<string>)
    requires Explored(g, s0, s, x, done, gray) && s.lowlinks[x] == s.indices[x]
    ensures IsScc(g, Segment(s0, s)) && x in Segment(s0, s)
  {
    hide Shape, StackReachesUp, StackAnchored, LowWitness, EdgesBounded, Grows, Reach;
    var c := Segment(s0, s);
    SegmentSplits(s0, s);
    SegmentClosed(g, s0, s, x, done, gray);
    forall v | v in c
      ensures Reach(g, x, v) && Reach(g, v, x) && v in s.onStack
    {
      SegmentMutual(g, s0, s, x, done, gray, v);
    }
    assert s.stack[|s0.stack|..][0] == x;
    forall a, b | a in c && b in c
      ensures Reach(g, a, b)
    {
      ReachTrans(g, a, x, b);
    }
    forall a, b | a in c && Reach(g, a, b) && Reach(g, b, a)
      ensures b in c
    {
      ClosedReach(g, Pop(s0, s).Popped(), a, b);
      if b in s.Popped() {
        ClosedReach(g, s.Popped(), b, a);
        assert false;
      }
    }
  }

  lemma PopKeepsInv(g: Graph, s0: State, s: State, x: string, done: seq<string>, gray: set<string>)
    requires Explored(g, s0, s, x, done, gray) && s.lowlinks[x] == s.indices[x]
    ensures Inv(g, Pop(s0, s), gray) && Visited(g, s0, Pop(s0, s), x)
  {
    PopExplored(g, s0, s, x, done, gray);
    hide Shape, EdgesExplored, StackReachesUp, StackAnchored, LowWitness, EdgesBounded, Grows, Visited, Pop;
    PopReachesUp(g, s0, s);
    PopAnchored(g, s0, s, x, gray);
    PopShape(s0, s);
    PopVisited(g, s0, s, x, done);
  }

  lemma PopExplored(g: Graph, s0: State, s: State, x: string, done: seq<string>, gray: set<string>)
    requires Explored(g, s0, s, x, done, gray) && s.lowlinks[x] == s.indices[x]
    ensures EdgesExplored(g, Pop(s0, s), gray)
  {
    hide Shape, StackReachesUp, StackAnchored, LowWitness, EdgesBounded;
    SegmentClosed(g, s0, s, x, done, gray);
    StayExplored(g, s0, s, x, done, gray);
  }

  lemma PopReachesUp(g: Graph, s0: State, s: State)
    requires StackReachesUp(g, s0)
    ensures StackReachesUp(g, Pop(s0, s))
  {
  }

  lemma PopShape(s0: State, s: State)
    requires Shape(s0) && Shape(s) && Grows(s0, s)
    ensures Shape(Pop(s0, s))
  {
  }

  lemma PopVisited(g: Graph, s0: State, s: State, x: string, done: seq<string>)
    requires Shape(s0) && Exploring(g, s0, s, x, done) && x !in s0.indices
    requires s.lowlinks[x] == s.indices[x]
    ensures Visited(g, s0, Pop(s0, s), x)
  {
  }

  lemma PopAnchored(g: Graph, s0: State, s: State, x: string, gray: set<string>)
    requires Shape(s0) && StackAnchored(g, s0, gray) && Grows(s0, s)
    ensures StackAnchored(g, Pop(s0, s), gray)
  {
    forall v | v in s0.onStack
      ensures exists w :: Anchor(g, Pop(s0, s), gray, v, w)
    {
      var w :| Anchor(g, s0, gray, v, w);
      assert Anchor(g, Pop(s0, s), gray, v, w);
    }
  }

  // ---- The reported components ----

  /** What the guard reports: a cycle of several nodes, or one node that depends on itself. */
  predicate Reportable(g: Graph, c: set<string>) {
    |c| > 1 || exists n :: n in c && n in Targets(g, n)
  }

  function Listed(comps: seq<seq<string>>): set<set<string>> {
    set c | c in comps :: Elements(c)
  }

  ghost predicate ListsDistinct(comps: seq<seq<string>>) {
    && (forall i :: 0 <= i < |comps| ==> Sorted(StringLess, comps[i]))
    && (forall i, j :: 0 <= i < j < |comps| ==> comps[i] != comps[j])
  }

  /** `comps` lists exactly the reportable components among `popped`, each once and in order. */
  ghost predicate Reports(g: Graph, popped: set<string>, comps: seq<seq<string>>) {
    && ListsDistinct(comps)
    && (forall c :: c in Listed(comps) <==> IsScc(g, c) && Reportable(g, c) && c <= popped)
  }

  lemma ListedAppend(comps: seq<seq<string>>, c: seq<string>)
    ensures Listed(comps + [c]) == Listed(comps) + {Elements(c)}
  {
  }

  /** Taking one component off the stack adds exactly that component to what is reported. */
  lemma SccsAfterPop(g: Graph, popped: set<string>, c: set<string>, d: set<string>)
    requires IsScc(g, c) && IsScc(g, d)
    ensures d <= popped + c <==> d <= popped || d == c
  {
  }

  lemma ListedAfterPop(g: Graph, popped: set<string>, all: set<set<string>>, c: set<string>, d: set<string>)
    requires forall e :: e in all <==> IsScc(g, e) && Reportable(g, e) && e <= popped
    requires IsScc(g, c)
    ensures d in (if Reportable(g, c) then all + {c} else all) <==> IsScc(g, d) && Reportable(g, d) && d <= popped + c
  {
    hide IsScc, Reportable;
    if IsScc(g, d) {
      SccsAfterPop(g, popped, c, d);
    }
  }

  lemma DistinctAppend(comps: seq<seq<string>>, listed: seq<string>)
    requires ListsDistinct(comps) && Sorted(StringLess, listed) && listed !in comps
    ensures ListsDistinct(comps + [listed])
  {
  }

  function Report(g: Graph, comps: seq<seq<string>>, c: set<string>, listed: seq<string>): seq<seq<string>> {
    if Reportable(g, c) then comps + [listed] else comps
  }

  lemma ReportsAfterPop(g: Graph, popped: set<string>, comps: seq<seq<string>>, c: set<string>, listed: seq<string>)
    requires Reports(g, popped, comps) && IsScc(g, c) && c !! popped
    requires Sorted(StringLess, listed) && Elements(listed) == c
    ensures Reports(g, popped + c, Report(g, comps, c, listed))
  {
    assert c != {};
    hide IsScc, Reportable, ListsDistinct, Sorted, Elements;
    ListedAppend(comps, listed);
    assert listed !in comps by {
      if listed in comps {
        ListedMember(comps, listed);
      }
    }
    DistinctAppend(comps, listed);
    forall d
      ensures d in Listed(Report(g, comps, c, listed)) <==> IsScc(g, d) && Reportable(g, d) && d <= popped + c
    {
      ListedAfterPop(g, popped, Listed(comps), c, d);
    }
  }

  lemma ListedMember(comps: seq<seq<string>>, c: seq<string>)
    requires c in comps
    ensures Elements(c) in Listed(comps)
  {
  }

  // ---- The search itself ----

  class Finder {
    var index: nat
    var indices: map<string, nat>
    var lowlinks: map<string, nat>
    var stack: seq<string>
    var onStack: set<string>
    var components: seq<seq<string>>

    constructor ()
      ensures Abs() == State(0, map[], map[], [], {}) && components == []
    {
      index, indices, lowlinks, stack, onStack, components := 0, map[], map[], [], {}, [];
    }

    ghost function Abs(): State
      reads this
    {
      State(index, indices, lowlinks, stack, onStack)
    }

    method Visit(g: Graph, node: string, ghost gray: set<string>)
      requires Inv(g, Abs(), gray) && node in Nodes(g) && node !in indices
      requires forall w :: w in gray ==> Reach(g, w, node)
      requires Reports(g, Abs().Popped(), components)
      modifies this
      ensures Inv(g, Abs(), gray) && Visited(g, old(Abs()), Abs(), node)
      ensures Reports(g, Abs().Popped(), components)
      decreases Nodes(g) - indices.Keys, 0
    {
      hide Inv, Shape, LowWitness, EdgesBounded, Grows, Reports, Reach, Nodes, StrictTotal, Visited;
      ghost var s0 := Abs();
      PushKeepsInv(g, s0, node, gray);
      indices := indices[node := index];
      lowlinks := lowlinks[node := index];
      index := index + 1;
      stack := stack + [node];
      onStack := onStack + {node};
      assert Abs() == Push(s0, node);
      assert Abs().Popped() == s0.Popped();
      ghost var done := Explore(g, node, gray, s0);
      assert node in indices && node in lowlinks by { ExploredNode(g, s0, Abs(), node, done, gray); }
      if lowlinks[node] == indices[node] {
        PopComponent(g, node, gray, s0, done);
      } else {
        StayKeepsInv(g, s0, Abs(), node, done, gray);
      }
    }

    method Explore(g: Graph, node: string, ghost gray: set<string>, ghost s0: State) returns (ghost done: seq<string>)
      requires Inv(g, s0, gray) && node !in s0.indices
      requires forall w :: w in gray ==> Reach(g, w, node)
      requires Inv(g, Abs(), gray + {node}) && Exploring(g, s0, Abs(), node, [])
      requires Reports(g, Abs().Popped(), components)
      modifies this
      ensures Explored(g, s0, Abs(), node, done, gray)
      ensures Reports(g, Abs().Popped(), components)
      decreases Nodes(g) - indices.Keys, 2
    {
      hide Inv, Shape, LowWitness, EdgesBounded, Reports, Reach, Nodes, StrictTotal, Sorted, Exploring, StringLess;
      var targets := SortStrings(Targets(g, node));
      assert Elements(targets) == Targets(g, node);
      ghost var before := indices.Keys;
      var i := 0;
      while i < |targets|
        invariant 0 <= i <= |targets|
        invariant before <= indices.Keys
        invariant Inv(g, Abs(), gray + {node}) && Exploring(g, s0, Abs(), node, targets[..i])
        invariant Reports(g, Abs().Popped(), components)
      {
        assert targets[i] in Elements(targets);
        Look(g, node, targets[i], gray, s0, targets[..i]);
        assert targets[..i] + [targets[i]] == targets[..i + 1];
        i := i + 1;
      }
      assert targets[..i] == targets;
      done := targets;
    }

    method Look(g: Graph, node: string, target: string, ghost gray: set<string>, ghost s0: State, ghost seen: seq<string>)
      requires Inv(g, s0, gray) && node !in s0.indices && target in Targets(g, node)
      requires forall w :: w in gray ==> Reach(g, w, node)
      requires Inv(g, Abs(), gray + {node}) && Exploring(g, s0, Abs(), node, seen)
      requires Reports(g, Abs().Popped(), components)
      modifies this
      ensures Inv(g, Abs(), gray + {node}) && Exploring(g, s0, Abs(), node, seen + [target])
      ensures Reports(g, Abs().Popped(), components)
      ensures old(indices.Keys) <= indices.Keys
      decreases Nodes(g) - indices.Keys, 1
    {
      hide Inv, Shape, LowWitness, EdgesBounded, Reports, Reach, Nodes, StrictTotal, Visited, Exploring, StringLess;
      ghost var s := Abs();
      ExploreFacts(g, s0, s, node, target, seen, gray);
      if target !in indices {
        Visit(g, target, gray + {node});
        VisitFacts(g, s0, s, Abs(), node, target, seen, gray);
        LowerKeepsInv(g, Abs(), node, lowlinks[target], gray + {node});
        lowlinks := lowlinks[node := Min(lowlinks[node], lowlinks[target])];
      } else if target in onStack {
        TargetStacked(g, s0, s, node, target, seen);
        LowerKeepsInv(g, s, node, indices[target], gray + {node});
        lowlinks := lowlinks[node := Min(lowlinks[node], indices[target])];
      } else {
        TargetPopped(g, s0, s, node, target, seen);
      }
    }

    method VisitIfNew(g: Graph, node: string)
      requires Inv(g, Abs(), {}) && Reports(g, Abs().Popped(), components) && node in Nodes(g)
      modifies this
      ensures Inv(g, Abs(), {}) && Reports(g, Abs().Popped(), components)
      ensures old(Abs().indices.Keys) + {node} <= Abs().indices.Keys
    {
      hide Inv, Shape, Reports, Reach, Nodes, StrictTotal, Visited, StringLess;
      if node !in indices {
        ghost var before := Abs();
        Visit(g, node, {});
        VisitedGrows(g, before, Abs(), node);
      }
    }

    /** The pop loop: everything above and including `node` is one component. */
    method PopComponent(g: Graph, node: string, ghost gray: set<string>, ghost s0: State, ghost done: seq<string>)
      requires Explored(g, s0, Abs(), node, done, gray)
      requires node in lowlinks && node in indices && lowlinks[node] == indices[node]
      requires Reports(g, Abs().Popped(), components)
      modifies this
      ensures Inv(g, Abs(), gray) && Visited(g, s0, Abs(), node)
      ensures Reports(g, Abs().Popped(), components)
    {
      hide Inv, Shape, EdgesBounded, Reports, Reach, StrictTotal, Exploring, Visited, StringLess, IsScc, Segment, Explored;
      ghost var s := Abs();
      PopFacts(g, s0, s, node, done, gray);
      var component := TakeSegment(node, s0);
      SegmentSplits(s0, s);
      SegmentIsScc(g, s0, s, node, done, gray);
      PopKeepsInv(g, s0, s, node, done, gray);
      ReportableAsChecked(g, component, node);
      var listed := SortStrings(Elements(component));
      ReportsAfterPop(g, s.Popped(), components, Elements(component), listed);
      if |component| > 1 || node in Targets(g, node) {
        components := components + [listed];
      }
    }

    method TakeSegment(node: string, ghost s0: State) returns (component: seq<string>)
      requires Shape(s0) && Shape(Abs()) && Grows(s0, Abs())
      requires |s0.stack| < |stack| && stack[|s0.stack|] == node
      modifies this`stack, this`onStack
      ensures Abs() == Pop(s0, old(Abs()))
      ensures Elements(component) == Segment(s0, old(Abs())) && |component| == |Elements(component)|
    {
      hide Shape, Grows, Elements, Distinct;
      ghost var whole, base := stack, |s0.stack|;
      ghost var n := |whole|;
      StackFacts(s0, Abs());
      assert whole[..n] == whole;
      component := [];
      EmptyElements(component);
      while |stack| > 0
        invariant base < n <= |whole| && stack == whole[..n]
        invariant onStack == Elements(whole[..n])
        invariant Elements(component) == Elements(whole[n..]) && |component| == |whole| - n
        decreases n
      {
        var target := stack[|stack| - 1];
        TopOff(whole, n);
        AddElement(component, target);
        n := n - 1;
        stack := stack[..|stack| - 1];
        onStack := onStack - {target};
        component := component + [target];
        if target == node {
          break;
        }
      }
      assert n == base && whole[..base] == s0.stack;
      DistinctTail(whole, base);
    }
  }

  ghost predicate Distinct(s: seq<string>) {
    forall i, j :: 0 <= i < j < |s| ==> s[i] != s[j]
  }

  lemma StackFacts(s0: State, s: State)
    requires Shape(s0) && Shape(s) && Grows(s0, s)
    ensures s.onStack == Elements(s.stack) && s0.onStack == Elements(s0.stack) && Distinct(s.stack)
    ensures |s0.stack| <= |s.stack| && s.stack[..|s0.stack|] == s0.stack
    ensures Elements(s.stack[|s.stack|..]) == {}
  {
  }

  lemma AddElement(s: seq<string>, x: string)
    ensures Elements(s + [x]) == Elements(s) + {x}
  {
  }

  lemma DistinctTail(s: seq<string>, n: nat)
    requires Distinct(s) && n <= |s|
    ensures |Elements(s[n..])| == |s| - n
  {
    DistinctElements(s[n..]);
  }

  lemma TopOff(whole: seq<string>, n: nat)
    requires Distinct(whole) && 0 < n <= |whole|
    ensures Elements(whole[..n]) - {whole[n - 1]} == Elements(whole[..n - 1])
    ensures Elements(whole[n..]) + {whole[n - 1]} == Elements(whole[n - 1..])
  {
  }

  lemma {:induction false} DistinctElements(s: seq<string>)
    requires Distinct(s)
    ensures |Elements(s)| == |s|
    decreases |s|
  {
    if s != [] {
      DistinctElements(s[1..]);
      assert s == [s[0]] + s[1..];
      assert Elements(s) == {s[0]} + Elements(s[1..]);
    }
  }

  /** What the pop loop needs to know about the visit that ends. */
  lemma PopFacts(g: Graph, s0: State, s: State, x: string, done: seq<string>, gray: set<string>)
    requires Explored(g, s0, s, x, done, gray)
    ensures Shape(s0) && Shape(s) && Grows(s0, s) && |s0.stack| < |s.stack| && s.stack[|s0.stack|] == x
    ensures Segment(s0, s) !! s.Popped()
  {
    hide EdgesExplored, StackReachesUp, StackAnchored, LowWitness, EdgesBounded, Reach;
    SegmentSplits(s0, s);
  }

  lemma ReportableAsChecked(g: Graph, component: seq<string>, node: string)
    requires node in component && |component| == |Elements(component)|
    ensures Reportable(g, Elements(component)) <==> |component| > 1 || node in Targets(g, node)
  {
  }

  lemma ExploredNode(g: Graph, s0: State, s: State, x: string, done: seq<string>, gray: set<string>)
    requires Explored(g, s0, s, x, done, gray)
    ensures x in s.indices && x in s.lowlinks && s.lowlinks[x] <= s.indices[x]
  {
  }

  /** What the loop needs to know before it looks at its next target. */
  lemma ExploreFacts(g: Graph, s0: State, s: State, x: string, t: string, seen: seq<string>, gray: set<string>)
    requires Inv(g, s0, gray) && x !in s0.indices && Inv(g, s, gray + {x}) && Exploring(g, s0, s, x, seen)
    requires forall w :: w in gray ==> Reach(g, w, x)
    requires t in Targets(g, x)
    ensures Shape(s0) && Shape(s) && x in s.lowlinks && x in s.indices && t in Nodes(g)
    ensures forall w :: w in gray + {x} ==> Reach(g, w, t)
  {
    hide EdgesExplored, StackReachesUp, StackAnchored, LowWitness, EdgesBounded, Reach;
    ReachEdge(g, x, t);
    ReachSelf(g, x);
    forall w | w in gray + {x}
      ensures Reach(g, w, t)
    {
      ReachTrans(g, w, x, t);
    }
  }

  lemma VisitFacts(g: Graph, s0: State, s: State, s1: State, x: string, t: string, seen: seq<string>, gray: set<string>)
    requires Shape(s0) && Shape(s) && x !in s0.indices && t in Targets(g, x)
    requires Exploring(g, s0, s, x, seen) && Inv(g, s1, gray + {x}) && Visited(g, s, s1, t)
    ensures x in s1.lowlinks && t in s1.lowlinks && s.indices.Keys <= s1.indices.Keys
    ensures Exploring(g, s0, Lower(s1, x, s1.lowlinks[t]), x, seen + [t])
  {
    TargetVisited(g, s0, s, s1, x, t, seen);
  }

  // ---- The function the guard calls ----

  lemma StartInv(g: Graph)
    ensures Inv(g, State(0, map[], map[], [], {}), {})
    ensures Reports(g, State(0, map[], map[], [], {}).Popped(), [])
  {
  }

  /** With no visit in progress, every node that was seen has been popped. */
  lemma IdleStackEmpty(g: Graph, s: State)
    requires Inv(g, s, {})
    ensures s.onStack == {} && s.Popped() == s.indices.Keys
  {
  }

  lemma AllPopped(g: Graph, popped: set<string>, comps: seq<seq<string>>)
    requires Reports(g, popped, comps) && Nodes(g) <= popped
    ensures forall c :: c in Listed(comps) <==> IsScc(g, c) && Reportable(g, c)
  {
  }

  lemma ListedOfSorted(comps: seq<seq<string>>, r: seq<seq<string>>)
    requires Elements(r) == Elements(comps)
    ensures Listed(r) == Listed(comps)
  {
    assert forall c :: c in r <==> c in Elements(r);
    assert forall c :: c in comps <==> c in Elements(comps);
  }

  /** The report lists, sorted, the strongly connected components of more nodes than one, and the
      single nodes with an edge to themselves. */
  method StronglyConnectedComponents(g: Graph) returns (r: seq<seq<string>>)
    ensures forall c :: c in Listed(r) <==> IsScc(g, c) && Reportable(g, c)
    ensures forall c :: c in Listed(r) <==> IsScc(g, c) && (|c| > 1 || exists v :: c == {v} && v in Targets(g, v))
    ensures forall i :: 0 <= i < |r| ==> Sorted(StringLess, r[i])
    ensures Sorted(ListLess, r)
  {
    hide Reports, IsScc, Reportable, StrictTotal, Sorted, StringLess, ListLess, Reach, Listed, Nodes;
    StringsTotal();
    ListsTotal();
    var finder := SearchAll(g);
    AllPopped(g, finder.Abs().Popped(), finder.components);
    ReportableMeans(g);
    r := SortSet(ListLess, Elements(finder.components));
    ListedOfSorted(finder.components, r);
    SortedMembers(g, finder.Abs().Popped(), finder.components, r);
  }

  lemma ReportableMeans(g: Graph)
    ensures forall c :: IsScc(g, c) ==> (Reportable(g, c) <==> |c| > 1 || exists v :: c == {v} && v in Targets(g, v))
  {
    forall c | IsScc(g, c)
      ensures Reportable(g, c) <==> |c| > 1 || exists v :: c == {v} && v in Targets(g, v)
    {
      if |c| == 1 {
        var v :| v in c;
        assert |c - {v}| == 0;
        assert c == c - {v} + {v};
      }
    }
  }

  method SearchAll(g: Graph) returns (finder: Finder)
    ensures Reports(g, finder.Abs().Popped(), finder.components) && Nodes(g) <= finder.Abs().Popped()
  {
    hide *;
    StartInv(g);
    finder := new Finder();
    var nodes := SortedNodes(g);
    var i := 0;
    while i < |nodes|
      invariant 0 <= i <= |nodes|
      invariant Inv(g, finder.Abs(), {})
      invariant Reports(g, finder.Abs().Popped(), finder.components)
      invariant forall k :: 0 <= k < i ==> nodes[k] in finder.Abs().indices
    {
      finder.VisitIfNew(g, nodes[i]);
      i := i + 1;
    }
    IdleStackEmpty(g, finder.Abs());
  }

  method SortedNodes(g: Graph) returns (nodes: seq<string>)
    ensures nodes == Alphabetical(Nodes(g))
    ensures forall v :: v in Nodes(g) <==> v in nodes
  {
    hide StrictTotal, Sorted, StringLess, Nodes;
    nodes := SortStrings(Nodes(g));
    assert forall v :: v in nodes <==> v in Elements(nodes);
  }

  lemma VisitedGrows(g: Graph, s0: State, s: State, x: string)
    requires Visited(g, s0, s, x)
    ensures s0.indices.Keys + {x} <= s.indices.Keys
  {
  }

  lemma SortedMembers(g: Graph, popped: set<string>, comps: seq<seq<string>>, r: seq<seq<string>>)
    requires Reports(g, popped, comps) && Elements(r) == Elements(comps)
    ensures forall i :: 0 <= i < |r| ==> Sorted(StringLess, r[i])
  {
    hide IsScc, Reportable, Reach, Sorted, Listed;
    forall i | 0 <= i < |r|
      ensures Sorted(StringLess, r[i])
    {
      assert r[i] in Elements(r);
      assert r[i] in Elements(comps);
      assert r[i] in comps;
    }
  }

  /** The three postconditions leave one possible result: the report is deterministic. */
  lemma ReportUnique(g: Graph, r: seq<seq<string>>, q: seq<seq<string>>)
    requires forall c :: c in Listed(r) <==> IsScc(g, c) && Reportable(g, c)
    requires forall c :: c in Listed(q) <==> IsScc(g, c) && Reportable(g, c)
    requires forall i :: 0 <= i < |r| ==> Sorted(StringLess, r[i])
    requires forall i :: 0 <= i < |q| ==> Sorted(StringLess, q[i])
    requires Sorted(ListLess, r) && Sorted(ListLess, q)
    ensures r == q
  {
    hide IsScc, Reportable, StrictTotal, Sorted, StringLess, ListLess, Reach;
    StringsTotal();
    ListsTotal();
    assert Listed(r) == Listed(q);
    ElementsIncluded(r, q);
    ElementsIncluded(q, r);
    SortedUnique(ListLess, r, q);
  }

  lemma ElementsIncluded(r: seq<seq<string>>, q: seq<seq<string>>)
    requires Listed(r) <= Listed(q)
    requires forall i :: 0 <= i < |r| ==> Sorted(StringLess, r[i])
    requires forall i :: 0 <= i < |q| ==> Sorted(StringLess, q[i])
    ensures Elements(r) <= Elements(q)
  {
    hide StrictTotal, Sorted, StringLess;
    StringsTotal();
    forall c | c in r
      ensures c in q
    {
      assert Elements(c) in Listed(r);
      var d :| d in q && Elements(d) == Elements(c);
      SortedUnique(StringLess, c, d);
    }
  }

  /** No node is reported in two components, and none is repeated inside one. */
  lemma ReportDisjoint(g: Graph, r: seq<seq<string>>, i: nat, j: nat)
    requires forall c :: c in Listed(r) <==> IsScc(g, c) && Reportable(g, c)
    requires forall k :: 0 <= k < |r| ==> Sorted(StringLess, r[k])
    requires Sorted(ListLess, r) && i < j < |r|
    ensures Elements(r[i]) !! Elements(r[j]) && |Elements(r[i])| == |r[i]|
  {
    hide IsScc, Reportable, StrictTotal, StringLess, ListLess, Reach;
    StringsTotal();
    ListsTotal();
    SortedNoDuplicates(StringLess, r[i]);
    assert Elements(r[i]) in Listed(r) && Elements(r[j]) in Listed(r);
    if x :| x in Elements(r[i]) && x in Elements(r[j]) {
      SccsMeetingAreEqual(g, Elements(r[i]), Elements(r[j]), x);
      SortedUnique(StringLess, r[i], r[j]);
      assert ListLess(r[i], r[j]);
      NotBelowItself(r[i]);
      assert false;
    }
  }

  lemma NotBelowItself(c: seq<string>)
    ensures !ListLess(c, c)
  {
    StringsTotal();
    LexTotal(StringLess, c, c);
  }
}
