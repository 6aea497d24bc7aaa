/** Configuration overlays: JSON Merge Patch as section 2 of RFC 7396 defines it, and the
    JavaScript that computes it. */
module MergePatch {
  import opened Options

  /** A JSON value; a scalar is known by its text. */
  datatype Json = Null | Scalar(text: string) | Arr(items: seq<Json>) | Obj(fields: map<string, Json>)

  function FieldsOf(j: Json): map<string, Json> {
    if j.Obj? then j.fields else map[]
  }

  /** A member, with null for one that is not there: as a merge target both count as no object. */
  function Member(fields: map<string, Json>, key: string): Json {
    if key in fields then fields[key] else Null
  }

  // ---- Section 2 of RFC 7396 ----

  predicate Removes(patch: map<string, Json>, key: string) {
    key in patch && patch[key].Null?
  }

  function Merged(target: Json, patch: Json): Json
    decreases patch
  {
    if !patch.Obj? then patch else
      var base := FieldsOf(target);
      Obj(map k | k in base.Keys + patch.fields.Keys && !Removes(patch.fields, k) ::
        if k in patch.fields then Merged(Member(base, k), patch.fields[k]) else base[k])
  }

  /** Applying an overlay twice equals applying it once. */
  lemma {:induction false} Idempotent(target: Json, patch: Json)
    ensures Merged(Merged(target, patch), patch) == Merged(target, patch)
    decreases patch
  {
    if patch.Obj? {
      var once := Merged(target, patch);
      forall k | k in once.fields
        ensures k in Merged(once, patch).fields && Merged(once, patch).fields[k] == once.fields[k]
      {
        if k in patch.fields {
          Idempotent(Member(FieldsOf(target), k), patch.fields[k]);
        }
      }
      assert Merged(once, patch).fields.Keys == once.fields.Keys;
      assert Merged(once, patch).fields == once.fields;
    }
  }

  // ---- Paths ----

  function Get(j: Json, path: seq<string>): Option<Json> {
    if path == [] then Some(j)
    else if path[0] in FieldsOf(j) then Get(FieldsOf(j)[path[0]], path[1..]) else None
  }

  /** The overlay does not mention a path: somewhere along it, it has no such member. */
  predicate Untouched(patch: Json, path: seq<string>) {
    patch.Obj? && path != [] && (path[0] in patch.fields ==> Untouched(patch.fields[path[0]], path[1..]))
  }

  /** The overlay has a value at a path that is neither an object nor null. */
  predicate SetsLeaf(patch: Json, path: seq<string>, leaf: Json) {
    Get(patch, path) == Some(leaf) && !leaf.Obj? && !leaf.Null?
  }

  lemma {:induction false} KeepsUntouched(target: Json, patch: Json, path: seq<string>)
    requires Untouched(patch, path)
    ensures Get(Merged(target, patch), path) == Get(target, path)
    decreases path
  {
    var key, base := path[0], FieldsOf(target);
    if key in patch.fields {
      KeepsUntouched(Member(base, key), patch.fields[key], path[1..]);
      assert Merged(target, patch).fields[key] == Merged(Member(base, key), patch.fields[key]);
    }
  }

  lemma {:induction false} SetsItsLeaves(target: Json, patch: Json, path: seq<string>, leaf: Json)
    requires SetsLeaf(patch, path, leaf)
    ensures Get(Merged(target, patch), path) == Some(leaf)
    decreases path
  {
    if path != [] {
      var key, base := path[0], FieldsOf(target);
      SetsItsLeaves(Member(base, key), patch.fields[key], path[1..], leaf);
      assert Merged(target, patch).fields[key] == Merged(Member(base, key), patch.fields[key]);
    }
  }

  lemma {:induction false} RemovesItsNulls(target: Json, patch: Json, path: seq<string>)
    requires path != [] && Get(patch, path) == Some(Null)
    ensures Get(Merged(target, patch), path) == None
    decreases path
  {
    var key, base := path[0], FieldsOf(target);
    if |path| > 1 {
      RemovesItsNulls(Member(base, key), patch.fields[key], path[1..]);
    }
  }

  /** Where the overlay has an object there is one, whatever was there before. */
  lemma {:induction false} MakesObjects(target: Json, patch: Json, path: seq<string>)
    requires Get(patch, path).Some? && Get(patch, path).value.Obj?
    ensures Get(Merged(target, patch), path).Some? && Get(Merged(target, patch), path).value.Obj?
    decreases path
  {
    if path != [] {
      MakesObjects(Member(FieldsOf(target), path[0]), patch.fields[path[0]], path[1..]);
    }
  }

  /** Where the overlay ends in a leaf or a null on the way there is nothing. */
  lemma {:induction false} NothingBelow(target: Json, patch: Json, path: seq<string>)
    requires Get(patch, path).None? && !Untouched(patch, path)
    ensures Get(Merged(target, patch), path).None?
    decreases path
  {
    if patch.Obj? && path[0] in patch.fields {
      NothingBelow(Member(FieldsOf(target), path[0]), patch.fields[path[0]], path[1..]);
    }
  }

  // ---- The overlay fold ----

  /** The base configuration and its overlays, merged in turn into the empty object. */
  function Composed(configs: seq<Json>): Json {
    if configs == [] then Obj(map[])
    else Merged(Composed(configs[..|configs| - 1]), configs[|configs| - 1])
  }

  /** The last overlay that sets a leaf decides it. */
  lemma {:induction false} LastDecides(configs: seq<Json>, i: nat, path: seq<string>, leaf: Json)
    requires i < |configs| && SetsLeaf(configs[i], path, leaf)
    requires forall j :: i < j < |configs| ==> Untouched(configs[j], path)
    ensures Get(Composed(configs), path) == Some(leaf)
    decreases |configs|
  {
    var n := |configs| - 1;
    if i == n {
      SetsItsLeaves(Composed(configs[..n]), configs[n], path, leaf);
    } else {
      LastDecides(configs[..n], i, path, leaf);
      KeepsUntouched(Composed(configs[..n]), configs[n], path);
    }
  }

  /** And if the last one that mentions it removes it, it is gone. */
  lemma {:induction false} LastRemoves(configs: seq<Json>, i: nat, path: seq<string>)
    requires i < |configs| && path != [] && Get(configs[i], path) == Some(Null)
    requires forall j :: i < j < |configs| ==> Untouched(configs[j], path)
    ensures Get(Composed(configs), path) == None
    decreases |configs|
  {
    var n := |configs| - 1;
    if i == n {
      RemovesItsNulls(Composed(configs[..n]), configs[n], path);
    } else {
      LastRemoves(configs[..n], i, path);
      KeepsUntouched(Composed(configs[..n]), configs[n], path);
    }
  }

  // ---- As JavaScript computes it ----

  const PROTO := "__proto__"

  /** A JavaScript value: an object has its own properties and a prototype, which is the
      ordinary one unless it has been set. */
  datatype Value = Plain(json: Json) | Object(own: map<string, Value>, proto: Option<Value>)

  /** What JSON sees of a value: the own properties. */
  function View(v: Value): Json {
    match v
    case Plain(json) => json
    case Object(own, _) => Obj(map k | k in own :: View(own[k]))
  }

  /** The element of an array at an index, for an array that serves as a prototype. */
  function Element(items: seq<Json>, key: string, from: nat): Value
    decreases |items| - from
  {
    if from >= |items| then Plain(Null)
    else if Decimal(from) == key then Plain(items[from])
    else Element(items, key, from + 1)
  }

  function Decimal(n: nat): string {
    if n < 10 then [('0' as int + n) as char] else Decimal(n / 10) + Decimal(n % 10)
  }

  /** Reading a property looks through the own properties and then up the prototypes. */
  function Read(own: map<string, Value>, proto: Option<Value>, key: string): Value
    decreases proto
  {
    if key in own then own[key]
    else if key == PROTO then (if proto.Some? then proto.value else Plain(Obj(map[])))
    else if proto.None? then Plain(Null)
    else
      match proto.value
      case Object(inner, next) => Read(inner, next, key)
      case Plain(json) =>
        match json
        case Arr(items) => Element(items, key, 0)
        case Obj(fields) => Plain(Member(fields, key))
        case _ => Plain(Null)
  }

  predicate IsObjectLike(v: Value) {
    v.Object? || v.json.Obj? || v.json.Arr?
  }

  /** The assignment that goes astray: to a property `__proto__` the target does not have. */
  predicate AssignsProto(base: map<string, Json>, patch: map<string, Json>) {
    PROTO in patch && !patch[PROTO].Null? && PROTO !in base
  }

  /** Somewhere in the overlay an object has a `__proto__` that the target lacks there. */
  predicate Collides(target: Json, patch: Json)
    decreases patch
  {
    patch.Obj? &&
    var base := FieldsOf(target);
    || AssignsProto(base, patch.fields)
    || exists k :: k in patch.fields && !patch.fields[k].Null? && Collides(Member(base, k), patch.fields[k])
  }

  function Wrap(fields: map<string, Json>): map<string, Value> {
    map k | k in fields :: Plain(fields[k])
  }

  /** The value is not what merging the overlay into anything would give. */
  ghost predicate Astray(v: Value, patch: Json) {
    forall target: Json :: View(v) != Merged(target, patch)
  }

  /** What the loop has made of the properties dealt with so far, unless it goes astray. */
  ghost predicate Done(base: map<string, Json>, patch: map<string, Json>, own: map<string, Value>, k: string)
    requires k in patch
  {
    if patch[k].Null? then k !in own
    else k in own && Faithful(Member(base, k), patch[k], own[k])
  }

  ghost predicate Faithful(target: Json, patch: Json, result: Value) {
    if Collides(target, patch) then Astray(result, patch) else View(result) == Merged(target, patch)
  }

  /** `mergeConfig`: for every order of the overlay's members, what it computes is the merge of
      RFC 7396 exactly if no member `__proto__` is assigned that the target lacks; and if one is,
      it is not even the merge into some other target. */
  method MergeConfig(target: Json, patch: Json) returns (result: Value)
    ensures View(result) == Merged(target, patch) <==> !Collides(target, patch)
    ensures Faithful(target, patch, result)
    decreases patch
  {
    if !patch.Obj? {
      return Plain(patch);
    }
    var base := FieldsOf(target);
    var own, proto: Option<Value> := Wrap(base), None;
    var rest := patch.fields.Keys;
    ghost var astray := AssignsProto(base, patch.fields);
    while rest != {}
      invariant rest <= patch.fields.Keys && own.Keys <= base.Keys + patch.fields.Keys
      invariant forall k :: k !in patch.fields || k in rest ==> (k in own <==> k in base)
      invariant forall k :: k in base && (k !in patch.fields || k in rest) ==> own[k] == Plain(base[k])
      invariant astray ==> PROTO !in own
      invariant !astray ==> proto.None? && forall k :: k in patch.fields && k !in rest ==> Done(base, patch.fields, own, k)
    {
      var key :| key in rest;
      rest := rest - {key};
      var value := patch.fields[key];
      if value.Null? {
        own := own - {key};
      } else {
        var read := Read(own, proto, key);
        var merged := MergeConfig(View(read), value);
        ReadsMember(base, own, proto, key, value);
        if key == PROTO && key !in own {
          if IsObjectLike(merged) {
            proto := Some(merged);
          }
        } else {
          own := own[key := merged];
        }
      }
    }
    result := Object(own, proto);
    MergesExactly(target, patch, own, proto);
  }

  /** Without a prototype set, reading gives the member, or something that counts as none. */
  lemma ReadsMember(base: map<string, Json>, own: map<string, Value>, proto: Option<Value>, key: string, value: Json)
    requires (key in own <==> key in base) && (key in base ==> own[key] == Plain(base[key]))
    ensures proto.None? && key != PROTO ==> View(Read(own, proto, key)) == Member(base, key)
    ensures key in own ==> View(Read(own, proto, key)) == Member(base, key)
  {
  }

  lemma MergesExactly(target: Json, patch: Json, own: map<string, Value>, proto: Option<Value>)
    requires patch.Obj?
    requires own.Keys <= FieldsOf(target).Keys + patch.fields.Keys
    requires forall k :: k !in patch.fields ==> (k in own <==> k in FieldsOf(target))
    requires forall k :: k in FieldsOf(target) && k !in patch.fields ==> own[k] == Plain(FieldsOf(target)[k])
    requires if AssignsProto(FieldsOf(target), patch.fields) then PROTO !in own
      else forall k :: k in patch.fields ==> Done(FieldsOf(target), patch.fields, own, k)
    ensures Faithful(target, patch, Object(own, proto))
  {
    hide Merged, Collides, View, Done, Faithful;
    var base := FieldsOf(target);
    CollidesWhere(target, patch);
    if AssignsProto(base, patch.fields) {
      ProtoAstray(patch, own, proto);
    } else if Collides(target, patch) {
      var k :| k in patch.fields && !patch.fields[k].Null? && Collides(Member(base, k), patch.fields[k]);
      DoneMeans(base, patch.fields, own, k);
      MemberAstray(patch, own, proto, k);
    } else {
      forall k | k in patch.fields
        ensures k in own <==> !Removes(patch.fields, k)
        ensures k in own ==> View(own[k]) == Merged(Member(base, k), patch.fields[k])
      {
        DoneMeans(base, patch.fields, own, k);
      }
      MergedKeys(target, patch);
      ViewKeys(own, proto);
      var expected, found := Merged(target, patch).fields, View(Object(own, proto)).fields;
      assert found.Keys == expected.Keys;
      forall k | k in expected
        ensures found[k] == expected[k]
      {
        if k !in patch.fields {
          ViewPlain(base[k]);
        }
      }
      assert found == expected;
    }
    FaithfulMeans(target, patch, Object(own, proto));
  }

  lemma FaithfulMeans(target: Json, patch: Json, v: Value)
    requires if Collides(target, patch) then Astray(v, patch) else View(v) == Merged(target, patch)
    ensures Faithful(target, patch, v)
  {
  }

  /** The merge into anything has the overlay's `__proto__`, and the result does not. */
  lemma ProtoAstray(patch: Json, own: map<string, Value>, proto: Option<Value>)
    requires patch.Obj? && PROTO in patch.fields && !patch.fields[PROTO].Null? && PROTO !in own
    ensures Astray(Object(own, proto), patch)
  {
    hide Merged, View;
    ViewKeys(own, proto);
    forall target: Json
      ensures View(Object(own, proto)) != Merged(target, patch)
    {
      MergedKeys(target, patch);
      assert PROTO in Merged(target, patch).fields;
    }
  }

  lemma MemberAstray(patch: Json, own: map<string, Value>, proto: Option<Value>, k: string)
    requires patch.Obj? && k in patch.fields && !patch.fields[k].Null? && k in own && Astray(own[k], patch.fields[k])
    ensures Astray(Object(own, proto), patch)
  {
    hide Merged, View;
    ViewKeys(own, proto);
    forall target: Json
      ensures View(Object(own, proto)) != Merged(target, patch)
    {
      MergedKeys(target, patch);
      assert k in Merged(target, patch).fields;
      assert View(own[k]) != Merged(Member(FieldsOf(target), k), patch.fields[k]);
    }
  }

  lemma MergedKeys(target: Json, patch: Json)
    requires patch.Obj?
    ensures var base, m := FieldsOf(target), Merged(target, patch);
      && m.Obj? && (forall k :: k in m.fields <==> (k in base || k in patch.fields) && !Removes(patch.fields, k))
      && forall k :: k in m.fields ==>
           m.fields[k] == if k in patch.fields then Merged(Member(base, k), patch.fields[k]) else base[k]
  {
  }

  lemma CollidesWhere(target: Json, patch: Json)
    requires patch.Obj?
    ensures Collides(target, patch) <==>
      || AssignsProto(FieldsOf(target), patch.fields)
      || exists k :: k in patch.fields && !patch.fields[k].Null? && Collides(Member(FieldsOf(target), k), patch.fields[k])
  {
  }

  lemma DoneMeans(base: map<string, Json>, patch: map<string, Json>, own: map<string, Value>, k: string)
    requires k in patch && Done(base, patch, own, k)
    ensures k in own <==> !Removes(patch, k)
    ensures k in own && Collides(Member(base, k), patch[k]) ==> Astray(own[k], patch[k])
    ensures k in own && !Collides(Member(base, k), patch[k]) ==> View(own[k]) == Merged(Member(base, k), patch[k])
  {
  }

  lemma ViewKeys(own: map<string, Value>, proto: Option<Value>)
    ensures var v := View(Object(own, proto));
      v.Obj? && v.fields.Keys == own.Keys && forall k :: k in own ==> v.fields[k] == View(own[k])
  {
  }

  lemma ViewPlain(j: Json)
    ensures View(Plain(j)) == j
  {
  }

  /** Where an overlay can be applied faithfully, it can be applied faithfully again. */
  lemma {:induction false} StillFaithful(target: Json, patch: Json)
    requires !Collides(target, patch)
    ensures !Collides(Merged(target, patch), patch)
    decreases patch
  {
    if patch.Obj? {
      var base, once := FieldsOf(target), Merged(target, patch);
      forall k | k in patch.fields && !patch.fields[k].Null?
        ensures !Collides(Member(once.fields, k), patch.fields[k])
      {
        StillFaithful(Member(base, k), patch.fields[k]);
      }
    }
  }

  /** An overlay that sets `__proto__` on the empty object is lost. */
  lemma ProtoIsLost()
    ensures var patch := Obj(map[PROTO := Obj(map["a" := Scalar("1")])]);
      Collides(Obj(map[]), patch) && Get(Merged(Obj(map[]), patch), [PROTO, "a"]) == Some(Scalar("1"))
  {
    var patch := Obj(map[PROTO := Obj(map["a" := Scalar("1")])]);
    assert PROTO in patch.fields;
    var path := [PROTO, "a"];
    assert path[1..] == ["a"] && path[1..][1..] == [];
    assert Get(patch.fields[PROTO], ["a"]) == Some(Scalar("1"));
    SetsItsLeaves(Obj(map[]), patch, [PROTO, "a"], Scalar("1"));
  }

  /** An overlay makes up for a difference between two targets: it removes or replaces every
      member in which they differ. */
  predicate Repairs(a: Json, b: Json, patch: Json)
    decreases patch, 1
  {
    patch.Obj? ==>
      forall k :: k in FieldsOf(a).Keys + FieldsOf(b).Keys + patch.fields.Keys ==> RepairsAt(a, b, patch, k)
  }

  predicate RepairsAt(a: Json, b: Json, patch: Json, k: string)
    requires patch.Obj?
    decreases patch, 0
  {
    var x, y := FieldsOf(a), FieldsOf(b);
    if k in patch.fields then patch.fields[k].Null? || Repairs(Member(x, k), Member(y, k), patch.fields[k])
    else (k in x <==> k in y) && (k in x ==> x[k] == y[k])
  }

  predicate SameAt(m: map<string, Json>, n: map<string, Json>, k: string) {
    (k in m <==> k in n) && (k in m ==> m[k] == n[k])
  }

  lemma {:induction false} RepairsExactly(a: Json, b: Json, patch: Json)
    ensures Merged(a, patch) == Merged(b, patch) <==> Repairs(a, b, patch)
    decreases patch
  {
    if patch.Obj? {
      MergedKeys(a, patch);
      MergedKeys(b, patch);
      var m, n, keys := Merged(a, patch), Merged(b, patch), FieldsOf(a).Keys + FieldsOf(b).Keys + patch.fields.Keys;
      forall k | k in keys
        ensures SameAt(m.fields, n.fields, k) <==> RepairsAt(a, b, patch, k)
      {
        if k in patch.fields {
          RepairsExactly(Member(FieldsOf(a), k), Member(FieldsOf(b), k), patch.fields[k]);
        }
        hide Merged;
      }
      hide Merged, SameAt, RepairsAt;
      SameEverywhere(m.fields, n.fields, keys);
    }
  }

  lemma SameEverywhere(m: map<string, Json>, n: map<string, Json>, keys: set<string>)
    requires m.Keys <= keys && n.Keys <= keys
    ensures m == n <==> forall k :: k in keys ==> SameAt(m, n, k)
  {
    if forall k :: k in keys ==> SameAt(m, n, k) {
      forall k
        ensures k in m <==> k in n
      {
        assert k in keys ==> SameAt(m, n, k);
      }
      assert m.Keys == n.Keys;
      assert m == n;
    }
  }

  /** One step of the reduction: it ends at the merge of all overlays so far exactly if this one
      does not collide, and makes up for what earlier collisions have done. */
  ghost predicate StepExact(trace: seq<Json>, configs: seq<Json>, i: nat)
    requires i < |configs| && |trace| > i + 1
  {
    && (trace[i + 1] == Composed(configs[..i + 1]) <==>
        !Collides(trace[i], configs[i]) && Repairs(trace[i], Composed(configs[..i]), configs[i]))
    && (!Collides(trace[i], configs[i]) ==> trace[i + 1] == Merged(trace[i], configs[i]))
  }

  /** The reduction of `composeEffectiveConfig`; `trace` are the configurations it goes through. */
  method ComposeEffectiveConfig(configs: seq<Json>) returns (effective: Json, ghost trace: seq<Json>)
    ensures |trace| == |configs| + 1 && trace[0] == Obj(map[]) && trace[|configs|] == effective
    ensures forall i :: 0 <= i < |configs| ==> StepExact(trace, configs, i)
    ensures (forall i :: 0 <= i < |configs| ==> !Collides(Composed(configs[..i]), configs[i])) ==> effective == Composed(configs)
  {
    hide Repairs, Collides, Faithful, View, Composed, Merged, StepExact;
    effective := Obj(map[]);
    NoOverlay();
    trace := [effective];
    var i := 0;
    while i < |configs|
      invariant 0 <= i <= |configs| && |trace| == i + 1 && trace[0] == Obj(map[]) && trace[i] == effective
      invariant forall j :: 0 <= j < i ==> StepExact(trace, configs, j)
      invariant (forall j :: 0 <= j < i ==> !Collides(Composed(configs[..j]), configs[j])) ==> effective == Composed(configs[..i])
    {
      var merged := MergeConfig(effective, configs[i]);
      NextOverlay(configs, i);
      FoldStep(effective, Composed(configs[..i]), configs[i], merged);
      effective := View(merged);
      StepsKept(trace, effective, configs, i);
      trace := trace + [effective];
      i := i + 1;
    }
    assert configs[..i] == configs;
  }

  lemma NoOverlay()
    ensures Composed([]) == Obj(map[])
  {
  }

  lemma NextOverlay(configs: seq<Json>, i: nat)
    requires i < |configs|
    ensures Composed(configs[..i + 1]) == Merged(Composed(configs[..i]), configs[i])
  {
    assert configs[..i + 1][..i] == configs[..i];
  }

  lemma StepsKept(trace: seq<Json>, next: Json, configs: seq<Json>, i: nat)
    requires i < |configs| && |trace| == i + 1 && forall j :: 0 <= j < i ==> StepExact(trace, configs, j)
    requires next == Composed(configs[..i + 1]) <==>
      !Collides(trace[i], configs[i]) && Repairs(trace[i], Composed(configs[..i]), configs[i])
    requires !Collides(trace[i], configs[i]) ==> next == Merged(trace[i], configs[i])
    ensures forall j :: 0 <= j <= i ==> StepExact(trace + [next], configs, j)
  {
    hide Composed, Collides, Repairs, Merged;
    forall j | 0 <= j <= i
      ensures StepExact(trace + [next], configs, j)
    {
      assert j < i ==> StepExact(trace, configs, j);
    }
  }

  lemma FoldStep(found: Json, right: Json, patch: Json, merged: Value)
    requires Faithful(found, patch, merged)
    ensures View(merged) == Merged(right, patch) <==> !Collides(found, patch) && Repairs(found, right, patch)
    ensures !Collides(found, patch) ==> View(merged) == Merged(found, patch)
  {
    hide View, Merged, Repairs, Collides;
    RepairsExactly(found, right, patch);
  }
}
