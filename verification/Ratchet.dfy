/** The debt ratchet: a scan passes only against a baseline that records exactly
    its debt, and a baseline may only tighten relative to the branch it targets. */
module Ratchet {
  import opened Orders
  import Reachability
  import Components

  const SCHEMA_VERSION := 1

  type Counts = map<string, int>
  type Cycle = seq<string>

  datatype Debt = Debt(version: int, rules: map<string, Counts>, cycles: seq<Cycle>)

  datatype Finding =
    | SchemaMismatch
    | Increased(rule: string, key: string, found: int, limit: int)
    | Reduced(rule: string, key: string, limit: int, count: int)
    | CycleNew(cycle: Cycle)
    | CycleShrank(cycle: Cycle)
    | CycleRemoved(cycle: Cycle)

  /** `counts.get(key, 0)` */
  function Get(counts: Counts, key: string): int {
    if key in counts then counts[key] else 0
  }

  /** `rules.get(rule, {})` */
  function RuleOf(rules: map<string, Counts>, rule: string): Counts {
    if rule in rules then rules[rule] else map[]
  }

  function SetOf(c: Cycle): set<string> {
    Elements(c)
  }

  function SetsOf(cs: seq<Cycle>): set<set<string>> {
    set c | c in cs :: SetOf(c)
  }

  // ---- What a comparison finds, rule by rule and cycle by cycle ----

  function Last<T>(s: seq<T>): T
    requires s != []
  {
    s[|s| - 1]
  }

  function Front<T>(s: seq<T>): seq<T>
    requires s != []
  {
    s[..|s| - 1]
  }

  function Increases(rule: string, current: Counts, allowed: Counts, keys: seq<string>): seq<Finding> {
    if keys == [] then [] else
      var key := Last(keys);
      Increases(rule, current, allowed, Front(keys)) +
      if Get(current, key) > Get(allowed, key)
      then [Increased(rule, key, Get(current, key), Get(allowed, key))] else []
  }

  function Decreases(rule: string, current: Counts, allowed: Counts, keys: seq<string>): seq<Finding> {
    if keys == [] then [] else
      var key := Last(keys);
      Decreases(rule, current, allowed, Front(keys)) +
      if Get(current, key) < Get(allowed, key)
      then [Reduced(rule, key, Get(allowed, key), Get(current, key))] else []
  }

  ghost function RuleIncreases(current: Debt, base: Debt, rules: seq<string>): seq<Finding>
  {
    if rules == [] then [] else
      var rule := Last(rules);
      var counts := RuleOf(current.rules, rule);
      RuleIncreases(current, base, Front(rules)) +
      Increases(rule, counts, RuleOf(base.rules, rule), Alphabetical(counts.Keys))
  }

  ghost function RuleDecreases(current: Debt, base: Debt, rules: seq<string>): seq<Finding>
  {
    if rules == [] then [] else
      var rule := Last(rules);
      var allowed := RuleOf(base.rules, rule);
      RuleDecreases(current, base, Front(rules)) +
      Decreases(rule, RuleOf(current.rules, rule), allowed, Alphabetical(allowed.Keys))
  }

  predicate ShrankFrom(c: set<string>, base: seq<Cycle>) {
    |c| > 1 && exists b :: b in SetsOf(base) && c < b
  }

  predicate ShrankTo(c: set<string>, current: seq<Cycle>) {
    exists b :: b in SetsOf(current) && b < c
  }

  function NewCycles(current: seq<Cycle>, base: seq<Cycle>): seq<Finding> {
    if current == [] then [] else
      var c := Last(current);
      NewCycles(Front(current), base) +
      if SetOf(c) !in SetsOf(base) && !ShrankFrom(SetOf(c), base) then [CycleNew(c)] else []
  }

  function ShrunkCycles(current: seq<Cycle>, base: seq<Cycle>): seq<Finding> {
    if current == [] then [] else
      var c := Last(current);
      ShrunkCycles(Front(current), base) +
      if SetOf(c) !in SetsOf(base) && ShrankFrom(SetOf(c), base) then [CycleShrank(c)] else []
  }

  function RemovedCycles(current: seq<Cycle>, base: seq<Cycle>): seq<Finding> {
    if base == [] then [] else
      var b := Last(base);
      RemovedCycles(current, Front(base)) +
      if SetOf(b) !in SetsOf(current) && !ShrankTo(SetOf(b), current) then [CycleRemoved(b)] else []
  }

  /** The findings of `Compare` for one pair of inputs. */
  ghost predicate Compared(current: Debt, base: Debt, failures: seq<Finding>, progress: seq<Finding>)
  {
    && base.version == SCHEMA_VERSION
    && var rules := Alphabetical(current.rules.Keys + base.rules.Keys);
    && failures == RuleIncreases(current, base, rules) + NewCycles(current.cycles, base.cycles)
    && progress == RuleDecreases(current, base, rules) + ShrunkCycles(current.cycles, base.cycles)
                   + RemovedCycles(current.cycles, base.cycles)
  }

  // ---- The comparison ----

  method CompareCounts(rule: string, current: Counts, allowed: Counts)
    returns (failures: seq<Finding>, progress: seq<Finding>)
    ensures failures == Increases(rule, current, allowed, Alphabetical(current.Keys))
    ensures progress == Decreases(rule, current, allowed, Alphabetical(allowed.Keys))
  {
    hide *;
    var keys := SortStrings(current.Keys);
    failures := FindIncreases(rule, current, allowed, keys);
    var limits := SortStrings(allowed.Keys);
    progress := FindDecreases(rule, current, allowed, limits);
  }

  method FindIncreases(rule: string, current: Counts, allowed: Counts, keys: seq<string>)
    returns (failures: seq<Finding>)
    ensures failures == Increases(rule, current, allowed, keys)
  {
    failures := [];
    var i := 0;
    while i < |keys|
      invariant 0 <= i <= |keys|
      invariant failures == Increases(rule, current, allowed, keys[..i])
    {
      assert Front(keys[..i + 1]) == keys[..i];
      var count, limit := Get(current, keys[i]), Get(allowed, keys[i]);
      if count > limit {
        failures := failures + [Increased(rule, keys[i], count, limit)];
      }
      i := i + 1;
    }
    assert keys[..i] == keys;
  }

  method FindDecreases(rule: string, current: Counts, allowed: Counts, limits: seq<string>)
    returns (progress: seq<Finding>)
    ensures progress == Decreases(rule, current, allowed, limits)
  {
    progress := [];
    var i := 0;
    while i < |limits|
      invariant 0 <= i <= |limits|
      invariant progress == Decreases(rule, current, allowed, limits[..i])
    {
      assert Front(limits[..i + 1]) == limits[..i];
      var count, limit := Get(current, limits[i]), Get(allowed, limits[i]);
      if count < limit {
        progress := progress + [Reduced(rule, limits[i], limit, count)];
      }
      i := i + 1;
    }
    assert limits[..i] == limits;
  }

  method CompareRules(current: Debt, base: Debt) returns (failures: seq<Finding>, progress: seq<Finding>)
    ensures failures == RuleIncreases(current, base, Alphabetical(current.rules.Keys + base.rules.Keys))
    ensures progress == RuleDecreases(current, base, Alphabetical(current.rules.Keys + base.rules.Keys))
  {
    hide Sorted, StringLess, Alphabetical, Elements, Increases, Decreases, Get, RuleOf;
    failures, progress := [], [];
    var rules := SortStrings(current.rules.Keys + base.rules.Keys);
    var i := 0;
    while i < |rules|
      invariant 0 <= i <= |rules|
      invariant failures == RuleIncreases(current, base, rules[..i])
      invariant progress == RuleDecreases(current, base, rules[..i])
    {
      assert Front(rules[..i + 1]) == rules[..i];
      var f, p := CompareCounts(rules[i], RuleOf(current.rules, rules[i]), RuleOf(base.rules, rules[i]));
      failures, progress := failures + f, progress + p;
      i := i + 1;
    }
    assert rules[..i] == rules;
  }

  method CurrentCycles(current: seq<Cycle>, base: seq<Cycle>) returns (failures: seq<Finding>, progress: seq<Finding>)
    ensures failures == NewCycles(current, base) && progress == ShrunkCycles(current, base)
  {
    hide ShrankFrom, SetsOf, SetOf;
    failures, progress := [], [];
    var i := 0;
    while i < |current|
      invariant 0 <= i <= |current|
      invariant failures == NewCycles(current[..i], base)
      invariant progress == ShrunkCycles(current[..i], base)
    {
      var cycle := current[i];
      assert Front(current[..i + 1]) == current[..i];
      if SetOf(cycle) !in SetsOf(base) {
        if ShrankFrom(SetOf(cycle), base) {
          progress := progress + [CycleShrank(cycle)];
        } else {
          failures := failures + [CycleNew(cycle)];
        }
      }
      i := i + 1;
    }
    assert current[..i] == current;
  }

  method BaselineCycles(current: seq<Cycle>, base: seq<Cycle>) returns (progress: seq<Finding>)
    ensures progress == RemovedCycles(current, base)
  {
    hide ShrankTo, SetsOf, SetOf;
    progress := [];
    var i := 0;
    while i < |base|
      invariant 0 <= i <= |base|
      invariant progress == RemovedCycles(current, base[..i])
    {
      var cycle := base[i];
      assert Front(base[..i + 1]) == base[..i];
      if SetOf(cycle) !in SetsOf(current) && !ShrankTo(SetOf(cycle), current) {
        progress := progress + [CycleRemoved(cycle)];
      }
      i := i + 1;
    }
    assert base[..i] == base;
  }

  method Compare(current: Debt, base: Debt) returns (failures: seq<Finding>, progress: seq<Finding>)
    ensures base.version != SCHEMA_VERSION ==> failures == [SchemaMismatch] && progress == []
    ensures base.version == SCHEMA_VERSION ==> Compared(current, base, failures, progress)
  {
    hide Alphabetical, RuleIncreases, RuleDecreases, NewCycles, ShrunkCycles, RemovedCycles;
    if base.version != SCHEMA_VERSION {
      return [SchemaMismatch], [];
    }
    var ruleFailures, ruleProgress := CompareRules(current, base);
    var cycleFailures, cycleProgress := CurrentCycles(current.cycles, base.cycles);
    var removed := BaselineCycles(current.cycles, base.cycles);
    failures := ruleFailures + cycleFailures;
    progress := ruleProgress + cycleProgress + removed;
  }

  // ---- Exactly which findings there are ----

  lemma {:induction false} IncreasesAre(rule: string, current: Counts, allowed: Counts, keys: seq<string>)
    ensures forall f :: f in Increases(rule, current, allowed, keys) <==>
      && f.Increased? && f.rule == rule && f.key in keys
      && f.found == Get(current, f.key) && f.limit == Get(allowed, f.key) && f.found > f.limit
  {
    if keys != [] {
      IncreasesAre(rule, current, allowed, Front(keys));
      assert keys == Front(keys) + [Last(keys)];
    }
  }

  lemma {:induction false} DecreasesAre(rule: string, current: Counts, allowed: Counts, keys: seq<string>)
    ensures forall f :: f in Decreases(rule, current, allowed, keys) <==>
      && f.Reduced? && f.rule == rule && f.key in keys
      && f.count == Get(current, f.key) && f.limit == Get(allowed, f.key) && f.count < f.limit
  {
    if keys != [] {
      DecreasesAre(rule, current, allowed, Front(keys));
      assert keys == Front(keys) + [Last(keys)];
    }
  }

  /** A count the scan found, above what the baseline allows. */
  predicate IsIncrease(current: Debt, base: Debt, f: Finding) {
    && f.Increased? && f.rule in current.rules && f.key in current.rules[f.rule]
    && f.found == current.rules[f.rule][f.key] && f.limit == Count(base, f.rule, f.key) && f.found > f.limit
  }

  /** A count of the baseline that the scan found less of. */
  predicate IsDecrease(current: Debt, base: Debt, f: Finding) {
    && f.Reduced? && f.rule in base.rules && f.key in base.rules[f.rule]
    && f.limit == base.rules[f.rule][f.key] && f.count == Count(current, f.rule, f.key) && f.count < f.limit
  }

  lemma {:induction false} RuleIncreasesAre(current: Debt, base: Debt, rules: seq<string>)
    ensures forall f :: f in RuleIncreases(current, base, rules) <==> IsIncrease(current, base, f) && f.rule in rules
  {
    hide Sorted, StringLess, Increases;
    if rules != [] {
      var rule := Last(rules);
      var counts := RuleOf(current.rules, rule);
      RuleIncreasesAre(current, base, Front(rules));
      IncreasesAre(rule, counts, RuleOf(base.rules, rule), Alphabetical(counts.Keys));
      assert forall k :: k in Alphabetical(counts.Keys) <==> k in Elements(Alphabetical(counts.Keys));
      assert rules == Front(rules) + [rule];
    }
  }

  lemma {:induction false} RuleDecreasesAre(current: Debt, base: Debt, rules: seq<string>)
    ensures forall f :: f in RuleDecreases(current, base, rules) <==> IsDecrease(current, base, f) && f.rule in rules
  {
    hide Sorted, StringLess, Decreases;
    if rules != [] {
      var rule := Last(rules);
      var allowed := RuleOf(base.rules, rule);
      RuleDecreasesAre(current, base, Front(rules));
      DecreasesAre(rule, RuleOf(current.rules, rule), allowed, Alphabetical(allowed.Keys));
      assert forall k :: k in Alphabetical(allowed.Keys) <==> k in Elements(Alphabetical(allowed.Keys));
      assert rules == Front(rules) + [rule];
    }
  }

  /** The nodes of some cycle of the list. */
  predicate Known(nodes: set<string>, cs: seq<Cycle>) {
    exists b :: b in cs && Elements(b) == nodes
  }

  /** Some cycle of the list has all these nodes, and more. */
  predicate InsideOne(nodes: set<string>, cs: seq<Cycle>) {
    exists b :: b in cs && nodes < Elements(b)
  }

  /** Some cycle of the list has some of these nodes, and no others. */
  predicate AroundOne(nodes: set<string>, cs: seq<Cycle>) {
    exists b :: b in cs && Elements(b) < nodes
  }

  lemma CycleTests(c: set<string>, cs: seq<Cycle>)
    ensures c in SetsOf(cs) <==> Known(c, cs)
    ensures ShrankFrom(c, cs) <==> |c| > 1 && InsideOne(c, cs)
    ensures ShrankTo(c, cs) <==> AroundOne(c, cs)
  {
    if InsideOne(c, cs) {
      var b :| b in cs && c < Elements(b);
      assert SetOf(b) in SetsOf(cs);
    }
    if AroundOne(c, cs) {
      var b :| b in cs && Elements(b) < c;
      assert SetOf(b) in SetsOf(cs);
    }
  }

  lemma {:induction false} CurrentFindings(current: seq<Cycle>, base: seq<Cycle>)
    ensures forall f :: f in NewCycles(current, base) <==>
      && f.CycleNew? && f.cycle in current && var c := Elements(f.cycle);
      && !Known(c, base) && !(|c| > 1 && InsideOne(c, base))
    ensures forall f :: f in ShrunkCycles(current, base) <==>
      && f.CycleShrank? && f.cycle in current && var c := Elements(f.cycle);
      && !Known(c, base) && |c| > 1 && InsideOne(c, base)
  {
    hide ShrankFrom, SetsOf, InsideOne, Known;
    if current != [] {
      CurrentFindings(Front(current), base);
      CycleTests(SetOf(Last(current)), base);
      assert current == Front(current) + [Last(current)];
    }
  }

  lemma {:induction false} BaselineFindings(current: seq<Cycle>, base: seq<Cycle>)
    ensures forall f :: f in RemovedCycles(current, base) <==>
      && f.CycleRemoved? && f.cycle in base && var b := Elements(f.cycle);
      && !Known(b, current) && !AroundOne(b, current)
  {
    hide ShrankTo, SetsOf, AroundOne, Known;
    if base != [] {
      BaselineFindings(current, Front(base));
      CycleTests(SetOf(Last(base)), current);
      assert base == Front(base) + [Last(base)];
    }
  }

  /** Failures are the counts above their limit and the cycles that are new or wider; updates the
      counts below their limit, the cycles that shrank, and the recorded ones that are gone. */
  lemma FindingsAre(current: Debt, base: Debt, failures: seq<Finding>, progress: seq<Finding>)
    requires Compared(current, base, failures, progress)
    ensures forall f :: f in failures <==>
      || IsIncrease(current, base, f)
      || (f.CycleNew? && f.cycle in current.cycles && !Known(Elements(f.cycle), base.cycles)
          && !(|Elements(f.cycle)| > 1 && InsideOne(Elements(f.cycle), base.cycles)))
    ensures forall f :: f in progress <==>
      || IsDecrease(current, base, f)
      || (f.CycleShrank? && f.cycle in current.cycles && !Known(Elements(f.cycle), base.cycles)
          && |Elements(f.cycle)| > 1 && InsideOne(Elements(f.cycle), base.cycles))
      || (f.CycleRemoved? && f.cycle in base.cycles && !Known(Elements(f.cycle), current.cycles)
          && !AroundOne(Elements(f.cycle), current.cycles))
  {
    var rules := Alphabetical(current.rules.Keys + base.rules.Keys);
    assert forall r :: r in rules <==> r in Elements(rules);
    hide Sorted, StringLess, Known, InsideOne, AroundOne;
    RuleIncreasesAre(current, base, rules);
    RuleDecreasesAre(current, base, rules);
    CurrentFindings(current.cycles, base.cycles);
    BaselineFindings(current.cycles, base.cycles);
  }

  predicate ShouldFail(failures: seq<Finding>, progress: seq<Finding>) {
    failures != [] || progress != []
  }

  // ---- When the guard passes ----

  /** The debt counted under one rule and key, with absent meaning none. */
  function Count(d: Debt, rule: string, key: string): int {
    Get(RuleOf(d.rules, rule), key)
  }

  predicate NonNegative(d: Debt) {
    forall rule, key :: rule in d.rules && key in d.rules[rule] ==> d.rules[rule][key] >= 0
  }

  /** Every baseline cycle is still there whole, or a current cycle sits strictly inside it. */
  predicate BaselineAccounted(current: seq<Cycle>, base: seq<Cycle>) {
    forall b :: b in SetsOf(base) ==> b in SetsOf(current) || ShrankTo(b, current)
  }

  lemma {:induction false} IncreasesEmpty(rule: string, current: Counts, allowed: Counts, keys: seq<string>)
    ensures Increases(rule, current, allowed, keys) == [] <==>
      forall k :: k in keys ==> Get(current, k) <= Get(allowed, k)
  {
    if keys != [] {
      IncreasesEmpty(rule, current, allowed, Front(keys));
      assert keys == Front(keys) + [Last(keys)];
    }
  }

  lemma {:induction false} DecreasesEmpty(rule: string, current: Counts, allowed: Counts, keys: seq<string>)
    ensures Decreases(rule, current, allowed, keys) == [] <==>
      forall k :: k in keys ==> Get(current, k) >= Get(allowed, k)
  {
    if keys != [] {
      DecreasesEmpty(rule, current, allowed, Front(keys));
      assert keys == Front(keys) + [Last(keys)];
    }
  }

  /** No key the scan found is above its limit, and no key with a limit is below it. */
  predicate RuleAgrees(current: Counts, allowed: Counts) {
    && (forall k :: k in current ==> current[k] <= Get(allowed, k))
    && (forall k :: k in allowed ==> Get(current, k) >= allowed[k])
  }

  lemma RuleQuiet(rule: string, current: Counts, allowed: Counts)
    ensures Increases(rule, current, allowed, Alphabetical(current.Keys)) == []
         && Decreases(rule, current, allowed, Alphabetical(allowed.Keys)) == []
       <==> RuleAgrees(current, allowed)
  {
    hide Sorted, StringLess, RuleAgrees, Increases, Decreases;
    var keys, limits := Alphabetical(current.Keys), Alphabetical(allowed.Keys);
    assert forall k :: k in keys <==> k in Elements(keys);
    assert forall k :: k in limits <==> k in Elements(limits);
    ListedRuleQuiet(rule, current, allowed, keys, limits);
  }

  lemma ListedRuleQuiet(rule: string, current: Counts, allowed: Counts, keys: seq<string>, limits: seq<string>)
    requires forall k :: k in keys <==> k in current
    requires forall k :: k in limits <==> k in allowed
    ensures Increases(rule, current, allowed, keys) == [] && Decreases(rule, current, allowed, limits) == []
       <==> RuleAgrees(current, allowed)
  {
    hide Increases, Decreases;
    IncreasesEmpty(rule, current, allowed, keys);
    DecreasesEmpty(rule, current, allowed, limits);
    if RuleAgrees(current, allowed) {
      assert forall k :: k in keys ==> Get(current, k) <= Get(allowed, k);
    } else if k :| k in current && current[k] > Get(allowed, k) {
      assert k in keys;
    } else {
      var k :| k in allowed && Get(current, k) < allowed[k];
      assert k in limits;
    }
  }

  /** With counts of occurrences, agreeing means that every key counts the same. */
  lemma AgreesWhenCounting(current: Counts, allowed: Counts)
    requires forall k :: k in current ==> current[k] >= 0
    requires forall k :: k in allowed ==> allowed[k] >= 0
    ensures RuleAgrees(current, allowed) <==> forall k :: Get(current, k) == Get(allowed, k)
  {
  }

  lemma {:induction false} RulesQuiet(current: Debt, base: Debt, rules: seq<string>)
    ensures RuleIncreases(current, base, rules) == [] && RuleDecreases(current, base, rules) == []
       <==> forall r :: r in rules ==> RuleAgrees(RuleOf(current.rules, r), RuleOf(base.rules, r))
  {
    hide StringLess, Sorted, Elements, Alphabetical, RuleAgrees, RuleOf, Increases, Decreases, Get;
    if rules != [] {
      var r := Last(rules);
      RulesQuiet(current, base, Front(rules));
      RuleQuiet(r, RuleOf(current.rules, r), RuleOf(base.rules, r));
      assert rules == Front(rules) + [r];
    }
  }

  lemma {:induction false} CyclesKnown(current: seq<Cycle>, base: seq<Cycle>)
    ensures NewCycles(current, base) == [] && ShrunkCycles(current, base) == [] <==> SetsOf(current) <= SetsOf(base)
  {
    if current != [] {
      CyclesKnown(Front(current), base);
      SetsOfLast(current);
    }
  }

  lemma SetsOfLast(cs: seq<Cycle>)
    requires cs != []
    ensures SetsOf(cs) == SetsOf(Front(cs)) + {SetOf(Last(cs))}
  {
  }

  lemma {:induction false} NoneRemoved(current: seq<Cycle>, base: seq<Cycle>)
    ensures RemovedCycles(current, base) == [] <==> BaselineAccounted(current, base)
  {
    if base != [] {
      NoneRemoved(current, Front(base));
      SetsOfLast(base);
    }
  }

  ghost predicate CountsAgree(current: Debt, base: Debt) {
    forall r :: r in current.rules.Keys + base.rules.Keys ==>
      RuleAgrees(RuleOf(current.rules, r), RuleOf(base.rules, r))
  }

  /** The guard passes exactly when the counts agree, every current cycle is in the
      baseline, and every baseline cycle is accounted for. */
  lemma PassesWhen(current: Debt, base: Debt, failures: seq<Finding>, progress: seq<Finding>)
    requires Compared(current, base, failures, progress)
    ensures !ShouldFail(failures, progress) <==>
      && CountsAgree(current, base)
      && SetsOf(current.cycles) <= SetsOf(base.cycles)
      && BaselineAccounted(current.cycles, base.cycles)
  {
    hide Sorted, StringLess, BaselineAccounted, SetsOf, RuleAgrees, RuleOf;
    var rules := Alphabetical(current.rules.Keys + base.rules.Keys);
    RulesQuiet(current, base, rules);
    CyclesKnown(current.cycles, base.cycles);
    NoneRemoved(current.cycles, base.cycles);
    assert forall r :: r in rules <==> r in Elements(rules);
  }

  lemma CountsAgreeWhenCounting(current: Debt, base: Debt)
    requires NonNegative(current) && NonNegative(base)
    ensures CountsAgree(current, base) <==> forall r, k :: Count(current, r, k) == Count(base, r, k)
  {
    hide RuleAgrees;
    forall r
      ensures RuleAgrees(RuleOf(current.rules, r), RuleOf(base.rules, r)) <==>
        forall k :: Count(current, r, k) == Count(base, r, k)
    {
      AgreesWhenCounting(RuleOf(current.rules, r), RuleOf(base.rules, r));
      assert forall k :: Count(current, r, k) == Get(RuleOf(current.rules, r), k);
      assert forall k :: Count(base, r, k) == Get(RuleOf(base.rules, r), k);
    }
    assert forall r, k :: r !in current.rules.Keys + base.rules.Keys ==> Count(current, r, k) == Count(base, r, k);
  }

  /** No cycle of the list lies strictly inside another one. */
  predicate NoneNested(cs: seq<Cycle>) {
    forall a, b :: a in SetsOf(cs) && b in SetsOf(cs) ==> !(a < b)
  }

  ghost predicate Unchanged(current: Debt, base: Debt) {
    && (forall r, k :: Count(current, r, k) == Count(base, r, k))
    && SetsOf(current.cycles) == SetsOf(base.cycles)
  }

  /** An unchanged debt passes; without nesting in the baseline, no other does. */
  lemma PassesOnlyUnchanged(current: Debt, base: Debt, failures: seq<Finding>, progress: seq<Finding>)
    requires NonNegative(current) && NonNegative(base) && Compared(current, base, failures, progress)
    ensures Unchanged(current, base) ==> !ShouldFail(failures, progress)
    ensures NoneNested(base.cycles) && !ShouldFail(failures, progress) ==> Unchanged(current, base)
  {
    hide Compared, ShouldFail, CountsAgree, Count, NonNegative;
    PassesWhen(current, base, failures, progress);
    CountsAgreeWhenCounting(current, base);
  }

  /** The cycles of a list but for those over one node set. */
  function Without(cs: seq<Cycle>, b: set<string>): seq<Cycle> {
    if cs == [] then [] else Without(Front(cs), b) + if SetOf(Last(cs)) == b then [] else [Last(cs)]
  }

  lemma {:induction false} WithoutSets(cs: seq<Cycle>, b: set<string>)
    ensures SetsOf(Without(cs, b)) == SetsOf(cs) - {b}
  {
    if cs != [] {
      WithoutSets(Front(cs), b);
      SetsOfLast(cs);
      if SetOf(Last(cs)) != b {
        SetsOfLast(Without(cs, b));
        assert Front(Without(cs, b)) == Without(Front(cs), b);
      } else {
        assert Without(cs, b) == Without(Front(cs), b);
      }
    }
  }

  /** A cycle with another one strictly inside it can be removed from the debt unnoticed. */
  lemma NestedHidesRemoval(base: Debt, a: set<string>, b: set<string>)
    returns (current: Debt, failures: seq<Finding>, progress: seq<Finding>)
    requires NonNegative(base) && base.version == SCHEMA_VERSION
    requires a in SetsOf(base.cycles) && b in SetsOf(base.cycles) && a < b
    ensures NonNegative(current) && Compared(current, base, failures, progress) && !ShouldFail(failures, progress)
    ensures current.rules == base.rules && SetsOf(current.cycles) == SetsOf(base.cycles) - {b}
  {
    hide Count, NonNegative, SetsOf, ShouldFail, CountsAgree, Alphabetical, RuleIncreases, RuleDecreases;
    current := base.(cycles := Without(base.cycles, b));
    WithoutSets(base.cycles, b);
    var rules := Alphabetical(current.rules.Keys + base.rules.Keys);
    failures := RuleIncreases(current, base, rules) + NewCycles(current.cycles, base.cycles);
    progress := RuleDecreases(current, base, rules) + ShrunkCycles(current.cycles, base.cycles)
      + RemovedCycles(current.cycles, base.cycles);
    assert NonNegative(current) by { SameRulesNonNegative(current, base); }
    SameRulesAgree(current, base);
    PassesWhen(current, base, failures, progress);
  }

  lemma SameRulesNonNegative(current: Debt, base: Debt)
    requires current.rules == base.rules && NonNegative(base)
    ensures NonNegative(current)
  {
  }

  lemma SameRulesAgree(current: Debt, base: Debt)
    requires current.rules == base.rules
    ensures CountsAgree(current, base)
  {
  }

  /** Every scan that passes against the baseline has exactly its debt. */
  ghost predicate HoldsDebt(base: Debt) {
    forall current, failures, progress ::
      NonNegative(current) && Compared(current, base, failures, progress) && !ShouldFail(failures, progress)
      ==> Unchanged(current, base)
  }

  /** A baseline holds the debt exactly if none of its cycles lies strictly inside another. */
  lemma HoldsDebtExactly(base: Debt)
    requires NonNegative(base) && base.version == SCHEMA_VERSION
    ensures HoldsDebt(base) <==> NoneNested(base.cycles)
  {
    hide NonNegative, Compared, ShouldFail, SetsOf, Count;
    if NoneNested(base.cycles) {
      forall current, failures, progress |
        NonNegative(current) && Compared(current, base, failures, progress) && !ShouldFail(failures, progress)
        ensures Unchanged(current, base)
      {
        PassesOnlyUnchanged(current, base, failures, progress);
      }
    } else {
      var a, b :| a in SetsOf(base.cycles) && b in SetsOf(base.cycles) && a < b;
      var current, failures, progress := NestedHidesRemoval(base, a, b);
      assert !Unchanged(current, base);
    }
  }

  /** The same of the cycles alone. */
  lemma CyclesHeldExactly(base: seq<Cycle>)
    ensures (forall current: seq<Cycle> {:trigger SetsOf(current)} ::
        SetsOf(current) <= SetsOf(base) && BaselineAccounted(current, base) ==> SetsOf(current) == SetsOf(base))
      <==> NoneNested(base)
  {
    hide SetsOf;
    if a, b :| a in SetsOf(base) && b in SetsOf(base) && a < b {
      var current := Without(base, b);
      WithoutSets(base, b);
      assert BaselineAccounted(current, base);
      assert SetsOf(current) != SetsOf(base);
    }
  }

  /** A baseline the guard recorded itself never has nested cycles. */
  lemma RecordedBaselineNotNested(g: Reachability.Graph, cs: seq<Cycle>)
    requires forall c :: c in Components.Listed(cs) <==> Reachability.IsScc(g, c) && Components.Reportable(g, c)
    ensures NoneNested(cs)
  {
    hide Components.Reportable;
    assert SetsOf(cs) == Components.Listed(cs);
    forall a, b | a in SetsOf(cs) && b in SetsOf(cs)
      ensures !(a < b)
    {
      NotInsideScc(g, a, b);
    }
  }

  lemma NotInsideScc(g: Reachability.Graph, a: set<string>, b: set<string>)
    requires Reachability.IsScc(g, a) && Reachability.IsScc(g, b)
    ensures !(a < b)
  {
  }

  // ---- The baseline ratchet against the target branch ----

  predicate CycleAllowed(cycle: Cycle, base: seq<Cycle>) {
    if |SetOf(cycle)| == 1
    then exists b :: b in SetsOf(base) && SetOf(cycle) == b
    else exists b :: b in SetsOf(base) && SetOf(cycle) <= b
  }

  predicate CountsTighten(candidate: Debt, previous: Debt) {
    forall r, k :: r in candidate.rules && k in candidate.rules[r] ==>
      candidate.rules[r][k] <= Get(RuleOf(previous.rules, r), k)
  }

  /** What makes `compare_baseline_ratchet` return no failure. */
  predicate RatchetPasses(candidate: Debt, previous: Debt) {
    && previous.version == candidate.version
    && CountsTighten(candidate, previous)
    && (forall c :: c in candidate.cycles ==> CycleAllowed(c, previous.cycles))
  }

  /** The counts of one rule above the previous ones, as findings. */
  function Above(rule: string, counts: Counts, previous: Counts): set<Finding> {
    set k | k in counts && counts[k] > Get(previous, k) :: Increased(rule, k, counts[k], Get(previous, k))
  }

  function AllAbove(candidate: Debt, previous: Debt, rules: set<string>): set<Finding> {
    set r, f | r in rules && r in candidate.rules && f in Above(r, candidate.rules[r], RuleOf(previous.rules, r)) :: f
  }

  function Disallowed(cycles: seq<Cycle>, base: seq<Cycle>): seq<Finding> {
    if cycles == [] then [] else
      Disallowed(Front(cycles), base) + if CycleAllowed(Last(cycles), base) then [] else [CycleNew(Last(cycles))]
  }

  /** Exactly these findings, each once, in an order that follows the dictionaries. */
  predicate Each(found: seq<Finding>, all: set<Finding>) {
    Elements(found) == all && |found| == |all|
  }

  ghost predicate Ratcheted(candidate: Debt, previous: Debt, failures: seq<Finding>) {
    exists counts: seq<Finding> ::
      && Each(counts, AllAbove(candidate, previous, candidate.rules.Keys))
      && failures == counts + Disallowed(candidate.cycles, previous.cycles)
  }

  method CompareBaselineRatchet(candidate: Debt, previous: Debt) returns (failures: seq<Finding>)
    ensures previous.version != candidate.version ==> failures == [SchemaMismatch]
    ensures previous.version == candidate.version ==> Ratcheted(candidate, previous, failures)
  {
    hide Above, AllAbove, CycleAllowed;
    failures := [];
    if previous.version != candidate.version {
      return [SchemaMismatch];
    }
    var rules := candidate.rules.Keys;
    NoneAbove(candidate, previous);
    while rules != {}
      invariant rules <= candidate.rules.Keys
      invariant Each(failures, AllAbove(candidate, previous, candidate.rules.Keys - rules))
    {
      var rule :| rule in rules;
      var found := RatchetRule(rule, candidate.rules[rule], RuleOf(previous.rules, rule));
      OneMoreRule(candidate, previous, candidate.rules.Keys - rules, rule, failures, found);
      failures := failures + found;
      assert candidate.rules.Keys - (rules - {rule}) == candidate.rules.Keys - rules + {rule};
      rules := rules - {rule};
    }
    ghost var counts := failures;
    assert candidate.rules.Keys - rules == candidate.rules.Keys;
    var i := 0;
    while i < |candidate.cycles|
      invariant 0 <= i <= |candidate.cycles|
      invariant failures == counts + Disallowed(candidate.cycles[..i], previous.cycles)
    {
      assert Front(candidate.cycles[..i + 1]) == candidate.cycles[..i];
      if !CycleAllowed(candidate.cycles[i], previous.cycles) {
        failures := failures + [CycleNew(candidate.cycles[i])];
      }
      i := i + 1;
    }
    assert candidate.cycles[..i] == candidate.cycles;
  }

  lemma NoneAbove(candidate: Debt, previous: Debt)
    ensures Each([], AllAbove(candidate, previous, candidate.rules.Keys - candidate.rules.Keys))
  {
  }

  lemma OneMoreRule(candidate: Debt, previous: Debt, rules: set<string>, rule: string,
                    failures: seq<Finding>, found: seq<Finding>)
    requires rule in candidate.rules && rule !in rules && Each(failures, AllAbove(candidate, previous, rules))
    requires Each(found, Above(rule, candidate.rules[rule], RuleOf(previous.rules, rule)))
    ensures Each(failures + found, AllAbove(candidate, previous, rules + {rule}))
  {
    var more := Above(rule, candidate.rules[rule], RuleOf(previous.rules, rule));
    assert AllAbove(candidate, previous, rules + {rule}) == AllAbove(candidate, previous, rules) + more;
    forall f | f in more
      ensures f !in AllAbove(candidate, previous, rules)
    {
      assert f.rule == rule;
    }
    EachMore(failures, AllAbove(candidate, previous, rules), found, more);
  }

  lemma EachMore(s: seq<Finding>, a: set<Finding>, t: seq<Finding>, b: set<Finding>)
    requires Each(s, a) && Each(t, b) && a !! b
    ensures Each(s + t, a + b)
  {
    assert Elements(s + t) == Elements(s) + Elements(t);
  }

  method RatchetRule(rule: string, counts: Counts, previous: Counts) returns (failures: seq<Finding>)
    ensures Each(failures, Above(rule, counts, previous))
  {
    hide Each, Above, Get;
    failures := [];
    var keys := counts.Keys;
    NoneEach();
    NoKeyAbove(rule, previous);
    assert counts - counts.Keys == map[];
    while keys != {}
      invariant keys <= counts.Keys && Each(failures, Above(rule, counts - keys, previous))
    {
      var key :| key in keys;
      KeyAbove(rule, counts, previous, keys, key);
      if counts[key] > Get(previous, key) {
        var found := Increased(rule, key, counts[key], Get(previous, key));
        OneEach(found);
        EachMore(failures, Above(rule, counts - keys, previous), [found], {found});
        failures := failures + [found];
      }
      keys := keys - {key};
    }
    assert counts - keys == counts;
  }

  lemma NoKeyAbove(rule: string, previous: Counts)
    ensures Above(rule, map[], previous) == {}
  {
  }

  lemma KeyAbove(rule: string, counts: Counts, previous: Counts, keys: set<string>, key: string)
    requires keys <= counts.Keys && key in keys
    ensures var found := Increased(rule, key, counts[key], Get(previous, key));
      && found !in Above(rule, counts - keys, previous)
      && Above(rule, counts - (keys - {key}), previous)
         == Above(rule, counts - keys, previous) + if counts[key] > Get(previous, key) then {found} else {}
  {
  }

  lemma NoneEach()
    ensures Each([], {})
  {
  }

  lemma OneEach(f: Finding)
    ensures Each([f], {f})
  {
  }

  lemma {:induction false} DisallowedEmpty(cycles: seq<Cycle>, base: seq<Cycle>)
    ensures Disallowed(cycles, base) == [] <==> forall c :: c in cycles ==> CycleAllowed(c, base)
  {
    if cycles != [] {
      DisallowedEmpty(Front(cycles), base);
      assert cycles == Front(cycles) + [Last(cycles)];
    }
  }

  /** The ratchet returns no failure exactly when no count rises, every cycle of more nodes than
      one lies inside one of the target branch, and every single node was a cycle there. */
  lemma RatchetPassesWhen(candidate: Debt, previous: Debt, failures: seq<Finding>)
    requires previous.version == candidate.version && Ratcheted(candidate, previous, failures)
    ensures failures == [] <==> RatchetPasses(candidate, previous)
    ensures failures == [] <==>
      && (forall r, k :: r in candidate.rules && k in candidate.rules[r] ==>
           candidate.rules[r][k] <= Count(previous, r, k))
      && (forall c :: c in candidate.cycles ==> NoWider(Elements(c), previous.cycles))
  {
    hide CycleAllowed, NoWider;
    DisallowedEmpty(candidate.cycles, previous.cycles);
    forall c | c in candidate.cycles
      ensures CycleAllowed(c, previous.cycles) <==> NoWider(Elements(c), previous.cycles)
    {
      AllowedMeans(c, previous.cycles);
    }
    var all := AllAbove(candidate, previous, candidate.rules.Keys);
    if r, k :| r in candidate.rules && k in candidate.rules[r] && candidate.rules[r][k] > Get(RuleOf(previous.rules, r), k) {
      var allowed := Get(RuleOf(previous.rules, r), k);
      assert Increased(r, k, candidate.rules[r][k], allowed) in Above(r, candidate.rules[r], RuleOf(previous.rules, r));
      assert Increased(r, k, candidate.rules[r][k], allowed) in all;
    } else {
      assert all == {};
    }
  }

  /** And its failures are exactly the counts that rise and the cycles that do not. */
  lemma RatchetFindingsAre(candidate: Debt, previous: Debt, failures: seq<Finding>)
    requires Ratcheted(candidate, previous, failures)
    ensures forall f :: f in failures <==>
      || IsIncrease(candidate, previous, f)
      || (f.CycleNew? && f.cycle in candidate.cycles && !NoWider(Elements(f.cycle), previous.cycles))
  {
    hide NoWider, Disallowed;
    DisallowedAre(candidate.cycles, previous.cycles);
    var counts :| Each(counts, AllAbove(candidate, previous, candidate.rules.Keys))
      && failures == counts + Disallowed(candidate.cycles, previous.cycles);
    AllAboveAre(candidate, previous);
    assert forall f :: f in counts <==> f in Elements(counts);
  }

  lemma AllAboveAre(candidate: Debt, previous: Debt)
    ensures forall f :: f in AllAbove(candidate, previous, candidate.rules.Keys) <==> IsIncrease(candidate, previous, f)
  {
    forall f | IsIncrease(candidate, previous, f)
      ensures f in AllAbove(candidate, previous, candidate.rules.Keys)
    {
      assert f in Above(f.rule, candidate.rules[f.rule], RuleOf(previous.rules, f.rule));
    }
  }

  lemma {:induction false} DisallowedAre(cycles: seq<Cycle>, base: seq<Cycle>)
    ensures forall f :: f in Disallowed(cycles, base) <==>
      f.CycleNew? && f.cycle in cycles && !NoWider(Elements(f.cycle), base)
  {
    hide NoWider, CycleAllowed;
    if cycles != [] {
      DisallowedAre(Front(cycles), base);
      AllowedMeans(Last(cycles), base);
      assert cycles == Front(cycles) + [Last(cycles)];
    }
  }

  /** Some cycle of the list has all these nodes; and no others, if there is only one. */
  predicate NoWider(nodes: set<string>, cs: seq<Cycle>) {
    exists b :: b in cs && nodes <= Elements(b) && (|nodes| == 1 ==> nodes == Elements(b))
  }

  lemma AllowedMeans(c: Cycle, cs: seq<Cycle>)
    ensures CycleAllowed(c, cs) <==> NoWider(Elements(c), cs)
  {
    if NoWider(Elements(c), cs) {
      var b :| b in cs && Elements(c) <= Elements(b) && (|Elements(c)| == 1 ==> Elements(c) == Elements(b));
      assert SetOf(b) in SetsOf(cs);
    }
  }

  lemma RatchetTrans(newest: Debt, mid: Debt, oldest: Debt)
    requires NonNegative(oldest) && RatchetPasses(newest, mid) && RatchetPasses(mid, oldest)
    ensures RatchetPasses(newest, oldest)
  {
  }

  /** Along any chain of accepted baselines, the newest one allows no more than the first: no
      count is above its count there, and every cycle lies inside one of its cycles. */
  lemma {:induction false} DebtNeverGrows(history: seq<Debt>)
    requires |history| > 1 && forall d :: d in history ==> NonNegative(d)
    requires forall i :: 0 <= i < |history| - 1 ==> RatchetPasses(history[i + 1], history[i])
    ensures RatchetPasses(Last(history), history[0])
    ensures forall r, k :: r in Last(history).rules && k in Last(history).rules[r] ==>
      Last(history).rules[r][k] <= Count(history[0], r, k)
    ensures forall c :: c in Last(history).cycles ==> NoWider(Elements(c), history[0].cycles)
    decreases |history|
  {
    hide RatchetPasses, NoWider;
    var n := |history|;
    assert RatchetPasses(history[n - 2 + 1], history[n - 2]);
    if n > 2 {
      DebtNeverGrows(Front(history));
      RatchetTrans(history[n - 1], history[n - 2], history[0]);
    }
    PassesMeans(Last(history), history[0]);
  }

  lemma PassesMeans(candidate: Debt, previous: Debt)
    requires RatchetPasses(candidate, previous)
    ensures forall r, k :: r in candidate.rules && k in candidate.rules[r] ==>
      candidate.rules[r][k] <= Count(previous, r, k)
    ensures forall c :: c in candidate.cycles ==> NoWider(Elements(c), previous.cycles)
  {
    hide CycleAllowed, NoWider;
    forall c | c in candidate.cycles
      ensures NoWider(Elements(c), previous.cycles)
    {
      AllowedMeans(c, previous.cycles);
    }
  }

  /** A scan that passes its own baseline is held to everything the target branch's baseline allows. */
  lemma PassingScanTightens(current: Debt, base: Debt, previous: Debt, failures: seq<Finding>, progress: seq<Finding>)
    requires NonNegative(current) && NonNegative(base) && NonNegative(previous)
    requires Compared(current, base, failures, progress) && !ShouldFail(failures, progress)
    requires RatchetPasses(base, previous)
    ensures forall r, k :: Count(current, r, k) <= Count(previous, r, k)
    ensures forall c :: c in current.cycles ==> NoWider(Elements(c), previous.cycles)
  {
    PassesWhen(current, base, failures, progress);
    CountsAgreeWhenCounting(current, base);
    hide Compared, ShouldFail, CountsAgree;
    forall r, k
      ensures Count(current, r, k) <= Count(previous, r, k)
    {
      assert Count(current, r, k) == Count(base, r, k);
    }
    forall c | c in current.cycles
      ensures NoWider(Elements(c), previous.cycles)
    {
      assert SetOf(c) in SetsOf(current.cycles);
      assert SetOf(c) in SetsOf(base.cycles);
      var b :| b in base.cycles && SetOf(b) == SetOf(c);
      assert CycleAllowed(b, previous.cycles);
      AllowedMeans(b, previous.cycles);
    }
  }
}
