// The effective policy of an agent: the most restrictive intersection of its layers
// (src/engines/control/policy-compile.ts).
module PolicyCompile {
  import opened Options

  type ResourceId = string
  type Rail = string

  datatype SpendPolicy = SpendPolicy(spendCap: int, perTransactionMax: int, serviceScope: seq<ResourceId>,
                                     railPermission: seq<Rail>, velocityLimitPerHour: int)

  datatype AllocationPolicy = AllocationPolicy(totalBudget: int, perAgentMax: int, cooldownSeconds: int, allowedDestinations: seq<string>)

  // ---- Combining one field ------------------------------------------------------------

  /** reduce((a, b) => b < a ? b : a) */
  function ReduceMin(values: seq<int>): (m: int)
    requires values != []
    ensures m in values && forall v :: v in values ==> m <= v
  {
    if |values| == 1 then values[0]
    else
      var a, b := ReduceMin(values[..|values| - 1]), values[|values| - 1];
      assert forall v :: v in values ==> v in values[..|values| - 1] || v == b;
      if b < a then b else a
  }

  function ReduceMax(values: seq<int>): (m: int)
    requires values != []
    ensures m in values && forall v :: v in values ==> v <= m
  {
    if |values| == 1 then values[0]
    else
      var a, b := ReduceMax(values[..|values| - 1]), values[|values| - 1];
      assert forall v :: v in values ==> v in values[..|values| - 1] || v == b;
      if b > a then b else a
  }

  predicate InAll<T(==)>(x: T, layers: seq<seq<T>>) { forall l :: l in layers ==> x in l }

  function KeepShared<T(!new,==)>(items: seq<T>, layers: seq<seq<T>>): (kept: seq<T>)
    ensures forall x :: x in kept <==> x in items && InAll(x, layers)
    ensures IsSubsequence(kept, items)
  {
    if items == [] then []
    else
      var rest := KeepShared(items[1..], layers);
      assert forall x :: x in items <==> x == items[0] || x in items[1..];
      if InAll(items[0], layers) then [items[0]] + rest else rest
  }

  /** The elements of s in their order, some left out. */
  predicate IsSubsequence<T(==)>(s: seq<T>, t: seq<T>) {
    if s == [] then true
    else if t == [] then false
    else if s[0] == t[0] && IsSubsequence(s[1..], t[1..]) then true
    else IsSubsequence(s, t[1..])
  }

  /** Elements present in every layer, in the first layer's order. */
  function IntersectAll<T(!new,==)>(layers: seq<seq<T>>): (shared: seq<T>)
    ensures layers != [] ==> (forall x :: x in shared <==> InAll(x, layers)) && IsSubsequence(shared, layers[0])
    ensures layers == [] ==> shared == []
  {
    if layers == [] then []
    else
      var shared := KeepShared(layers[0], layers);
      assert layers[0] in layers;
      shared
  }

  function Map<A, B>(f: A -> B, s: seq<A>): (r: seq<B>)
    ensures |r| == |s| && forall i :: 0 <= i < |s| ==> r[i] == f(s[i])
  {
    seq(|s|, i requires 0 <= i < |s| => f(s[i]))
  }

  // ---- Compiling the layers -----------------------------------------------------------------

  /** Without a layer there is nothing to compile: the call throws. */
  function CompileSpend(layers: seq<SpendPolicy>): Option<SpendPolicy> {
    if layers == [] then None
    else Some(SpendPolicy(
      ReduceMin(Map((l: SpendPolicy) => l.spendCap, layers)),
      ReduceMin(Map((l: SpendPolicy) => l.perTransactionMax, layers)),
      IntersectAll(Map((l: SpendPolicy) => l.serviceScope, layers)),
      IntersectAll(Map((l: SpendPolicy) => l.railPermission, layers)),
      ReduceMin(Map((l: SpendPolicy) => l.velocityLimitPerHour, layers))))
  }

  function CompileAllocation(layers: seq<AllocationPolicy>): Option<AllocationPolicy> {
    if layers == [] then None
    else Some(AllocationPolicy(
      ReduceMin(Map((l: AllocationPolicy) => l.totalBudget, layers)),
      ReduceMin(Map((l: AllocationPolicy) => l.perAgentMax, layers)),
      ReduceMax(Map((l: AllocationPolicy) => l.cooldownSeconds, layers)),
      IntersectAll(Map((l: AllocationPolicy) => l.allowedDestinations, layers))))
  }

  // ---- What a policy admits ------------------------------------------------------------------

  /** A payment as the guard judges it: what was already spent in the window and how many payments were made this hour. */
  datatype Spend = Spend(rail: Rail, resource: ResourceId, amount: int, spent: int, paymentsThisHour: int)

  predicate Admits(p: SpendPolicy, x: Spend) {
    && x.rail in p.railPermission && x.resource in p.serviceScope
    && x.amount <= p.perTransactionMax && x.spent + x.amount <= p.spendCap && x.paymentsThisHour < p.velocityLimitPerHour
  }

  datatype Allocation = Allocation(requested: int, destination: string, secondsSinceLast: Option<int>, outstanding: int)

  predicate CoolsDown(cooldown: int, since: Option<int>) { cooldown > 0 && since.Some? && since.value < cooldown }

  predicate AdmitsAllocation(p: AllocationPolicy, x: Allocation) {
    && x.requested <= p.perAgentMax && x.destination in p.allowedDestinations
    && !CoolsDown(p.cooldownSeconds, x.secondsSinceLast) && x.requested <= p.totalBudget - x.outstanding
  }

  /** A minimum bounds a value exactly when every layer does. */
  lemma {:induction false} MinBounds(values: seq<int>, x: int)
    requires values != []
    ensures x <= ReduceMin(values) <==> forall i :: 0 <= i < |values| ==> x <= values[i]
  {
    var m := ReduceMin(values);
    var k :| 0 <= k < |values| && values[k] == m;
    assert forall i :: 0 <= i < |values| ==> values[i] in values;
  }

  lemma SharedIn<T(!new)>(layers: seq<seq<T>>, x: T)
    requires layers != []
    ensures x in IntersectAll(layers) <==> forall i :: 0 <= i < |layers| ==> x in layers[i]
  {
  }

  /** The compiled policy admits a payment if and only if every layer admits it. */
  lemma SpendMeansEveryLayer(layers: seq<SpendPolicy>, x: Spend)
    requires layers != []
    ensures Admits(CompileSpend(layers).value, x) <==> forall l :: l in layers ==> Admits(l, x)
  {
    var caps, maxima := Map((l: SpendPolicy) => l.spendCap, layers), Map((l: SpendPolicy) => l.perTransactionMax, layers);
    var limits := Map((l: SpendPolicy) => l.velocityLimitPerHour, layers);
    var scopes, rails := Map((l: SpendPolicy) => l.serviceScope, layers), Map((l: SpendPolicy) => l.railPermission, layers);
    MinBounds(caps, x.spent + x.amount);
    MinBounds(maxima, x.amount);
    MinBounds(limits, x.paymentsThisHour + 1);
    SharedIn(scopes, x.resource);
    SharedIn(rails, x.rail);
    var compiled := CompileSpend(layers).value;
    if Admits(compiled, x) {
      forall i | 0 <= i < |layers|
        ensures Admits(layers[i], x)
      {
        assert x.spent + x.amount <= caps[i] && x.amount <= maxima[i] && x.paymentsThisHour + 1 <= limits[i];
        assert x.resource in scopes[i] && x.rail in rails[i];
      }
    }
    if forall l :: l in layers ==> Admits(l, x) {
      assert forall i :: 0 <= i < |layers| ==> Admits(layers[i], x);
    }
  }

  lemma AllocationMeansEveryLayer(layers: seq<AllocationPolicy>, x: Allocation)
    requires layers != []
    ensures AdmitsAllocation(CompileAllocation(layers).value, x) <==> forall l :: l in layers ==> AdmitsAllocation(l, x)
  {
    var budgets, maxima := Map((l: AllocationPolicy) => l.totalBudget, layers), Map((l: AllocationPolicy) => l.perAgentMax, layers);
    var cooldowns, places := Map((l: AllocationPolicy) => l.cooldownSeconds, layers), Map((l: AllocationPolicy) => l.allowedDestinations, layers);
    MinBounds(budgets, x.requested + x.outstanding);
    MinBounds(maxima, x.requested);
    SharedIn(places, x.destination);
    var longest := ReduceMax(cooldowns);
    assert exists k :: 0 <= k < |layers| && cooldowns[k] == longest;
    var compiled := CompileAllocation(layers).value;
    if AdmitsAllocation(compiled, x) {
      forall i | 0 <= i < |layers|
        ensures AdmitsAllocation(layers[i], x)
      {
        assert x.requested + x.outstanding <= budgets[i] && x.requested <= maxima[i] && x.destination in places[i] && cooldowns[i] in cooldowns;
      }
    }
    if forall l :: l in layers ==> AdmitsAllocation(l, x) {
      assert forall i :: 0 <= i < |layers| ==> AdmitsAllocation(layers[i], x);
    }
  }

  // ---- The compiled policy is the greatest lower bound of its layers ----------------------------

  predicate Narrows(p: SpendPolicy, q: SpendPolicy) {
    && p.spendCap <= q.spendCap && p.perTransactionMax <= q.perTransactionMax && p.velocityLimitPerHour <= q.velocityLimitPerHour
    && (forall x :: x in p.serviceScope ==> x in q.serviceScope)
    && (forall x :: x in p.railPermission ==> x in q.railPermission)
  }

  predicate NarrowsAllocation(p: AllocationPolicy, q: AllocationPolicy) {
    && p.totalBudget <= q.totalBudget && p.perAgentMax <= q.perAgentMax && p.cooldownSeconds >= q.cooldownSeconds
    && (forall x :: x in p.allowedDestinations ==> x in q.allowedDestinations)
  }

  /** A policy narrows the compiled one if and only if it narrows every layer. */
  lemma CompiledIsGreatest(layers: seq<SpendPolicy>, p: SpendPolicy)
    requires layers != []
    ensures Narrows(p, CompileSpend(layers).value) <==> forall l :: l in layers ==> Narrows(p, l)
  {
    var caps, maxima := Map((l: SpendPolicy) => l.spendCap, layers), Map((l: SpendPolicy) => l.perTransactionMax, layers);
    var limits := Map((l: SpendPolicy) => l.velocityLimitPerHour, layers);
    var scopes, rails := Map((l: SpendPolicy) => l.serviceScope, layers), Map((l: SpendPolicy) => l.railPermission, layers);
    MinBounds(caps, p.spendCap);
    MinBounds(maxima, p.perTransactionMax);
    MinBounds(limits, p.velocityLimitPerHour);
    forall x
      ensures x in IntersectAll(scopes) <==> forall i :: 0 <= i < |layers| ==> x in layers[i].serviceScope
      ensures x in IntersectAll(rails) <==> forall i :: 0 <= i < |layers| ==> x in layers[i].railPermission
    {
      SharedIn(scopes, x);
      SharedIn(rails, x);
    }
    if Narrows(p, CompileSpend(layers).value) {
      forall i | 0 <= i < |layers|
        ensures Narrows(p, layers[i])
      {
        assert p.spendCap <= caps[i] && p.perTransactionMax <= maxima[i] && p.velocityLimitPerHour <= limits[i];
      }
    }
    if forall l :: l in layers ==> Narrows(p, l) {
      assert forall i :: 0 <= i < |layers| ==> Narrows(p, layers[i]);
    }
  }

  lemma CompiledAllocationIsGreatest(layers: seq<AllocationPolicy>, p: AllocationPolicy)
    requires layers != []
    ensures NarrowsAllocation(p, CompileAllocation(layers).value) <==> forall l :: l in layers ==> NarrowsAllocation(p, l)
  {
    var budgets, maxima := Map((l: AllocationPolicy) => l.totalBudget, layers), Map((l: AllocationPolicy) => l.perAgentMax, layers);
    var cooldowns, places := Map((l: AllocationPolicy) => l.cooldownSeconds, layers), Map((l: AllocationPolicy) => l.allowedDestinations, layers);
    MinBounds(budgets, p.totalBudget);
    MinBounds(maxima, p.perAgentMax);
    assert exists k :: 0 <= k < |layers| && cooldowns[k] == ReduceMax(cooldowns);
    forall x
      ensures x in IntersectAll(places) <==> forall i :: 0 <= i < |layers| ==> x in layers[i].allowedDestinations
    {
      SharedIn(places, x);
    }
    if NarrowsAllocation(p, CompileAllocation(layers).value) {
      forall i | 0 <= i < |layers|
        ensures NarrowsAllocation(p, layers[i])
      {
        assert p.totalBudget <= budgets[i] && p.perAgentMax <= maxima[i] && cooldowns[i] in cooldowns;
      }
    }
    if forall l :: l in layers ==> NarrowsAllocation(p, l) {
      assert forall i :: 0 <= i < |layers| ==> NarrowsAllocation(p, layers[i]);
    }
  }

  // ---- Adding and reordering layers ---------------------------------------------------------------

  /** A child can only narrow its parents: more layers, wherever they stand, never admit more. */
  lemma MoreLayersAdmitLess(few: seq<SpendPolicy>, many: seq<SpendPolicy>, x: Spend)
    requires few != [] && many != [] && forall l :: l in few ==> l in many
    ensures Admits(CompileSpend(many).value, x) ==> Admits(CompileSpend(few).value, x)
  {
    SpendMeansEveryLayer(few, x);
    SpendMeansEveryLayer(many, x);
  }

  lemma MoreLayersAllocateLess(few: seq<AllocationPolicy>, many: seq<AllocationPolicy>, x: Allocation)
    requires few != [] && many != [] && forall l :: l in few ==> l in many
    ensures AdmitsAllocation(CompileAllocation(many).value, x) ==> AdmitsAllocation(CompileAllocation(few).value, x)
  {
    AllocationMeansEveryLayer(few, x);
    AllocationMeansEveryLayer(many, x);
  }

  /** Reordering brings no layer in and leaves none out. */
  lemma Reordered<T>(layers: seq<T>, other: seq<T>)
    requires layers != [] && multiset(other) == multiset(layers)
    ensures other != [] && forall l :: l in other <==> l in layers
  {
    assert |multiset(other)| == |multiset(layers)|;
    assert forall l :: l in other <==> l in multiset(other);
    assert forall l :: l in layers <==> l in multiset(layers);
  }

  /** The order of layers changes neither bounds nor what is admitted, only the order of the allowlists. */
  lemma OrderIsIrrelevant(layers: seq<SpendPolicy>, other: seq<SpendPolicy>, x: Spend)
    requires layers != [] && multiset(other) == multiset(layers)
    ensures other != [] && (Admits(CompileSpend(other).value, x) <==> Admits(CompileSpend(layers).value, x))
    ensures Narrows(CompileSpend(other).value, CompileSpend(layers).value) && Narrows(CompileSpend(layers).value, CompileSpend(other).value)
  {
    Reordered(layers, other);
    SpendMeansEveryLayer(layers, x);
    SpendMeansEveryLayer(other, x);
    CompiledIsGreatest(layers, CompileSpend(other).value);
    CompiledIsGreatest(other, CompileSpend(other).value);
    CompiledIsGreatest(other, CompileSpend(layers).value);
    CompiledIsGreatest(layers, CompileSpend(layers).value);
  }

  lemma AllocationOrderIsIrrelevant(layers: seq<AllocationPolicy>, other: seq<AllocationPolicy>, x: Allocation)
    requires layers != [] && multiset(other) == multiset(layers)
    ensures other != [] && (AdmitsAllocation(CompileAllocation(other).value, x) <==> AdmitsAllocation(CompileAllocation(layers).value, x))
    ensures NarrowsAllocation(CompileAllocation(other).value, CompileAllocation(layers).value)
    ensures NarrowsAllocation(CompileAllocation(layers).value, CompileAllocation(other).value)
  {
    Reordered(layers, other);
    AllocationMeansEveryLayer(layers, x);
    AllocationMeansEveryLayer(other, x);
    CompiledAllocationIsGreatest(layers, CompileAllocation(other).value);
    CompiledAllocationIsGreatest(other, CompileAllocation(other).value);
    CompiledAllocationIsGreatest(other, CompileAllocation(layers).value);
    CompiledAllocationIsGreatest(layers, CompileAllocation(layers).value);
  }
}
