/** The denomination planner (src/spark.rs): match the wanted denominations
    against whole leaves one for one, and split a leaf for the first miss. */
module Denominations {
  import opened Basics
  import opened Amounts
  import opened SplitPlanner

  /** How many leading denominations find a leaf of their own. */
  function Matched(vs: multiset<nat>, ds: seq<nat>): (k: nat)
    ensures k <= |ds|
  {
    if ds == [] || ds[0] !in vs then 0 else 1 + Matched(vs - multiset{ds[0]}, ds[1..])
  }

  lemma HeadTake(ds: seq<nat>, k: nat)
    requires 0 < k <= |ds|
    ensures multiset(ds[..k]) == multiset{ds[0]} + multiset(ds[1..][..k - 1])
  {
    assert ds[..k] == [ds[0]] + ds[1..][..k - 1];
  }

  /** A leading run matches exactly when it is contained in the leaf values. */
  lemma {:induction false} MatchedIff(vs: multiset<nat>, ds: seq<nat>, k: nat)
    requires k <= |ds|
    ensures k <= Matched(vs, ds) <==> multiset(ds[..k]) <= vs
  {
    if k > 0 {
      HeadTake(ds, k);
      if ds[0] in vs {
        MatchedIff(vs - multiset{ds[0]}, ds[1..], k - 1);
      } else {
        assert ds[0] in multiset(ds[..k]);
      }
    }
  }

  /** The leaf values no matched denomination uses. */
  ghost function Spare(vs: multiset<nat>, ds: seq<nat>): multiset<nat> {
    vs - multiset(ds[..Matched(vs, ds)])
  }

  lemma MatchedFrom(vs: multiset<nat>, rest: multiset<nat>, ds: seq<nat>, k: nat)
    requires k <= |ds| && rest + multiset(ds[..k]) == vs
    requires k == |ds| || ds[k] !in rest
    ensures Matched(vs, ds) == k && Spare(vs, ds) == rest
  {
    hide Matched;
    MatchedIff(vs, ds, k);
    if k < |ds| {
      MatchedIff(vs, ds, k + 1);
      NoRoomFor(vs, rest, ds[..k], ds[k]);
      assert ds[..k + 1] == ds[..k] + [ds[k]];
    }
    assert ds[..Matched(vs, ds)] == ds[..k];
    assert rest == vs - multiset(ds[..k]);
  }

  lemma NoRoomFor(vs: multiset<nat>, rest: multiset<nat>, taken: seq<nat>, d: nat)
    requires rest + multiset(taken) == vs && d !in rest
    ensures !(multiset(taken + [d]) <= vs)
  {
    assert multiset(taken + [d])[d] == multiset(taken)[d] + 1;
    assert vs[d] == rest[d] + multiset(taken)[d];
  }

  ghost function Bag(leaves: seq<Leaf>): multiset<nat> {
    multiset(Values(leaves))
  }

  /** The first leaf with the given value. */
  function Position(leaves: seq<Leaf>, value: u64): (i: Option<nat>)
    ensures i.Some? ==> i.value < |leaves| && leaves[i.value].value == value
    ensures i.None? ==> forall l :: l in leaves ==> l.value != value
  {
    if leaves == [] then None
    else if leaves[0].value == value then Some(0)
    else
      var rest := Position(leaves[1..], value);
      assert forall l :: l in leaves ==> l == leaves[0] || l in leaves[1..];
      if rest.None? then None else Some(rest.value + 1)
  }

  lemma AbsentFromBag(leaves: seq<Leaf>, value: u64)
    requires forall l :: l in leaves ==> l.value != value
    ensures value !in Bag(leaves)
  {
  }

  /** `missing` is the first denomination without a leaf, `remaining` the leaves
      the earlier denominations did not take. */
  method MatchDenominations(leaves: seq<Leaf>, denominations: seq<u64>)
    returns (remaining: seq<Leaf>, missing: Option<u64>)
    ensures Bag(remaining) == Spare(Bag(leaves), denominations)
    ensures missing.None? <==> Matched(Bag(leaves), denominations) == |denominations|
    ensures missing.Some? ==> missing.value == denominations[Matched(Bag(leaves), denominations)]
    ensures forall l :: l in remaining ==> l in leaves
  {
    remaining, missing := leaves, None;
    var k := 0;
    while k < |denominations|
      invariant 0 <= k <= |denominations|
      invariant Bag(remaining) + multiset(denominations[..k]) == Bag(leaves)
      invariant forall l :: l in remaining ==> l in leaves
    {
      var index := Position(remaining, denominations[k]);
      if index.None? {
        AbsentFromBag(remaining, denominations[k]);
        missing := Some(denominations[k]);
        MatchedFrom(Bag(leaves), Bag(remaining), denominations, k);
        return;
      }
      ValuesRemoveAt(remaining, index.value);
      assert denominations[..k + 1] == denominations[..k] + [denominations[k]];
      TakeOne(Bag(leaves), Bag(remaining), Bag(RemoveAt(remaining, index.value)), denominations[..k], denominations[k]);
      remaining := RemoveAt(remaining, index.value);
      k := k + 1;
    }
    assert denominations[..k] == denominations;
    MatchedFrom(Bag(leaves), Bag(remaining), denominations, k);
  }

  lemma TakeOne(all: multiset<nat>, before: multiset<nat>, after: multiset<nat>, taken: seq<nat>, d: nat)
    requires before + multiset(taken) == all && before == after + multiset{d}
    ensures after + multiset(taken + [d]) == all
  {
    assert multiset(taken + [d]) == multiset(taken) + multiset{d};
  }

  /** The smallest leaf that leaves change of at least the floor, and the first of
      those of its value. */
  method Cheapest(remaining: seq<Leaf>, missing: u64, floor: u64) returns (plan: Option<(Leaf, u64, u64)>)
    ensures plan.Some? ==> plan.value.0 in remaining && plan.value.1 == missing
    ensures plan.Some? ==> missing + plan.value.2 == plan.value.0.value && plan.value.2 >= floor
    ensures forall l :: l in remaining && l.value >= missing + floor ==>
      plan.Some? && plan.value.0.value <= l.value
    ensures plan.Some? ==> exists p: nat :: FirstAt(remaining, p, plan.value.0)
  {
    plan := None;
    ghost var at: nat := 0;
    for i := 0 to |remaining|
      invariant plan.Some? ==> plan.value.0 in remaining && plan.value.1 == missing
      invariant plan.Some? ==> missing + plan.value.2 == plan.value.0.value && plan.value.2 >= floor
      invariant forall j :: 0 <= j < i && remaining[j].value >= missing + floor ==>
        plan.Some? && plan.value.0.value <= remaining[j].value
      invariant plan.Some? ==> FirstAt(remaining, at, plan.value.0)
    {
      var change := CheckedSub(remaining[i].value, missing);
      if change.Some? && change.value >= floor && (plan.None? || change.value < plan.value.2) {
        plan := Some((remaining[i], missing, change.value));
        at := i;
      }
    }
  }

  predicate FirstAt(leaves: seq<Leaf>, p: nat, leaf: Leaf) {
    p < |leaves| && leaves[p] == leaf && forall q :: 0 <= q < p ==> leaves[q].value != leaf.value
  }

  lemma BagHas(leaves: seq<Leaf>, v: nat)
    ensures v in Bag(leaves) <==> exists l :: l in leaves && l.value == v
  {
    if v in Bag(leaves) {
      var j :| 0 <= j < |Values(leaves)| && Values(leaves)[j] == v;
      assert leaves[j] in leaves;
    }
    if l :| l in leaves && l.value == v {
      var j :| 0 <= j < |leaves| && leaves[j] == l;
      assert Values(leaves)[j] == v;
    }
  }

  method PlanDenominationSplit(leaves: seq<Leaf>, denominations: seq<u64>, floor: u64)
    returns (plan: Option<(Leaf, u64, u64)>)
    ensures plan.Some? ==> Valid(leaves, denominations, floor, plan.value.0, plan.value.1, plan.value.2)
    ensures plan.Some? ==> forall v :: v in Spare(Bag(leaves), denominations) && v >= plan.value.1 + floor ==>
      plan.value.0.value <= v
    ensures plan.Some? <==> CanSplit(Bag(leaves), denominations, floor)
  {
    if denominations == [] || 0 in denominations || floor == 0 {
      return None;
    }
    var remaining, missing := MatchDenominations(leaves, denominations);
    if missing.None? || missing.value < floor {
      return None;
    }
    plan := Cheapest(remaining, missing.value, floor);
    forall v | v in Bag(remaining) && v >= missing.value + floor
      ensures plan.Some? && plan.value.0.value <= v
    {
      BagHas(remaining, v);
    }
    if plan.Some? {
      BagHas(remaining, plan.value.0.value);
    }
  }

  /** The split serves the first missing denomination, and its parent is a leaf
      that no matched denomination uses. */
  ghost predicate Valid(leaves: seq<Leaf>, ds: seq<nat>, floor: u64, parent: Leaf, needed: u64, change: u64) {
    var k := Matched(Bag(leaves), ds);
    && k < |ds| && needed == ds[k]
    && parent in leaves && parent.value in Spare(Bag(leaves), ds)
    && needed + change == parent.value && needed >= floor && change >= floor
  }

  ghost predicate CanSplit(vs: multiset<nat>, ds: seq<nat>, floor: u64) {
    && 0 !in ds && floor > 0
    && Matched(vs, ds) < |ds| && ds[Matched(vs, ds)] >= floor
    && exists v :: v in Spare(vs, ds) && v >= ds[Matched(vs, ds)] + floor
  }

  lemma OneMore(vs: multiset<nat>, taken: seq<nat>, d: nat, parent: nat, change: nat)
    requires multiset(taken) <= vs && parent in vs - multiset(taken)
    ensures multiset(taken + [d]) <= vs - multiset{parent} + multiset{d, change}
  {
    assert multiset(taken + [d]) == multiset(taken) + multiset{d};
    forall y ensures (multiset(taken) + multiset{d})[y] <= (vs - multiset{parent} + multiset{d, change})[y] {
      assert multiset(taken)[y] <= vs[y];
    }
  }

  /** Each split strictly lengthens the matched run. */
  lemma SplitLengthensMatch(vs: multiset<nat>, ds: seq<nat>, parent: nat, change: nat)
    requires Matched(vs, ds) < |ds| && parent in Spare(vs, ds)
    ensures Matched(vs - multiset{parent} + multiset{ds[Matched(vs, ds)], change}, ds) > Matched(vs, ds)
  {
    hide Matched;
    var k := Matched(vs, ds);
    MatchedIff(vs, ds, k);
    OneMore(vs, ds[..k], ds[k], parent, change);
    assert ds[..k + 1] == ds[..k] + [ds[k]];
    MatchedIff(vs - multiset{parent} + multiset{ds[k], change}, ds, k + 1);
  }
}
