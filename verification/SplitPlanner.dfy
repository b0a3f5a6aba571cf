/** The just-in-time split planner (src/spark.rs): when no set of whole leaves
    pays an amount exactly, find one leaf whose two children complete it. */
module SplitPlanner {
  import opened Basics
  import opened Amounts

  datatype Leaf = Leaf(id: nat, value: u64)

  /** `selected` are whole leaves used beside the new child worth `needed`;
      `parent` becomes the two children `[needed, change]`. */
  datatype Plan = Plan(selected: seq<Leaf>, parent: Leaf, needed: u64, change: u64)

  function Total(s: seq<Leaf>): nat {
    if s == [] then 0 else s[0].value + Total(s[1..])
  }

  lemma {:induction false} TotalAppend(a: seq<Leaf>, b: seq<Leaf>)
    ensures Total(a + b) == Total(a) + Total(b)
  {
    if a == [] {
      assert a + b == b;
    } else {
      assert (a + b)[1..] == a[1..] + b;
      TotalAppend(a[1..], b);
    }
  }

  lemma {:induction false} TotalRemoveAt(s: seq<Leaf>, i: nat)
    requires i < |s|
    ensures Total(s) == Total(RemoveAt(s, i)) + s[i].value
  {
    if i == 0 {
      assert RemoveAt(s, 0) == s[1..];
    } else {
      TotalRemoveAt(s[1..], i - 1);
      assert RemoveAt(s, i)[1..] == RemoveAt(s[1..], i - 1);
    }
  }

  /** A bag of leaves inside another one is worth no more. */
  lemma {:induction false} TotalWithin(a: seq<Leaf>, b: seq<Leaf>)
    requires multiset(a) <= multiset(b)
    ensures Total(a) <= Total(b)
    decreases |a|
  {
    if a != [] {
      var i := DropHead(a, b);
      TotalWithin(a[1..], RemoveAt(b, i));
      TotalRemoveAt(b, i);
    }
  }

  lemma TotalPermutation(a: seq<Leaf>, b: seq<Leaf>)
    requires multiset(a) == multiset(b)
    ensures Total(a) == Total(b)
  {
    TotalWithin(a, b);
    TotalWithin(b, a);
  }

  function Values(s: seq<Leaf>): (v: seq<nat>)
    ensures |v| == |s| && forall i :: 0 <= i < |s| ==> v[i] == s[i].value
  {
    seq(|s|, i requires 0 <= i < |s| => s[i].value)
  }

  lemma {:induction false} TotalIsSum(s: seq<Leaf>)
    ensures Total(s) == Sum(Values(s))
  {
    if s != [] {
      TotalIsSum(s[1..]);
      assert Values(s)[1..] == Values(s[1..]);
    }
  }

  lemma ValuesRemoveAt(s: seq<Leaf>, i: nat)
    requires i < |s|
    ensures multiset(Values(s)) == multiset(Values(RemoveAt(s, i))) + multiset{s[i].value}
  {
    var v := Values(s);
    RemoveAtMultiset(v, i);
    assert RemoveAt(v, i) == Values(RemoveAt(s, i));
  }

  lemma {:induction false} ValuesPermutation(a: seq<Leaf>, b: seq<Leaf>)
    requires multiset(a) == multiset(b)
    ensures multiset(Values(a)) == multiset(Values(b))
    decreases |a|
  {
    assert |a| == |multiset(a)| == |b|;
    if a != [] {
      var i := DropHead(a, b);
      ValuesPermutation(a[1..], RemoveAt(b, i));
      ValuesRemoveAt(b, i);
      ValuesRemoveAt(a, 0);
      assert RemoveAt(a, 0) == a[1..];
    } else {
      assert b == [];
    }
  }

  /** A stable sort by descending value. */
  function InsertDescending(x: Leaf, s: seq<Leaf>): (r: seq<Leaf>)
    ensures |r| == |s| + 1
  {
    if s == [] || x.value >= s[0].value then [x] + s
    else [s[0]] + InsertDescending(x, s[1..])
  }

  function SortDescending(s: seq<Leaf>): (r: seq<Leaf>)
    ensures |r| == |s|
  {
    if s == [] then [] else InsertDescending(s[0], SortDescending(s[1..]))
  }

  predicate SortedDescending(s: seq<Leaf>) {
    forall i, j :: 0 <= i < j < |s| ==> s[i].value >= s[j].value
  }

  lemma {:induction false} InsertDescendingKeeps(x: Leaf, s: seq<Leaf>)
    ensures multiset(InsertDescending(x, s)) == multiset([x] + s)
  {
    if s != [] && x.value < s[0].value {
      InsertDescendingKeeps(x, s[1..]);
      assert s == [s[0]] + s[1..];
      ConcatSwap([s[0]], [x], s[1..], InsertDescending(x, s[1..]));
    }
  }

  lemma {:induction false} InsertDescendingSorts(x: Leaf, s: seq<Leaf>)
    requires SortedDescending(s)
    ensures SortedDescending(InsertDescending(x, s))
  {
    if s != [] && x.value < s[0].value {
      var rest := InsertDescending(x, s[1..]);
      InsertDescendingSorts(x, s[1..]);
      InsertDescendingKeeps(x, s[1..]);
      forall j | 0 <= j < |rest| ensures rest[j].value <= s[0].value {
        assert rest[j] in multiset(rest);
        assert rest[j] in [x] + s[1..];
      }
    }
  }

  lemma {:induction false} SortDescendingSorts(s: seq<Leaf>)
    ensures SortedDescending(SortDescending(s))
    ensures multiset(SortDescending(s)) == multiset(s)
  {
    if s != [] {
      var rest := SortDescending(s[1..]);
      SortDescendingSorts(s[1..]);
      InsertDescendingSorts(s[0], rest);
      InsertDescendingKeeps(s[0], rest);
      assert s == [s[0]] + s[1..];
      assert multiset([s[0]] + rest) == multiset([s[0]] + s[1..]);
    }
  }

  /** Walk the candidates once and keep each one that still fits under `cap`. */
  function Greedy(cands: seq<Leaf>, cap: u64, acc: u64): (r: seq<Leaf>)
    requires acc <= cap
    ensures acc + Total(r) <= cap
  {
    if cands == [] then []
    else if acc + cands[0].value <= cap then
      [cands[0]] + Greedy(cands[1..], cap, acc + cands[0].value)
    else
      Greedy(cands[1..], cap, acc)
  }

  /** The candidates greedy walks past. */
  function LeftOut(cands: seq<Leaf>, cap: u64, acc: u64): (r: seq<Leaf>)
    requires acc <= cap
  {
    if cands == [] then []
    else if acc + cands[0].value <= cap then LeftOut(cands[1..], cap, acc + cands[0].value)
    else [cands[0]] + LeftOut(cands[1..], cap, acc)
  }

  lemma {:induction false} GreedyPartitions(cands: seq<Leaf>, cap: u64, acc: u64)
    requires acc <= cap
    ensures multiset(cands) == multiset(Greedy(cands, cap, acc)) + multiset(LeftOut(cands, cap, acc))
  {
    if cands != [] {
      var head := [cands[0]];
      assert cands == head + cands[1..];
      var next := if acc + cands[0].value <= cap then acc + cands[0].value else acc;
      GreedyPartitions(cands[1..], cap, next);
      var kept, left := Greedy(cands[1..], cap, next), LeftOut(cands[1..], cap, next);
      if acc + cands[0].value <= cap {
        assert Greedy(cands, cap, acc) == head + kept && LeftOut(cands, cap, acc) == left;
        ConcatLeft(head, cands[1..], kept, left);
      } else {
        assert Greedy(cands, cap, acc) == kept && LeftOut(cands, cap, acc) == head + left;
        ConcatRight(head, cands[1..], kept, left);
      }
    }
  }

  /** Nothing greedy left out would still fit. */
  lemma {:induction false} GreedyMaximal(cands: seq<Leaf>, cap: u64, acc: u64, i: nat)
    requires acc <= cap && i < |LeftOut(cands, cap, acc)|
    ensures acc + Total(Greedy(cands, cap, acc)) + LeftOut(cands, cap, acc)[i].value > cap
  {
    if acc + cands[0].value <= cap {
      GreedyMaximal(cands[1..], cap, acc + cands[0].value, i);
      var rest := Greedy(cands[1..], cap, acc + cands[0].value);
      assert ([cands[0]] + rest)[1..] == rest;
    } else if i > 0 {
      GreedyMaximal(cands[1..], cap, acc, i - 1);
    }
  }

  method SelectExisting(cands: seq<Leaf>, cap: u64) returns (selected: seq<Leaf>, sats: u64)
    ensures selected == Greedy(cands, cap, 0) && sats == Total(selected)
  {
    selected, sats := [], 0;
    for i := 0 to |cands|
      invariant sats == Total(selected) && sats <= cap
      invariant selected + Greedy(cands[i..], cap, sats) == Greedy(cands, cap, 0)
    {
      GreedyStep(cands, i, cap, sats, selected);
      var next := CheckedAdd(sats, cands[i].value);
      if next.Some? && next.value <= cap {
        TotalAppend(selected, [cands[i]]);
        selected := selected + [cands[i]];
        sats := next.value;
      }
    }
    assert cands[|cands|..] == [];
  }

  lemma GreedyStep(cands: seq<Leaf>, i: nat, cap: u64, acc: u64, before: seq<Leaf>)
    requires i < |cands| && acc <= cap
    ensures if acc + cands[i].value <= cap
      then before + Greedy(cands[i..], cap, acc)
           == before + [cands[i]] + Greedy(cands[i + 1..], cap, acc + cands[i].value)
      else Greedy(cands[i..], cap, acc) == Greedy(cands[i + 1..], cap, acc)
  {
    assert cands[i..][0] == cands[i] && cands[i..][1..] == cands[i + 1..];
  }

  /** What the planner considers for one parent: the other leaves, largest
      first, fill the target up to `target - floor`; the parent covers the rest. */
  function Candidate(leaves: seq<Leaf>, target: u64, floor: u64, p: nat): (r: Option<Plan>)
    requires p < |leaves|
  {
    var selected := Greedy(SortDescending(RemoveAt(leaves, p)), SaturatingSub(target, floor), 0);
    var needed := target - Total(selected);
    if leaves[p].value < needed || needed < floor || leaves[p].value - needed < floor then None
    else Some(Plan(selected, leaves[p], needed, leaves[p].value - needed))
  }

  /** Order of preference: least change, then fewest whole leaves, then smallest parent. */
  predicate Better(a: Plan, b: Plan) {
    || a.change < b.change
    || (a.change == b.change && |a.selected| < |b.selected|)
    || (a.change == b.change && |a.selected| == |b.selected| && a.parent.value < b.parent.value)
  }

  /** `plan` is the first most preferred one among the first `n` parents. */
  ghost predicate BestAmong(leaves: seq<Leaf>, target: u64, floor: u64, n: nat, p: nat, plan: Plan)
    requires n <= |leaves|
  {
    && p < n
    && Candidate(leaves, target, floor, p) == Some(plan)
    && (forall q :: 0 <= q < n && Candidate(leaves, target, floor, q).Some? ==>
          !Better(Candidate(leaves, target, floor, q).value, plan))
    && (forall q :: 0 <= q < p && Candidate(leaves, target, floor, q).Some? ==>
          Better(plan, Candidate(leaves, target, floor, q).value))
  }

  method ConsiderParent(leaves: seq<Leaf>, target: u64, floor: u64, p: nat) returns (plan: Option<Plan>)
    requires p < |leaves|
    ensures plan == Candidate(leaves, target, floor, p)
  {
    var selected, sats := SelectExisting(SortDescending(RemoveAt(leaves, p)), SaturatingSub(target, floor));
    var needed := target - sats;
    var change := CheckedSub(leaves[p].value, needed);
    if change.None? || needed < floor || change.value < floor {
      return None;
    }
    return Some(Plan(selected, leaves[p], needed, change.value));
  }

  method PlanJustInTimeSplit(leaves: seq<Leaf>, target: u64, floor: u64)
    returns (best: Option<Plan>)
    ensures best.None? <==> !HasPlan(leaves, target, floor)
    ensures best.Some? ==> Admissible(leaves, target, floor, best.value)
    ensures best.Some? ==>
      exists p: nat :: BestAmong(leaves, target, floor, |leaves|, p, best.value)
  {
    best := None;
    if target == 0 || floor == 0 {
      return;
    }
    ghost var at: nat := 0;
    for p := 0 to |leaves|
      invariant best.None? ==> NoneAmong(leaves, target, floor, p)
      invariant best.Some? ==> BestAmong(leaves, target, floor, p, at, best.value)
    {
      var plan := ConsiderParent(leaves, target, floor, p);
      if plan.Some? && (best.None? || Better(plan.value, best.value)) {
        best := plan;
        at := p;
      }
    }
    if best.Some? {
      CandidateAdmissible(leaves, target, floor, at);
    }
  }

  ghost predicate NoneAmong(leaves: seq<Leaf>, target: u64, floor: u64, n: nat)
    requires n <= |leaves|
  {
    forall q :: 0 <= q < n ==> Candidate(leaves, target, floor, q).None?
  }

  ghost predicate HasPlan(leaves: seq<Leaf>, target: u64, floor: u64) {
    target > 0 && floor > 0 &&
    exists p :: 0 <= p < |leaves| && Candidate(leaves, target, floor, p).Some?
  }

  /** A split that would let the wallet pay `target` exactly: disjoint leaves,
      balanced amounts, both children at or above the floor. */
  ghost predicate Admissible(leaves: seq<Leaf>, target: u64, floor: u64, plan: Plan) {
    && multiset(plan.selected) + multiset{plan.parent} <= multiset(leaves)
    && Total(plan.selected) + plan.needed == target
    && plan.needed + plan.change == plan.parent.value
    && plan.needed >= floor && plan.change >= floor
  }

  lemma CandidateParts(leaves: seq<Leaf>, target: u64, floor: u64, p: nat) returns (unused: seq<Leaf>)
    requires p < |leaves| && Candidate(leaves, target, floor, p).Some?
    ensures var plan := Candidate(leaves, target, floor, p).value;
      && multiset(leaves) == multiset(plan.selected) + multiset(unused) + multiset{plan.parent}
      && forall i :: 0 <= i < |unused| ==> target < Total(plan.selected) + unused[i].value + floor
  {
    var others := SortDescending(RemoveAt(leaves, p));
    var cap := SaturatingSub(target, floor);
    unused := LeftOut(others, cap, 0);
    RemoveAtMultiset(leaves, p);
    SortDescendingSorts(RemoveAt(leaves, p));
    GreedyPartitions(others, cap, 0);
    forall i | 0 <= i < |unused| ensures cap < Total(Greedy(others, cap, 0)) + unused[i].value {
      GreedyMaximal(others, cap, 0, i);
    }
  }

  /** Every considered split is admissible. */
  lemma CandidateAdmissible(leaves: seq<Leaf>, target: u64, floor: u64, p: nat)
    requires p < |leaves| && Candidate(leaves, target, floor, p).Some?
    ensures Admissible(leaves, target, floor, Candidate(leaves, target, floor, p).value)
  {
    var _ := CandidateParts(leaves, target, floor, p);
  }

  /** The whole leaves of a considered split cannot be extended: any further
      leaf would push the new child below the floor. */
  lemma SelectionMaximal(leaves: seq<Leaf>, target: u64, floor: u64, p: nat, extra: Leaf)
    requires p < |leaves| && Candidate(leaves, target, floor, p).Some?
    requires var plan := Candidate(leaves, target, floor, p).value;
      multiset(plan.selected) + multiset{plan.parent} + multiset{extra} <= multiset(leaves)
    ensures Total(Candidate(leaves, target, floor, p).value.selected) + extra.value + floor > target
  {
    var plan := Candidate(leaves, target, floor, p).value;
    var unused := CandidateParts(leaves, target, floor, p);
    assert multiset(leaves)[extra] == (multiset(plan.selected) + multiset(unused) + multiset{plan.parent})[extra];
    assert multiset(leaves)[extra] >= (multiset(plan.selected) + multiset{plan.parent} + multiset{extra})[extra];
    assert extra in unused;
  }

  lemma PlanWithinTotal(leaves: seq<Leaf>, target: u64, floor: u64, plan: Plan)
    requires Admissible(leaves, target, floor, plan)
    ensures Total(leaves) >= target + floor
  {
    assert multiset(plan.selected + [plan.parent]) <= multiset(leaves);
    TotalWithin(plan.selected + [plan.parent], leaves);
    TotalAppend(plan.selected, [plan.parent]);
  }

  // ---- One split is enough ----

  ghost predicate ExactSubset(leaves: seq<Leaf>, target: nat) {
    exists chosen: seq<Leaf> :: multiset(chosen) <= multiset(leaves) && Total(chosen) == target
  }

  /** The wallet after the split: the parent is gone and both children exist. */
  ghost predicate IsSplit(before: seq<Leaf>, parent: Leaf, a: Leaf, b: Leaf, after: seq<Leaf>) {
    && parent in multiset(before)
    && multiset(after) == multiset(before) - multiset{parent} + multiset([a, b])
  }

  lemma SplitKeepsTotal(before: seq<Leaf>, parent: Leaf, a: Leaf, b: Leaf, after: seq<Leaf>)
    requires IsSplit(before, parent, a, b, after) && a.value + b.value == parent.value
    ensures Total(after) == Total(before)
  {
    var i :| 0 <= i < |before| && before[i] == parent;
    RemoveAtMultiset(before, i);
    TotalRemoveAt(before, i);
    ReplacedTotal(RemoveAt(before, i), a, b, after);
  }

  lemma ReplacedTotal(rest: seq<Leaf>, a: Leaf, b: Leaf, after: seq<Leaf>)
    requires multiset(after) == multiset(rest) + multiset([a, b])
    ensures Total(after) == Total(rest) + a.value + b.value
  {
    TotalAppend(rest, [a, b]);
    TotalAppend([a], [b]);
    assert [a] + [b] == [a, b];
    TotalPermutation(after, rest + [a, b]);
  }

  lemma FirstWithin(a: Leaf, b: Leaf)
    ensures multiset([a]) <= multiset([a, b])
  {
    assert [a, b] == [a] + [b];
  }

  /** After carrying out a plan some whole leaves pay the target exactly. */
  lemma SplitPaysTarget(before: seq<Leaf>, target: u64, floor: u64, plan: Plan, a: Leaf, b: Leaf, after: seq<Leaf>)
    requires Admissible(before, target, floor, plan)
    requires a.value == plan.needed && b.value == plan.change
    requires IsSplit(before, plan.parent, a, b, after)
    ensures ExactSubset(after, target)
  {
    var chosen := plan.selected + [a];
    TotalAppend(plan.selected, [a]);
    WithoutOne(multiset(plan.selected), multiset(before), plan.parent);
    FirstWithin(a, b);
    BothWithin(multiset(plan.selected), multiset(before) - multiset{plan.parent}, multiset([a]), multiset([a, b]));
    assert multiset(chosen) == multiset(plan.selected) + multiset([a]);
  }

  // ---- Completeness ----

  /** Greedy keeps a whole leading run whenever that run fits. */
  lemma {:induction false} GreedyKeepsPrefix(cands: seq<Leaf>, cap: u64, acc: u64, k: nat)
    requires acc <= cap && k <= |cands| && acc + Total(cands[..k]) <= cap
    ensures Total(Greedy(cands, cap, acc)) >= Total(cands[..k])
  {
    if k > 0 {
      assert cands[..k][1..] == cands[1..][..k - 1];
      GreedyKeepsPrefix(cands[1..], cap, acc + cands[0].value, k - 1);
    }
  }

  /** Dropping one leaf from the bag drops its value from the sorted values. */
  lemma SortedWithout(leaves: seq<Leaf>, p: nat, i: nat)
    requires p < |leaves| && i < |leaves|
    requires SortDescending(leaves)[i].value == leaves[p].value
    ensures Values(SortDescending(RemoveAt(leaves, p))) == RemoveAt(Values(SortDescending(leaves)), i)
  {
    SortedValues(leaves);
    SortedValues(RemoveAt(leaves, p));
    ValuesRemoveAt(leaves, p);
    DescendingWithout(Values(SortDescending(RemoveAt(leaves, p))), Values(SortDescending(leaves)), i);
  }

  lemma DescendingWithout(others: seq<nat>, sorted: seq<nat>, i: nat)
    requires Descending(others) && Descending(sorted) && i < |sorted|
    requires multiset(sorted) == multiset(others) + multiset{sorted[i]}
    ensures others == RemoveAt(sorted, i)
  {
    RemoveAtMultiset(sorted, i);
    assert multiset(others) == multiset(sorted) - multiset{sorted[i]};
    assert multiset(RemoveAt(sorted, i)) == multiset(sorted) - multiset{sorted[i]};
    DescendingUnique(others, RemoveAt(sorted, i));
  }

  lemma SortedValues(leaves: seq<Leaf>)
    ensures Descending(Values(SortDescending(leaves)))
    ensures multiset(Values(SortDescending(leaves))) == multiset(Values(leaves))
  {
    SortDescendingSorts(leaves);
    ValuesPermutation(SortDescending(leaves), leaves);
  }

  /** S(k): the total of the k largest leaves. */
  ghost function PrefixTotal(leaves: seq<Leaf>, k: nat): nat
    requires k <= |leaves|
  {
    Total(SortDescending(leaves)[..k])
  }

  lemma PrefixStep(leaves: seq<Leaf>, k: nat)
    requires 0 < k <= |leaves|
    ensures PrefixTotal(leaves, k) == PrefixTotal(leaves, k - 1) + SortDescending(leaves)[k - 1].value
  {
    TotalTakeStep(SortDescending(leaves), k);
  }

  lemma TotalTakeStep(s: seq<Leaf>, k: nat)
    requires 0 < k <= |s|
    ensures Total(s[..k]) == Total(s[..k - 1]) + s[k - 1].value
  {
    assert s[..k] == s[..k - 1] + [s[k - 1]];
    TotalAppend(s[..k - 1], [s[k - 1]]);
  }

  lemma PrefixOfOthers(leaves: seq<Leaf>, p: nat, i: nat)
    requires p < |leaves| && i < |leaves|
    requires SortDescending(leaves)[i].value == leaves[p].value
    ensures Total(SortDescending(RemoveAt(leaves, p))[..i]) == PrefixTotal(leaves, i)
  {
    SortedWithout(leaves, p, i);
    SameValuesPrefix(SortDescending(RemoveAt(leaves, p)), SortDescending(leaves), i);
  }

  lemma SameValuesPrefix(others: seq<Leaf>, sorted: seq<Leaf>, i: nat)
    requires i < |sorted| && Values(others) == RemoveAt(Values(sorted), i)
    ensures Total(others[..i]) == Total(sorted[..i])
  {
    assert |others| == |sorted| - 1;
    forall j | 0 <= j < i ensures others[j].value == sorted[j].value {
      assert Values(others)[j] == Values(sorted)[j];
    }
    TotalIsSum(sorted[..i]);
    TotalIsSum(others[..i]);
    assert Values(others[..i]) == Values(sorted[..i]);
  }

  /** Completeness: with prefix sums S over the leaves sorted largest first, a
      plan exists whenever S(k-1) + floor <= target and target + floor <= S(k). */
  lemma PlannerFindsPrefixSplit(leaves: seq<Leaf>, target: u64, floor: u64, k: nat)
    requires target > 0 && floor > 0 && 0 < k <= |leaves|
    requires PrefixTotal(leaves, k - 1) + floor <= target
    requires target + floor <= PrefixTotal(leaves, k)
    ensures HasPlan(leaves, target, floor)
  {
    SortDescendingSorts(leaves);
    assert SortDescending(leaves)[k - 1] in multiset(leaves);
    var p :| 0 <= p < |leaves| && leaves[p] == SortDescending(leaves)[k - 1];
    PrefixOfOthers(leaves, p, k - 1);
    GreedyKeepsPrefix(SortDescending(RemoveAt(leaves, p)), SaturatingSub(target, floor), 0, k - 1);
    PrefixStep(leaves, k);
    assert Candidate(leaves, target, floor, p).Some?;
  }

  /** The first prefix that reaches the target. */
  lemma {:induction false} FirstReaching(leaves: seq<Leaf>, target: u64, k: nat) returns (m: nat)
    requires k <= |leaves| && PrefixTotal(leaves, k) >= target > 0
    ensures 0 < m <= |leaves| && PrefixTotal(leaves, m - 1) < target <= PrefixTotal(leaves, m)
    decreases k
  {
    m := k;
    assert PrefixTotal(leaves, 0) == 0;
    if PrefixTotal(leaves, k - 1) >= target {
      m := FirstReaching(leaves, target, k - 1);
    }
  }

  lemma PrefixIsPayable(leaves: seq<Leaf>, k: nat)
    requires k <= |leaves|
    ensures ExactSubset(leaves, PrefixTotal(leaves, k))
  {
    var sorted := SortDescending(leaves);
    SortDescendingSorts(leaves);
    assert sorted == sorted[..k] + sorted[k..];
    assert multiset(sorted[..k]) <= multiset(leaves);
  }

  lemma WholePrefix(leaves: seq<Leaf>)
    ensures PrefixTotal(leaves, |leaves|) == Total(leaves)
  {
    SortDescendingSorts(leaves);
    TotalPermutation(leaves, SortDescending(leaves));
    assert SortDescending(leaves)[..|leaves|] == SortDescending(leaves);
  }

  lemma ReachedPrefixIsPayable(leaves: seq<Leaf>, target: u64)
    requires target > 0 && Total(leaves) >= target
    ensures ExactSubset(leaves, target) || HasPlan(leaves, target, 1)
  {
    WholePrefix(leaves);
    var k := FirstReaching(leaves, target, |leaves|);
    if PrefixTotal(leaves, k) == target {
      PrefixIsPayable(leaves, k);
    } else {
      PlannerFindsPrefixSplit(leaves, target, 1, k);
    }
  }

  /** At floor one the planner is complete: the target is payable, at once or
      after one split, exactly when the wallet holds at least that much. */
  lemma PlannerCompleteAtFloorOne(leaves: seq<Leaf>, target: u64)
    requires target > 0
    ensures ExactSubset(leaves, target) || HasPlan(leaves, target, 1) <==> Total(leaves) >= target
  {
    if HasPlan(leaves, target, 1) {
      PlanNeedsRoom(leaves, target, 1);
    }
    if ExactSubset(leaves, target) {
      var chosen: seq<Leaf> :| multiset(chosen) <= multiset(leaves) && Total(chosen) == target;
      TotalWithin(chosen, leaves);
    }
    if Total(leaves) >= target {
      ReachedPrefixIsPayable(leaves, target);
    }
  }

  /** For any floor, a plan needs room for both children: the wallet must hold
      the target plus one floor. */
  lemma PlanNeedsRoom(leaves: seq<Leaf>, target: u64, floor: u64)
    requires HasPlan(leaves, target, floor)
    ensures Total(leaves) >= target + floor
  {
    var p :| 0 <= p < |leaves| && Candidate(leaves, target, floor, p).Some?;
    CandidateAdmissible(leaves, target, floor, p);
    PlanWithinTotal(leaves, target, floor, Candidate(leaves, target, floor, p).value);
  }
}
