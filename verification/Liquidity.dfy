/** The two repair loops (src/spark.rs): split leaves until the wallet can pay
    an exact amount, or an exact list of amounts. */
module Liquidity {
  import opened Basics
  import opened Amounts
  import opened SplitPlanner
  import opened Denominations

  // ---- Exact selection ----

  /** The sum of the leaves that `assign` gives to amount `j`. */
  function GroupSum(vs: seq<nat>, assign: seq<nat>, j: nat): nat
    requires |assign| == |vs|
  {
    if vs == [] then 0
    else (if assign[0] == j then vs[0] else 0) + GroupSum(vs[1..], assign[1..], j)
  }

  /** Each leaf pays at most one amount, and each amount is paid exactly. */
  ghost predicate Pays(vs: seq<nat>, assign: seq<nat>, amounts: seq<nat>) {
    && |assign| == |vs|
    && forall j :: 0 <= j < |amounts| ==> GroupSum(vs, assign, j) == amounts[j]
  }

  ghost predicate Payable(vs: seq<nat>, amounts: seq<nat>) {
    exists assign: seq<nat> :: Pays(vs, assign, amounts)
  }

  /** The contract of the wallet library's exact selection: it succeeds when,
      and only when, an exact selection exists (SelectableIff). */
  predicate Selectable(vs: seq<nat>, amounts: seq<nat>)
    decreases |vs|
  {
    if vs == [] then forall j :: 0 <= j < |amounts| ==> amounts[j] == 0
    else
      || Selectable(vs[1..], amounts)
      || exists j :: 0 <= j < |amounts| && vs[0] <= amounts[j] && Selectable(vs[1..], amounts[j := amounts[j] - vs[0]])
  }

  lemma {:induction false} PayableIsSelectable(vs: seq<nat>, assign: seq<nat>, amounts: seq<nat>)
    requires Pays(vs, assign, amounts)
    ensures Selectable(vs, amounts)
    decreases |vs|
  {
    if vs != [] {
      var j := assign[0];
      if j < |amounts| {
        assert GroupSum(vs, assign, j) == amounts[j];
        PayableIsSelectable(vs[1..], assign[1..], amounts[j := amounts[j] - vs[0]]);
      } else {
        PayableIsSelectable(vs[1..], assign[1..], amounts);
      }
    } else {
      forall j | 0 <= j < |amounts| ensures amounts[j] == 0 {
        assert GroupSum(vs, assign, j) == amounts[j];
      }
    }
  }

  lemma {:induction false} SelectableIsPayable(vs: seq<nat>, amounts: seq<nat>) returns (assign: seq<nat>)
    requires Selectable(vs, amounts)
    ensures Pays(vs, assign, amounts)
    decreases |vs|
  {
    if vs == [] {
      assign := [];
    } else if Selectable(vs[1..], amounts) {
      var rest := SelectableIsPayable(vs[1..], amounts);
      assign := [|amounts|] + rest;
      assert assign[1..] == rest;
    } else {
      var j :| 0 <= j < |amounts| && vs[0] <= amounts[j] && Selectable(vs[1..], amounts[j := amounts[j] - vs[0]]);
      var rest := SelectableIsPayable(vs[1..], amounts[j := amounts[j] - vs[0]]);
      assign := [j] + rest;
      assert assign[1..] == rest;
      forall i | 0 <= i < |amounts| ensures GroupSum(vs, assign, i) == amounts[i] {
        assert GroupSum(vs[1..], rest, i) == amounts[j := amounts[j] - vs[0]][i];
      }
    }
  }

  lemma SelectableIff(vs: seq<nat>, amounts: seq<nat>)
    ensures Selectable(vs, amounts) <==> Payable(vs, amounts)
  {
    if Selectable(vs, amounts) {
      var assign := SelectableIsPayable(vs, amounts);
    }
    if Payable(vs, amounts) {
      var assign: seq<nat> :| Pays(vs, assign, amounts);
      PayableIsSelectable(vs, assign, amounts);
    }
  }

  lemma SelectStep(vs: seq<nat>, amounts: seq<nat>, j: nat)
    requires vs != [] && j < |amounts| && vs[0] <= amounts[j]
    requires Selectable(vs[1..], amounts[j := amounts[j] - vs[0]])
    ensures Selectable(vs, amounts)
  {
  }

  lemma SelectOne(leaves: seq<Leaf>, target: nat)
    requires leaves != [] && leaves[0].value <= target
    requires Selectable(Values(leaves[1..]), [target - leaves[0].value])
    ensures Selectable(Values(leaves), [target])
  {
    assert Values(leaves)[1..] == Values(leaves[1..]);
    assert [target][0 := target - leaves[0].value] == [target - leaves[0].value];
    SelectStep(Values(leaves), [target], 0);
  }

  lemma SelectNone(leaves: seq<Leaf>, target: nat)
    requires leaves != [] && Selectable(Values(leaves[1..]), [target])
    ensures Selectable(Values(leaves), [target])
  {
    assert Values(leaves)[1..] == Values(leaves[1..]);
  }

  /** For a single amount, selection is the existence of an exact subset. */
  lemma {:induction false} SubsetIsSelectable(leaves: seq<Leaf>, chosen: seq<Leaf>, target: nat)
    requires multiset(chosen) <= multiset(leaves) && Total(chosen) == target
    ensures Selectable(Values(leaves), [target])
    decreases |leaves|
  {
    if leaves == [] {
      assert |multiset(chosen)| == 0;
    } else if leaves[0] in chosen {
      var i := DropFromHead(leaves, chosen);
      TotalRemoveAt(chosen, i);
      SubsetIsSelectable(leaves[1..], RemoveAt(chosen, i), target - leaves[0].value);
      SelectOne(leaves, target);
    } else {
      SkipHead(leaves, chosen);
      SubsetIsSelectable(leaves[1..], chosen, target);
      SelectNone(leaves, target);
    }
  }

  lemma DropFromHead(leaves: seq<Leaf>, chosen: seq<Leaf>) returns (i: nat)
    requires leaves != [] && leaves[0] in chosen && multiset(chosen) <= multiset(leaves)
    ensures i < |chosen| && chosen[i] == leaves[0]
    ensures multiset(RemoveAt(chosen, i)) <= multiset(leaves[1..])
  {
    i :| 0 <= i < |chosen| && chosen[i] == leaves[0];
    RemoveAtMultiset(chosen, i);
    RemoveAtMultiset(leaves, 0);
    assert RemoveAt(leaves, 0) == leaves[1..];
    assert multiset(RemoveAt(chosen, i)) == multiset(chosen) - multiset{leaves[0]};
    assert multiset(leaves[1..]) == multiset(leaves) - multiset{leaves[0]};
  }

  lemma {:induction false} SelectableIsSubset(leaves: seq<Leaf>, target: nat) returns (chosen: seq<Leaf>)
    requires Selectable(Values(leaves), [target])
    ensures multiset(chosen) <= multiset(leaves) && Total(chosen) == target
    decreases |leaves|
  {
    if leaves == [] {
      chosen := [];
    } else {
      assert Values(leaves)[1..] == Values(leaves[1..]);
      assert leaves == [leaves[0]] + leaves[1..];
      if Selectable(Values(leaves[1..]), [target]) {
        chosen := SelectableIsSubset(leaves[1..], target);
      } else {
        var vs := Values(leaves);
        var j :| 0 <= j < |[target]| && vs[0] <= [target][j] && Selectable(vs[1..], [target][j := [target][j] - vs[0]]);
        assert [target][j := target - vs[0]] == [target - leaves[0].value];
        var rest := SelectableIsSubset(leaves[1..], target - leaves[0].value);
        chosen := [leaves[0]] + rest;
        assert chosen[1..] == rest;
      }
    }
  }

  // ---- A fully matched list of denominations is payable ----

  function NonZero(ts: seq<nat>): (r: seq<nat>)
    ensures forall v :: v in r ==> v != 0 && v in ts
  {
    if ts == [] then [] else (if ts[0] == 0 then [] else [ts[0]]) + NonZero(ts[1..])
  }

  lemma {:induction false} ClearOne(ts: seq<nat>, j: nat)
    requires j < |ts| && ts[j] != 0
    ensures multiset(NonZero(ts)) == multiset(NonZero(ts[j := 0])) + multiset{ts[j]}
  {
    if j > 0 {
      assert ts[j := 0][1..] == ts[1..][j - 1 := 0];
      ClearOne(ts[1..], j - 1);
    } else {
      assert ts[0 := 0][1..] == ts[1..];
      assert multiset(NonZero(ts)) == multiset([ts[0]]) + multiset(NonZero(ts[1..]));
    }
  }

  lemma {:induction false} AllZero(ts: seq<nat>)
    requires NonZero(ts) == []
    ensures forall j :: 0 <= j < |ts| ==> ts[j] == 0
  {
    if ts != [] {
      AllZero(ts[1..]);
      forall j | 0 <= j < |ts| ensures ts[j] == 0 {
        if j > 0 { assert ts[j] == ts[1..][j - 1]; }
      }
    }
  }

  lemma ClearMatching(vs: seq<nat>, ts: seq<nat>) returns (j: nat)
    requires vs != [] && vs[0] in NonZero(ts) && multiset(NonZero(ts)) <= multiset(vs)
    ensures j < |ts| && ts[j] == vs[0] && multiset(NonZero(ts[j := 0])) <= multiset(vs[1..])
  {
    j :| 0 <= j < |ts| && ts[j] == vs[0];
    ClearOne(ts, j);
    RemoveAtMultiset(vs, 0);
    assert RemoveAt(vs, 0) == vs[1..];
    CancelOne(multiset(NonZero(ts[j := 0])), multiset(vs[1..]), vs[0]);
  }

  /** Whole leaves of the very same values pay a list of amounts. */
  lemma {:induction false} MatchedIsSelectable(vs: seq<nat>, ts: seq<nat>)
    requires multiset(NonZero(ts)) <= multiset(vs)
    ensures Selectable(vs, ts)
    decreases |vs|
  {
    if vs == [] {
      assert |multiset(NonZero(ts))| == 0;
      AllZero(ts);
    } else if vs[0] in NonZero(ts) {
      var j := ClearMatching(vs, ts);
      MatchedIsSelectable(vs[1..], ts[j := 0]);
      SelectStep(vs, ts, j);
    } else {
      SkipHead(vs, NonZero(ts));
      MatchedIsSelectable(vs[1..], ts);
    }
  }

  lemma {:induction false} NonZeroOfPositive(ds: seq<nat>)
    ensures multiset(NonZero(ds)) <= multiset(ds)
  {
    if ds != [] {
      NonZeroOfPositive(ds[1..]);
      assert ds == [ds[0]] + ds[1..];
    }
  }

  lemma FullMatchIsSelectable(vs: seq<nat>, ds: seq<nat>)
    requires Matched(multiset(vs), ds) == |ds|
    ensures Selectable(vs, ds)
  {
    MatchedIff(multiset(vs), ds, |ds|);
    assert ds[..|ds|] == ds;
    NonZeroOfPositive(ds);
    MatchedIsSelectable(vs, ds);
  }

  // ---- The wallet ----

  /** Available leaves in ascending (value, id) order, as both loops list them. */
  function InsertAscending(x: Leaf, s: seq<Leaf>): seq<Leaf> {
    if s == [] || x.value < s[0].value || (x.value == s[0].value && x.id <= s[0].id) then [x] + s
    else [s[0]] + InsertAscending(x, s[1..])
  }

  function SortAscending(s: seq<Leaf>): seq<Leaf> {
    if s == [] then [] else InsertAscending(s[0], SortAscending(s[1..]))
  }

  lemma {:induction false} InsertAscendingKeeps(x: Leaf, s: seq<Leaf>)
    ensures multiset(InsertAscending(x, s)) == multiset([x] + s)
  {
    if s != [] && !(x.value < s[0].value || (x.value == s[0].value && x.id <= s[0].id)) {
      InsertAscendingKeeps(x, s[1..]);
      assert s == [s[0]] + s[1..];
      ConcatSwap([s[0]], [x], s[1..], InsertAscending(x, s[1..]));
    }
  }

  /** By value, then by id. */
  ghost predicate Ordered(s: seq<Leaf>) {
    forall i, j :: 0 <= i < j < |s| ==> NotAfter(s[i], s[j])
  }

  predicate NotAfter(a: Leaf, b: Leaf) {
    a.value < b.value || (a.value == b.value && a.id <= b.id)
  }

  lemma {:induction false} InsertAscendingSorts(x: Leaf, s: seq<Leaf>)
    requires Ordered(s)
    ensures Ordered(InsertAscending(x, s))
  {
    if s != [] && !NotAfter(x, s[0]) {
      var rest := InsertAscending(x, s[1..]);
      InsertAscendingSorts(x, s[1..]);
      InsertAscendingKeeps(x, s[1..]);
      forall j | 0 <= j < |rest| ensures NotAfter(s[0], rest[j]) {
        assert rest[j] in multiset(rest);
        assert rest[j] in [x] + s[1..];
      }
    }
  }

  lemma {:induction false} SortAscendingSorts(s: seq<Leaf>)
    ensures Ordered(SortAscending(s))
  {
    if s != [] {
      SortAscendingSorts(s[1..]);
      InsertAscendingSorts(s[0], SortAscending(s[1..]));
    }
  }

  lemma {:induction false} SortAscendingKeeps(s: seq<Leaf>)
    ensures multiset(SortAscending(s)) == multiset(s)
  {
    if s != [] {
      SortAscendingKeeps(s[1..]);
      InsertAscendingKeeps(s[0], SortAscending(s[1..]));
      assert s == [s[0]] + s[1..];
      assert multiset([s[0]] + SortAscending(s[1..])) == multiset([s[0]] + s[1..]);
    }
  }

  /** The wallet holds two children of the requested values instead of the parent. */
  ghost predicate SplitDone(before: seq<Leaf>, parent: Leaf, needed: u64, change: u64, after: seq<Leaf>) {
    exists a: Leaf, b: Leaf ::
      a.value == needed && b.value == change && IsSplit(before, parent, a, b, after)
  }

  lemma Children(before: seq<Leaf>, parent: Leaf, needed: u64, change: u64, after: seq<Leaf>)
    returns (a: Leaf, b: Leaf)
    requires SplitDone(before, parent, needed, change, after)
    ensures a.value == needed && b.value == change && IsSplit(before, parent, a, b, after)
  {
    a, b :| a.value == needed && b.value == change && IsSplit(before, parent, a, b, after);
  }

  lemma ReplaceLeaf(leaves: seq<Leaf>, i: nat, a: Leaf, b: Leaf)
    requires i < |leaves| && a.value + b.value == leaves[i].value
    ensures SplitDone(leaves, leaves[i], a.value, b.value, RemoveAt(leaves, i) + [a, b])
    ensures Total(RemoveAt(leaves, i) + [a, b]) == Total(leaves)
  {
    RemoveAtMultiset(leaves, i);
    var after := RemoveAt(leaves, i) + [a, b];
    assert multiset(RemoveAt(leaves, i)) == multiset(leaves) - multiset{leaves[i]};
    assert IsSplit(leaves, leaves[i], a, b, after);
    SplitKeepsTotal(leaves, leaves[i], a, b, after);
  }

  /** What a split does to the values and to the number of leaves. */
  lemma SplitBag(before: seq<Leaf>, parent: Leaf, needed: u64, change: u64, after: seq<Leaf>)
    requires SplitDone(before, parent, needed, change, after)
    ensures Bag(after) == Bag(before) - multiset{parent.value} + multiset{needed, change}
    ensures |after| == |before| + 1
  {
    var a, b := Children(before, parent, needed, change, after);
    var i :| 0 <= i < |before| && before[i] == parent;
    var rest := RemoveAt(before, i);
    RemoveAtMultiset(before, i);
    MinusAdd(multiset(before), multiset(rest), parent);
    assert |multiset(before)| == |before|;
    BagOfReplaced(rest, a, b, after);
    ValuesRemoveAt(before, i);
    MinusAdd(Bag(before), Bag(rest), parent.value);
  }

  lemma BagOfReplaced(rest: seq<Leaf>, a: Leaf, b: Leaf, after: seq<Leaf>)
    requires multiset(after) == multiset(rest) + multiset([a, b])
    ensures Bag(after) == Bag(rest) + multiset{a.value, b.value}
    ensures |after| == |rest| + 2
  {
    var list := rest + [a, b];
    assert |multiset(after)| == |after| && |multiset(list)| == |list|;
    ValuesPermutation(after, list);
    assert Values(list) == Values(rest) + [a.value, b.value];
    assert multiset(Values(list)) == multiset(Values(rest)) + multiset([a.value, b.value]);
  }

  /** Positive amounts need a leaf each. */
  lemma {:induction false} SelectableNeedsLeaves(vs: seq<nat>, ts: seq<nat>)
    requires Selectable(vs, ts)
    ensures |NonZero(ts)| <= |vs|
    decreases |vs|
  {
    if vs == [] {
      ZeroesHaveNoNonZero(ts);
    } else if Selectable(vs[1..], ts) {
      SelectableNeedsLeaves(vs[1..], ts);
    } else {
      var j :| 0 <= j < |ts| && vs[0] <= ts[j] && Selectable(vs[1..], ts[j := ts[j] - vs[0]]);
      SelectableNeedsLeaves(vs[1..], ts[j := ts[j] - vs[0]]);
      LowerOne(ts, j, ts[j] - vs[0]);
    }
  }

  lemma {:induction false} ZeroesHaveNoNonZero(ts: seq<nat>)
    requires forall j :: 0 <= j < |ts| ==> ts[j] == 0
    ensures NonZero(ts) == []
  {
    if ts != [] {
      assert ts[0] == 0;
      ZeroesHaveNoNonZero(ts[1..]);
    }
  }

  lemma {:induction false} LowerOne(ts: seq<nat>, j: nat, v: nat)
    requires j < |ts|
    ensures |NonZero(ts)| <= |NonZero(ts[j := v])| + 1
  {
    if j > 0 {
      assert ts[j := v][1..] == ts[1..][j - 1 := v];
      LowerOne(ts[1..], j - 1, v);
    } else {
      assert ts[0 := v][1..] == ts[1..];
    }
  }

  lemma {:induction false} PositiveNonZero(ds: seq<nat>)
    requires 0 !in ds
    ensures |NonZero(ds)| == |ds|
  {
    if ds != [] {
      assert ds[0] in ds;
      assert forall d :: d in ds[1..] ==> d in ds;
      PositiveNonZero(ds[1..]);
    }
  }

  // ---- Which lists of amounts any splits at all can serve ----

  predicate Splittable(vs: seq<nat>, i: nat, x: nat, floor: nat) {
    i < |vs| && floor <= x && x + floor <= vs[i]
  }

  function SplitAt(vs: seq<nat>, i: nat, x: nat): seq<nat>
    requires i < |vs| && x <= vs[i]
  {
    vs[..i] + [x, vs[i] - x] + vs[i + 1..]
  }

  /** After at most `n` splits, of any leaves into any children that respect the
      floor, the amounts can be paid. */
  ghost predicate Repairable(vs: seq<nat>, amounts: seq<nat>, floor: nat, n: nat)
    decreases n
  {
    || Selectable(vs, amounts)
    || (n > 0 && exists i: nat, x: nat ::
          Splittable(vs, i, x, floor) && Repairable(SplitAt(vs, i, x), amounts, floor, n - 1))
  }

  lemma {:induction false} MoreSplits(vs: seq<nat>, amounts: seq<nat>, floor: nat, n: nat, m: nat)
    requires n <= m && Repairable(vs, amounts, floor, n)
    ensures Repairable(vs, amounts, floor, m)
    decreases n
  {
    if !Selectable(vs, amounts) {
      var i: nat, x: nat :| Splittable(vs, i, x, floor) && Repairable(SplitAt(vs, i, x), amounts, floor, n - 1);
      MoreSplits(SplitAt(vs, i, x), amounts, floor, n - 1, m - 1);
    }
  }

  /** Give the first leaf to amount `j` and repair the rest. */
  lemma {:induction false} GiveFirst(vs: seq<nat>, amounts: seq<nat>, j: nat, floor: nat, n: nat)
    requires vs != [] && j < |amounts| && vs[0] <= amounts[j]
    requires Repairable(vs[1..], amounts[j := amounts[j] - vs[0]], floor, n)
    ensures Repairable(vs, amounts, floor, n)
    decreases n
  {
    var left := amounts[j := amounts[j] - vs[0]];
    if Selectable(vs[1..], left) {
      SelectStep(vs, amounts, j);
    } else {
      var i: nat, x: nat :| Splittable(vs[1..], i, x, floor) && Repairable(SplitAt(vs[1..], i, x), left, floor, n - 1);
      assert SplitAt(vs, i + 1, x)[1..] == SplitAt(vs[1..], i, x);
      GiveFirst(SplitAt(vs, i + 1, x), amounts, j, floor, n - 1);
      assert Splittable(vs, i + 1, x, floor);
    }
  }

  lemma {:induction false} ZeroesAreSelectable(vs: seq<nat>, ts: seq<nat>)
    requires forall j :: 0 <= j < |ts| ==> ts[j] == 0
    ensures Selectable(vs, ts)
  {
    if vs != [] {
      ZeroesAreSelectable(vs[1..], ts);
    }
  }

  lemma {:induction false} SumUpdate(ts: seq<nat>, j: nat, v: nat)
    requires j < |ts|
    ensures Sum(ts[j := v]) == Sum(ts) - ts[j] + v
  {
    if j > 0 {
      assert ts[j := v][1..] == ts[1..][j - 1 := v];
      SumUpdate(ts[1..], j - 1, v);
    } else {
      assert ts[0 := v][1..] == ts[1..];
    }
  }

  lemma {:induction false} SomeUnpaid(ts: seq<nat>) returns (j: nat)
    requires NonZero(ts) != []
    ensures j < |ts| && ts[j] != 0 && Sum(ts) > 0
  {
    if ts[0] != 0 {
      j := 0;
    } else {
      var i := SomeUnpaid(ts[1..]);
      j := i + 1;
    }
  }

  lemma {:induction false} NoNewUnpaid(ts: seq<nat>, j: nat, v: nat)
    requires j < |ts| && ts[j] != 0
    ensures |NonZero(ts[j := v])| <= |NonZero(ts)|
  {
    if j > 0 {
      assert ts[j := v][1..] == ts[1..][j - 1 := v];
      NoNewUnpaid(ts[1..], j - 1, v);
    } else {
      assert ts[0 := v][1..] == ts[1..];
    }
  }

  /** Each leaf in turn goes to the first unpaid amount, whole or, when it is
      larger, the part that is missing there. */
  lemma {:induction false} EnoughIsRepairable(vs: seq<nat>, ts: seq<nat>)
    requires Sum(ts) <= Sum(vs)
    ensures Repairable(vs, ts, 1, |NonZero(ts)|)
    decreases |NonZero(ts)| + |vs|
  {
    hide Selectable;
    if NonZero(ts) == [] {
      AllZero(ts);
      ZeroesAreSelectable(vs, ts);
    } else {
      var j := SomeUnpaid(ts);
      ClearCount(ts, j);
      if vs[0] <= ts[j] {
        var left := ts[j := ts[j] - vs[0]];
        SumUpdate(ts, j, ts[j] - vs[0]);
        NoNewUnpaid(ts, j, ts[j] - vs[0]);
        EnoughIsRepairable(vs[1..], left);
        MoreSplits(vs[1..], left, 1, |NonZero(left)|, |NonZero(ts)|);
        GiveFirst(vs, ts, j, 1, |NonZero(ts)|);
      } else {
        SumUpdate(ts, j, 0);
        EnoughIsRepairable([vs[0] - ts[j]] + vs[1..], ts[j := 0]);
        GivePart(vs, ts, j, |NonZero(ts)| - 1);
      }
    }
  }

  lemma ClearCount(ts: seq<nat>, j: nat)
    requires j < |ts| && ts[j] != 0
    ensures |NonZero(ts[j := 0])| == |NonZero(ts)| - 1
  {
    ClearOne(ts, j);
    assert |multiset(NonZero(ts))| == |NonZero(ts)|;
    assert |multiset(NonZero(ts[j := 0]))| == |NonZero(ts[j := 0])|;
  }

  /** Cut from the first leaf what amount `j` needs. */
  lemma GivePart(vs: seq<nat>, ts: seq<nat>, j: nat, n: nat)
    requires vs != [] && j < |ts| && 0 < ts[j] < vs[0]
    requires Repairable([vs[0] - ts[j]] + vs[1..], ts[j := 0], 1, n)
    ensures Repairable(vs, ts, 1, n + 1)
  {
    hide Selectable;
    var cut := SplitAt(vs, 0, ts[j]);
    assert cut[1..] == [vs[0] - ts[j]] + vs[1..];
    GiveFirst(cut, ts, j, 1, n);
    assert Splittable(vs, 0, ts[j], 1);
  }

  lemma {:induction false} SplitKeepsSum(vs: seq<nat>, i: nat, x: nat)
    requires i < |vs| && x <= vs[i]
    ensures Sum(SplitAt(vs, i, x)) == Sum(vs)
  {
    if i == 0 {
      var cut := SplitAt(vs, 0, x);
      assert cut[1..] == [vs[0] - x] + vs[1..];
      assert cut[1..][1..] == vs[1..];
    } else {
      assert SplitAt(vs, i, x)[1..] == SplitAt(vs[1..], i - 1, x);
      SplitKeepsSum(vs[1..], i - 1, x);
    }
  }

  lemma {:induction false} SelectableIsCovered(vs: seq<nat>, ts: seq<nat>)
    requires Selectable(vs, ts)
    ensures Sum(ts) <= Sum(vs)
    decreases |vs|
  {
    if vs == [] {
      if NonZero(ts) != [] {
        var j := SomeUnpaid(ts);
      } else {
        NothingUnpaid(ts);
      }
    } else if Selectable(vs[1..], ts) {
      SelectableIsCovered(vs[1..], ts);
    } else {
      var j :| 0 <= j < |ts| && vs[0] <= ts[j] && Selectable(vs[1..], ts[j := ts[j] - vs[0]]);
      SelectableIsCovered(vs[1..], ts[j := ts[j] - vs[0]]);
      SumUpdate(ts, j, ts[j] - vs[0]);
    }
  }

  lemma {:induction false} NothingUnpaid(ts: seq<nat>)
    requires NonZero(ts) == []
    ensures Sum(ts) == 0
  {
    if ts != [] {
      NothingUnpaid(ts[1..]);
    }
  }

  lemma {:induction false} RepairableIsCovered(vs: seq<nat>, ts: seq<nat>, floor: nat, n: nat)
    requires Repairable(vs, ts, floor, n)
    ensures Sum(ts) <= Sum(vs)
    decreases n
  {
    if Selectable(vs, ts) {
      SelectableIsCovered(vs, ts);
    } else {
      var i: nat, x: nat :| Splittable(vs, i, x, floor) && Repairable(SplitAt(vs, i, x), ts, floor, n - 1);
      RepairableIsCovered(SplitAt(vs, i, x), ts, floor, n - 1);
      SplitKeepsSum(vs, i, x);
    }
  }

  lemma {:induction false} FewUnpaid(ts: seq<nat>)
    ensures |NonZero(ts)| <= |ts|
  {
    if ts != [] {
      FewUnpaid(ts[1..]);
    }
  }

  /** At floor one, splits can serve a list of amounts if and only if the wallet
      holds their sum, and then one split per amount is enough. */
  lemma RepairableIff(vs: seq<nat>, ts: seq<nat>)
    ensures Sum(ts) <= Sum(vs) <==> Repairable(vs, ts, 1, |ts|)
    ensures Sum(ts) <= Sum(vs) <==> exists n: nat :: Repairable(vs, ts, 1, n)
  {
    if Sum(ts) <= Sum(vs) {
      EnoughIsRepairable(vs, ts);
      FewUnpaid(ts);
      MoreSplits(vs, ts, 1, |NonZero(ts)|, |ts|);
    }
    forall n: nat | Repairable(vs, ts, 1, n) ensures Sum(ts) <= Sum(vs) {
      RepairableIsCovered(vs, ts, 1, n);
    }
  }

  /** No spare leaf reaches the first amount that has no leaf of its own. */
  ghost predicate TooSmall(vs: multiset<nat>, ds: seq<nat>) {
    forall v :: v in Spare(vs, ds) ==> Matched(vs, ds) < |ds| && v < ds[Matched(vs, ds)]
  }

  lemma MissIsNotSpare(vs: multiset<nat>, ds: seq<nat>)
    requires Matched(vs, ds) < |ds|
    ensures ds[Matched(vs, ds)] !in Spare(vs, ds)
  {
    hide Matched;
    var k := Matched(vs, ds);
    MatchedIff(vs, ds, k);
    MatchedIff(vs, ds, k + 1);
    assert ds[..k + 1] == ds[..k] + [ds[k]];
    assert multiset(ds[..k + 1]) == multiset(ds[..k]) + multiset{ds[k]};
  }

  /** The repair stops with a shortage although some splits help, at floor one,
      exactly when the wallet holds enough and either an amount is zero or every
      spare leaf is smaller than the first unmatched amount. */
  lemma MissedRepairIff(leaves: seq<Leaf>, amounts: seq<nat>)
    requires !Payable(Values(leaves), amounts)
    ensures !CanSplit(Bag(leaves), amounts, 1) && (exists n: nat :: Repairable(Values(leaves), amounts, 1, n)) <==>
      Total(leaves) >= Sum(amounts) && (0 in amounts || TooSmall(Bag(leaves), amounts))
  {
    hide Matched, Selectable, Repairable, Payable, Spare;
    RepairableIff(Values(leaves), amounts);
    TotalIsSum(leaves);
    if Matched(Bag(leaves), amounts) == |amounts| {
      FullMatchIsSelectable(Values(leaves), amounts);
      SelectableIff(Values(leaves), amounts);
    }
    MissIsNotSpare(Bag(leaves), amounts);
  }

  /** Two equal leaves and two amounts around their value: at every floor one
      split, into the floor and the rest, pays both, but neither leaf covers the
      larger amount. */
  lemma RepairCanBeMissed(v: nat, floor: u64)
    requires 0 < floor && 2 * floor <= v
    ensures !Payable([v, v], [v + floor, v - floor])
    ensures !CanSplit(multiset{v, v}, [v + floor, v - floor], floor)
    ensures Repairable([v, v], [v + floor, v - floor], floor, 1)
  {
    var ts := [v + floor, v - floor];
    NoneFits(v, floor);
    SelectableIff([v, v], ts);
    assert Matched(multiset{v, v}, ts) == 0;
    assert SplitAt([v, v], 0, floor) == [floor, v - floor, v];
    var a := ts[0 := v];
    var b := a[1 := 0];
    assert b == [v, 0];
    assert Selectable([], b[0 := 0]);
    SelectStep([v], b, 0);
    assert [v - floor, v][1..] == [v];
    SelectStep([v - floor, v], a, 1);
    assert [floor, v - floor, v][1..] == [v - floor, v];
    SelectStep([floor, v - floor, v], ts, 0);
    assert Splittable([v, v], 0, floor, floor);
  }

  lemma NoneFits(v: nat, floor: nat)
    requires 0 < floor && 2 * floor <= v
    ensures !Selectable([v, v], [v + floor, v - floor])
  {
    var ts := [v + floor, v - floor];
    assert [v, v][1..] == [v] && [v][1..] == [];
    OneLeafPaysNoTwo(v, ts);
    OneLeafPaysNoTwo(v, ts[0 := floor]);
  }

  lemma OneLeafPaysNoTwo(v: nat, ts: seq<nat>)
    requires |ts| == 2 && ts[0] > 0 && ts[1] > 0
    ensures !Selectable([v], ts)
  {
    if Selectable([v], ts) {
      SelectableNeedsLeaves([v], ts);
      PositiveNonZero(ts);
    }
  }

  const MAX_PASSES: nat := 32

  /** The split that the planner prefers among those of the sorted leaves. */
  ghost predicate BestSplit(before: seq<Leaf>, amount: u64, floor: u64, after: seq<Leaf>) {
    exists sorted: seq<Leaf>, p: nat, plan: Plan ::
      && multiset(sorted) == multiset(before) && Ordered(sorted)
      && BestAmong(sorted, amount, floor, |sorted|, p, plan)
      && SplitDone(before, plan.parent, plan.needed, plan.change, after)
  }

  /** The smallest split that serves the first denomination without a leaf. */
  ghost predicate NextSplit(before: seq<Leaf>, ds: seq<nat>, floor: u64, after: seq<Leaf>) {
    exists parent: Leaf, needed: u64, change: u64 ::
      && Valid(before, ds, floor, parent, needed, change)
      && Smallest(Spare(Bag(before), ds), parent.value, needed + floor)
      && SplitDone(before, parent, needed, change, after)
  }

  ghost predicate Smallest(spare: multiset<nat>, value: nat, least: nat) {
    forall v :: v in spare && v >= least ==> value <= v
  }

  /** How the leaves went from one split to the next. */
  ghost predicate Repairs(trail: seq<seq<Leaf>>, ds: seq<nat>, floor: u64) {
    forall k :: 0 <= k < |trail| - 1 ==> NextSplit(trail[k], ds, floor, trail[k + 1])
  }

  /** A split whose reply is no success ends the repair. */
  function Refusal(reply: Outcome<()>): Outcome<()> {
    if reply.Crashed? then Crashed else Err(Unavailable)
  }

  class Wallet {
    var leaves: seq<Leaf>
    var nextId: nat
    const floor: u64
    /** Splits asked of the operators so far. */
    ghost var splits: nat

    constructor (leaves: seq<Leaf>, nextId: nat, floor: u64)
      ensures this.leaves == leaves && this.floor == floor && splits == 0
    {
      this.leaves, this.nextId, this.floor := leaves, nextId, floor;
      splits := 0;
    }

    /** One persisted split. The operators may refuse it, or carry it out and
        lose the reply; only an Ok reply says that the wallet holds the children. */
    method ExecuteLeafSplit(parent: Leaf, needed: u64, change: u64, reply: Outcome<()>) returns (r: Outcome<()>)
      requires parent in leaves && needed + change == parent.value
      modifies this
      ensures r.Ok? ==> SplitDone(old(leaves), parent, needed, change, leaves)
      ensures leaves == old(leaves) || SplitDone(old(leaves), parent, needed, change, leaves)
      ensures Total(leaves) == old(Total(leaves)) && splits == old(splits) + 1
      ensures (r.Ok? <==> reply.Ok?) && (r.Err? <==> reply.Err?)
      ensures r.Err? ==> r.error == Unavailable
    {
      splits := splits + 1;
      var committed: bool := *;
      if committed || reply.Ok? {
        var i :| 0 <= i < |leaves| && leaves[i] == parent;
        var a, b := Leaf(nextId, needed), Leaf(nextId + 1, change);
        ReplaceLeaf(leaves, i, a, b);
        leaves := RemoveAt(leaves, i) + [a, b];
        nextId := nextId + 2;
      }
      r := if reply.Ok? then Ok(()) else if reply.Err? then Err(Unavailable) else Crashed;
    }

    /** Split leaves until some of them sum to `amount`. One split is enough,
        so the pass limit is never what stops this loop. `reply` is what the
        operators answer to that split. */
    method EnsureExactLiquidity(amount: u64, reply: Outcome<()>) returns (r: Outcome<()>)
      modifies this
      ensures r.Ok? ==> ExactSubset(leaves, amount)
      ensures Total(leaves) == old(Total(leaves)) && splits <= old(splits) + 1
      ensures r == Err(Liquidity) <==>
        !old(ExactSubset(leaves, amount)) && !old(HasPlan(SortAscending(leaves), amount, floor))
      ensures floor == 1 ==> (r == Err(Liquidity) <==> old(Total(leaves)) < amount)
      ensures splits > old(splits) <==>
        !old(ExactSubset(leaves, amount)) && old(HasPlan(SortAscending(leaves), amount, floor))
      ensures splits > old(splits) ==> (r.Ok? <==> reply.Ok?) && (r == Err(Unavailable) <==> reply.Err?)
      ensures splits == old(splits) ==> leaves == old(leaves) && (r.Ok? || r == Err(Liquidity))
      ensures leaves == old(leaves) || BestSplit(old(leaves), amount, floor, leaves)
      ensures splits > old(splits) && r.Ok? ==> BestSplit(old(leaves), amount, floor, leaves)
    {
      var pass := 0;
      while pass < MAX_PASSES
        invariant 0 <= pass <= MAX_PASSES
        invariant Total(leaves) == old(Total(leaves))
        invariant pass == 0 ==> leaves == old(leaves) && splits == old(splits)
        invariant pass > 0 ==> ExactSubset(leaves, amount) && pass == 1 && splits == old(splits) + 1 && reply.Ok?
        invariant pass > 0 ==> old(HasPlan(SortAscending(leaves), amount, floor)) && !old(ExactSubset(leaves, amount))
        invariant pass > 0 ==> BestSplit(old(leaves), amount, floor, leaves)
      {
        var available := SortAscending(leaves);
        SortAscendingKeeps(leaves);
        SortAscendingSorts(leaves);
        SelectableIffSubset(available, amount);
        SameSubsets(available, leaves, amount);
        LiquidityAtFloorOne(leaves, available, amount);
        if Selectable(Values(available), [amount]) {
          return Ok(());
        }
        var plan := PlanJustInTimeSplit(available, amount, floor);
        if plan.None? {
          return Err(Liquidity);
        }
        assert plan.value.parent in multiset(available);
        ghost var before := leaves;
        var _ :- ExecuteLeafSplit(plan.value.parent, plan.value.needed, plan.value.change, reply);
        ghost var a, b := Children(before, plan.value.parent, plan.value.needed, plan.value.change, leaves);
        SplitPaysTarget(available, amount, floor, plan.value, a, b, leaves);
        pass := pass + 1;
      }
      r := Err(ProgressLimit);
    }

    /** One pass: done when the amounts can be paid, else one split for the first
        denomination without a leaf of its own. */
    method RepairOnce(amounts: seq<u64>, reply: Outcome<()>) returns (r: Outcome<bool>)
      modifies this
      ensures Total(leaves) == old(Total(leaves))
      ensures r == Ok(true) <==> old(Payable(Values(SortAscending(leaves)), amounts))
      ensures r == Ok(true) || r == Err(Liquidity) ==> leaves == old(leaves) && splits == old(splits)
      ensures r == Ok(true) && 0 !in amounts ==> |amounts| <= |leaves|
      ensures r == Err(Liquidity) ==> !CanSplit(Bag(leaves), amounts, floor)
      ensures r == Err(Liquidity) && floor == 1 ==>
        (Repairable(Values(SortAscending(leaves)), amounts, 1, |amounts|) <==> Sum(amounts) <= Total(leaves))
      ensures !(r == Ok(true) || r == Err(Liquidity)) ==>
        && splits == old(splits) + 1 && old(Matched(Bag(leaves), amounts)) < |amounts|
        && r == if reply.Ok? then Ok(false) else Refusal(reply).PropagateFailure()
      ensures leaves == old(leaves) || NextSplit(old(leaves), amounts, floor, leaves)
      ensures r == Ok(false) ==>
        && NextSplit(old(leaves), amounts, floor, leaves)
        && |leaves| == |old(leaves)| + 1 && Matched(Bag(leaves), amounts) > old(Matched(Bag(leaves), amounts))
    {
      hide Repairable, Selectable, Payable, Sum, Matched, Values, CanSplit, NextSplit;
      var available := SortAscending(leaves);
      SortAscendingKeeps(leaves);
      ValuesPermutation(available, leaves);
      SelectableIff(Values(available), amounts);
      if Selectable(Values(available), amounts) {
        NeedsLeaves(available, leaves, amounts);
        return Ok(true);
      }
      if Matched(Bag(available), amounts) == |amounts| {
        FullMatchIsSelectable(Values(available), amounts);
      }
      WorthOfValues(available, leaves, amounts);
      var plan := PlanDenominationSplit(available, amounts, floor);
      if plan.None? {
        return Err(Liquidity);
      }
      var parent, needed, change := plan.value.0, plan.value.1, plan.value.2;
      assert parent in multiset(available);
      ghost var before := leaves;
      NextSplitBy(available, leaves, amounts, floor, parent, needed, change);
      var _ :- ExecuteLeafSplit(parent, needed, change, reply);
      SplitBag(before, parent, needed, change, leaves);
      SplitLengthensMatch(Bag(before), amounts, parent.value, change);
      r := Ok(false);
    }

    /** Split leaves until they pay the whole list of amounts. Every split
        matches one more denomination, so `n` amounts need at most `n` splits
        and the pass limit only matters for 32 amounts or more. Each split adds
        one leaf, so a list that is longer than the wallet by 32 cannot succeed.
        `replies` are what the operators answer to the splits, in order. */
    method EnsureDenominatedLiquidity(amounts: seq<u64>, replies: nat -> Outcome<()>)
      returns (r: Outcome<()>, ghost trail: seq<seq<Leaf>>)
      modifies this
      ensures trail != [] && trail[0] == old(leaves) && Repairs(trail, amounts, floor)
      ensures leaves == trail[|trail| - 1] || NextSplit(trail[|trail| - 1], amounts, floor, leaves)
      ensures r.Ok? || r == Err(Liquidity) || r == Err(ProgressLimit) ==>
        leaves == trail[|trail| - 1] && splits == old(splits) + |trail| - 1
      ensures r.Ok? ==> Payable(Values(SortAscending(leaves)), amounts)
      ensures Total(leaves) == old(Total(leaves)) && old(splits) <= splits <= old(splits) + |amounts|
      ensures r.Ok? ==> Matched(Bag(leaves), amounts) >= old(Matched(Bag(leaves), amounts)) + (splits - old(splits))
      ensures splits <= old(splits) + 32
      ensures r == Err(ProgressLimit) ==> |amounts| >= 32 && splits == old(splits) + 32
      ensures r.Ok? && 0 !in amounts ==> |amounts| < |old(leaves)| + 32
      ensures r == Err(Liquidity) ==> !CanSplit(Bag(leaves), amounts, floor)
      ensures r == Err(Liquidity) ==> !Payable(Values(SortAscending(leaves)), amounts)
      ensures r == Err(Liquidity) && floor == 1 ==>
        (Repairable(Values(SortAscending(leaves)), amounts, 1, |amounts|) <==> Sum(amounts) <= old(Total(leaves)))
      ensures r.Err? ==> r.error in {Liquidity, ProgressLimit, Unavailable}
      ensures forall k: nat | k < splits - old(splits) ::
        replies(k).Ok? || (k == splits - old(splits) - 1 && r == Refusal(replies(k)))
      ensures r == Err(Unavailable) || r.Crashed? ==> splits > old(splits) && !replies(splits - old(splits) - 1).Ok?
      ensures old(Payable(Values(SortAscending(leaves)), amounts)) ==> r.Ok? && splits == old(splits)
    {
      hide Repairable, Payable, Sum, Matched, Values, CanSplit, NextSplit;
      var pass := 0;
      trail := [leaves];
      while pass < MAX_PASSES
        invariant 0 <= pass <= MAX_PASSES
        invariant Total(leaves) == old(Total(leaves)) && splits == old(splits) + pass
        invariant |leaves| == |old(leaves)| + pass
        invariant Matched(Bag(leaves), amounts) >= old(Matched(Bag(leaves), amounts)) + pass
        invariant pass == 0 ==> leaves == old(leaves)
        invariant pass > 0 ==> !old(Payable(Values(SortAscending(leaves)), amounts))
        invariant forall k: nat | k < pass :: replies(k).Ok?
        invariant |trail| == pass + 1 && trail[0] == old(leaves) && trail[pass] == leaves
        invariant Repairs(trail, amounts, floor)
      {
        var ready :- RepairOnce(amounts, replies(pass));
        if ready {
          return Ok(()), trail;
        }
        pass := pass + 1;
        trail := trail + [leaves];
      }
      r := Err(ProgressLimit);
    }
  }

  lemma NextSplitBy(available: seq<Leaf>, before: seq<Leaf>, ds: seq<nat>, floor: u64, parent: Leaf, needed: u64,
                    change: u64)
    requires multiset(available) == multiset(before) && Bag(available) == Bag(before)
    requires Valid(available, ds, floor, parent, needed, change)
    requires Smallest(Spare(Bag(available), ds), parent.value, needed + floor)
    ensures forall after :: SplitDone(before, parent, needed, change, after) ==> NextSplit(before, ds, floor, after)
  {
    hide Matched, SplitDone, Smallest;
    assert parent in multiset(available);
    assert Valid(before, ds, floor, parent, needed, change);
  }

  lemma WorthOfValues(available: seq<Leaf>, leaves: seq<Leaf>, amounts: seq<nat>)
    requires multiset(available) == multiset(leaves)
    ensures Repairable(Values(available), amounts, 1, |amounts|) <==> Sum(amounts) <= Total(leaves)
  {
    RepairableIff(Values(available), amounts);
    TotalIsSum(available);
    TotalPermutation(available, leaves);
  }

  lemma NeedsLeaves(available: seq<Leaf>, leaves: seq<Leaf>, amounts: seq<nat>)
    requires Selectable(Values(available), amounts) && multiset(available) == multiset(leaves)
    ensures 0 !in amounts ==> |amounts| <= |leaves|
  {
    SelectableNeedsLeaves(Values(available), amounts);
    assert |multiset(available)| == |available| && |multiset(leaves)| == |leaves|;
    if 0 !in amounts {
      PositiveNonZero(amounts);
    }
  }

  lemma SelectableIffSubset(leaves: seq<Leaf>, target: nat)
    ensures Selectable(Values(leaves), [target]) <==> ExactSubset(leaves, target)
  {
    if Selectable(Values(leaves), [target]) {
      var chosen := SelectableIsSubset(leaves, target);
    }
    if ExactSubset(leaves, target) {
      var chosen: seq<Leaf> :| multiset(chosen) <= multiset(leaves) && Total(chosen) == target;
      SubsetIsSelectable(leaves, chosen, target);
    }
  }

  lemma SameSubsets(a: seq<Leaf>, b: seq<Leaf>, target: nat)
    requires multiset(a) == multiset(b)
    ensures ExactSubset(a, target) <==> ExactSubset(b, target)
  {
  }

  lemma LiquidityAtFloorOne(leaves: seq<Leaf>, available: seq<Leaf>, amount: u64)
    requires multiset(available) == multiset(leaves)
    ensures ExactSubset(leaves, amount) || HasPlan(available, amount, 1) <==> Total(leaves) >= amount
  {
    if amount == 0 {
      assert multiset([]) <= multiset(leaves) && Total([]) == 0;
    } else {
      TotalPermutation(leaves, available);
      SameSubsets(available, leaves, amount);
      PlannerCompleteAtFloorOne(available, amount);
    }
  }
}
