/** The boundary of the just-in-time planner (src/spark.rs): for which floors it
    finds a split whenever the wallet has one. */
module SplitFloor {
  import opened Basics
  import opened Amounts
  import opened SplitPlanner
  import opened Liquidity

  ghost predicate HasSplit(leaves: seq<Leaf>, target: u64, floor: u64) {
    exists plan :: Admissible(leaves, target, floor, plan)
  }

  /** Every wallet that can pay exactly after some split, but not before, gets a
      plan. */
  ghost predicate FindsEverySplit(floor: u64) {
    forall leaves: seq<Leaf>, target: u64 ::
      HasSplit(leaves, target, floor) && !ExactSubset(leaves, target) ==> HasPlan(leaves, target, floor)
  }

  // ---- Sums of whole leaves ----

  predicate Reaches(vs: seq<nat>, t: int) {
    if vs == [] then t == 0 else Reaches(vs[1..], t) || Reaches(vs[1..], t - vs[0])
  }

  lemma {:induction false} SubsetReaches(leaves: seq<Leaf>, chosen: seq<Leaf>)
    requires multiset(chosen) <= multiset(leaves)
    ensures Reaches(Values(leaves), Total(chosen))
    decreases |leaves|
  {
    if leaves == [] {
      assert |multiset(chosen)| == 0;
    } else {
      assert Values(leaves)[1..] == Values(leaves[1..]);
      if leaves[0] in chosen {
        var i := DropFromHead(leaves, chosen);
        TotalRemoveAt(chosen, i);
        SubsetReaches(leaves[1..], RemoveAt(chosen, i));
      } else {
        SkipHead(leaves, chosen);
        SubsetReaches(leaves[1..], chosen);
      }
    }
  }

  lemma OneSum(c: nat, t: int)
    requires Reaches([c], t)
    ensures t == 0 || t == c
  {
    assert [c][1..] == [];
  }

  lemma TwoSums(c: nat, t: int)
    requires Reaches([c, c], t)
    ensures t == 0 || t == c || t == 2 * c
  {
    assert [c, c][1..] == [c];
    if Reaches([c], t) {
      OneSum(c, t);
    } else {
      OneSum(c, t - c);
    }
  }

  lemma ThreeSums(b: nat, c: nat, t: int)
    requires Reaches([b, c, c], t)
    ensures t in {0, c, 2 * c, b, b + c, b + 2 * c}
  {
    assert [b, c, c][1..] == [c, c];
    if Reaches([c, c], t) {
      TwoSums(c, t);
    } else {
      TwoSums(c, t - b);
    }
  }

  lemma FourSums(a: nat, b: nat, c: nat, t: int)
    requires Reaches([a, b, c, c], t)
    ensures t in {0, a, b, a + b, c, a + c, b + c, a + b + c, 2 * c, a + 2 * c, b + 2 * c, a + b + 2 * c}
  {
    assert [a, b, c, c][1..] == [b, c, c];
    if Reaches([b, c, c], t) {
      ThreeSums(b, c, t);
    } else {
      ThreeSums(b, c, t - a);
    }
  }

  /** No whole leaves of these values sum to the target. */
  lemma NothingPays(leaves: seq<Leaf>, a: nat, b: nat, c: nat, target: nat)
    requires Values(leaves) == [a, b, c, c]
    requires target !in {0, a, b, a + b, c, a + c, b + c, a + b + c, 2 * c, a + 2 * c, b + 2 * c, a + b + 2 * c}
    ensures !ExactSubset(leaves, target)
  {
    if ExactSubset(leaves, target) {
      var chosen: seq<Leaf> :| multiset(chosen) <= multiset(leaves) && Total(chosen) == target;
      SubsetReaches(leaves, chosen);
      FourSums(a, b, c, target);
      assert false;
    }
  }

  // ---- Parents without a plan ----

  /** A parent must hold two children at the floor. */
  lemma SmallParent(leaves: seq<Leaf>, target: u64, floor: u64, p: nat)
    requires p < |leaves| && leaves[p].value < 2 * floor
    ensures Candidate(leaves, target, floor, p).None?
  {
    hide Greedy, SortDescending;
  }

  /** The greedy choice takes the large leaf and has no room for a second one. */
  lemma GreedyTakesTooLittle(leaves: seq<Leaf>, target: u64, floor: u64, p: nat, x: Leaf, y: Leaf, z: Leaf)
    requires p < |leaves| && RemoveAt(leaves, p) == [x, y, z] && x.value >= y.value >= z.value
    requires floor <= target && x.value <= target - floor < x.value + z.value
    requires x.value + leaves[p].value < target + floor
    ensures Candidate(leaves, target, floor, p).None?
  {
    ThreeSorted(x, y, z);
    TakesOnlyTheFirst(x, y, z, target - floor);
  }

  lemma ThreeSorted(x: Leaf, y: Leaf, z: Leaf)
    requires x.value >= y.value >= z.value
    ensures SortDescending([x, y, z]) == [x, y, z]
  {
    assert [x, y, z][1..] == [y, z] && [y, z][1..] == [z] && [z][1..] == [];
    assert SortDescending([z]) == [z];
    assert SortDescending([y, z]) == [y, z];
  }

  lemma TakesOnlyTheFirst(x: Leaf, y: Leaf, z: Leaf, cap: u64)
    requires x.value <= cap < x.value + z.value <= x.value + y.value
    ensures Greedy([x, y, z], cap, 0) == [x] && Total([x]) == x.value
  {
    assert [x, y, z][1..] == [y, z] && [y, z][1..] == [z] && [z][1..] == [];
    assert Greedy([z], cap, x.value) == [];
    assert Greedy([y, z], cap, x.value) == [];
  }

  // ---- A split beside two whole leaves ----

  lemma TotalTwo(c: Leaf, d: Leaf)
    ensures Total([c, d]) == c.value + d.value
  {
    TotalAppend([c], [d]);
    assert [c] + [d] == [c, d];
    assert Total([c]) == c.value by { assert [c][1..] == []; }
    assert Total([d]) == d.value by { assert [d][1..] == []; }
  }

  lemma BagOfFour<T>(a: T, b: T, rest: seq<T>)
    ensures multiset(rest) + multiset{b} <= multiset([a] + ([b] + rest))
  {
    assert multiset([a] + ([b] + rest)) == multiset{a} + (multiset{b} + multiset(rest));
  }

  lemma LastTwoAndSecond<T>(s: seq<T>)
    requires |s| == 4
    ensures multiset(s[2..]) + multiset{s[1]} <= multiset(s)
  {
    BagOfFour(s[0], s[1], s[2..]);
    assert s == [s[0]] + ([s[1]] + s[2..]);
  }

  lemma SplitBesideTwo(leaves: seq<Leaf>, target: u64, floor: u64)
    requires |leaves| == 4
    requires leaves[2].value + leaves[3].value + floor <= target
    requires target + floor <= leaves[1].value + leaves[2].value + leaves[3].value
    ensures HasSplit(leaves, target, floor)
  {
    hide Total, HasSplit;
    LastTwoAndSecond(leaves);
    assert leaves[2..] == [leaves[2], leaves[3]] by {
      assert leaves[2..][0] == leaves[2] && leaves[2..][1] == leaves[3];
    }
    TotalTwo(leaves[2], leaves[3]);
    var needed := target - leaves[2].value - leaves[3].value;
    SplitBeside(leaves, leaves[2..], leaves[1], needed, leaves[1].value - needed, target, floor);
  }

  lemma SplitBeside(leaves: seq<Leaf>, selected: seq<Leaf>, parent: Leaf, needed: u64, change: u64, target: u64,
                    floor: u64)
    requires multiset(selected) + multiset{parent} <= multiset(leaves)
    requires Total(selected) + needed == target && needed + change == parent.value && needed >= floor && change >= floor
    ensures HasSplit(leaves, target, floor)
  {
    hide Total;
    assert Admissible(leaves, target, floor, Plan(selected, parent, needed, change));
  }

  // ---- The boundary ----

  /** For a small floor f: leaves of 2f+1, 2f+1, f+1 and f+1, and 3f+3 to pay.
      Splitting one large leaf beside both small ones would do; the greedy
      choice takes the other large leaf instead. */
  lemma SmallFloorHidesASplit(floor: u64)
    requires 2 <= floor && 3 * floor + 3 <= U64_MAX
    ensures !FindsEverySplit(floor)
  {
    hide ExactSubset, HasSplit, HasPlan, Candidate, Admissible;
    var target: u64 := 3 * floor + 3;
    var a, b, c, d := Leaf(0, 2 * floor + 1), Leaf(1, 2 * floor + 1), Leaf(2, floor + 1), Leaf(3, floor + 1);
    var leaves := [a, b, c, d];
    NothingPays(leaves, 2 * floor + 1, 2 * floor + 1, floor + 1, target);
    SplitBesideTwo(leaves, target, floor);
    GreedyTakesTooLittle(leaves, target, floor, 0, b, c, d);
    GreedyTakesTooLittle(leaves, target, floor, 1, a, c, d);
    SmallParent(leaves, target, floor, 2);
    SmallParent(leaves, target, floor, 3);
    NoPlanOfFour(leaves, target, floor);
  }

  /** For a larger floor f: leaves of 3, 2f, 2 and 2, and f+4 to pay. */
  lemma LargeFloorHidesASplit(floor: u64)
    requires 5 <= floor && 2 * floor <= U64_MAX
    ensures !FindsEverySplit(floor)
  {
    hide ExactSubset, HasSplit, HasPlan, Candidate, Admissible;
    var target: u64 := floor + 4;
    var a, b, c, d := Leaf(0, 3), Leaf(1, 2 * floor), Leaf(2, 2), Leaf(3, 2);
    var leaves := [a, b, c, d];
    NothingPays(leaves, 3, 2 * floor, 2, target);
    SplitBesideTwo(leaves, target, floor);
    GreedyTakesTooLittle(leaves, target, floor, 1, a, c, d);
    SmallParent(leaves, target, floor, 0);
    SmallParent(leaves, target, floor, 2);
    SmallParent(leaves, target, floor, 3);
    NoPlanOfFour(leaves, target, floor);
  }

  lemma NoPlanOfFour(leaves: seq<Leaf>, target: u64, floor: u64)
    requires |leaves| == 4
    requires Candidate(leaves, target, floor, 0).None? && Candidate(leaves, target, floor, 1).None?
    requires Candidate(leaves, target, floor, 2).None? && Candidate(leaves, target, floor, 3).None?
    ensures !HasPlan(leaves, target, floor)
  {
    hide Candidate;
  }

  /** With a positive floor the planner finds a plan for every wallet that has a
      split and no exact subset if and only if the floor is one, or so large that
      no leaf can be split at all. */
  lemma PlannerFindsEverySplitIff(floor: u64)
    requires floor > 0
    ensures FindsEverySplit(floor) <==> floor == 1 || 2 * floor > U64_MAX
  {
    hide ExactSubset, HasPlan, Candidate;
    if floor == 1 {
      forall leaves: seq<Leaf>, target: u64 | HasSplit(leaves, target, floor) && !ExactSubset(leaves, target)
        ensures HasPlan(leaves, target, floor)
      {
        var plan :| Admissible(leaves, target, floor, plan);
        PlanWithinTotal(leaves, target, floor, plan);
        PlannerCompleteAtFloorOne(leaves, target);
      }
    } else if 2 * floor > U64_MAX {
      forall leaves: seq<Leaf>, target: u64 ensures !HasSplit(leaves, target, floor) {
      }
    } else if floor < 5 {
      SmallFloorHidesASplit(floor);
    } else {
      LargeFloorHidesASplit(floor);
    }
  }
}
