/** The check that a conditional Spark transfer pays for a withdrawal
    (src/spark.rs): its leaves, the record's leaves and the connector outputs
    must correspond one to one before any Bitcoin signature is made. */
module ExitTransfer {
  import opened Basics
  import opened Amounts

  datatype Outpoint = Outpoint(txid: nat, vout: nat)

  /** A refund transaction, by the outputs it spends. */
  datatype Refund = Refund(inputs: seq<Outpoint>)

  datatype TransferLeaf = TransferLeaf(id: nat, value: u64, refund: Refund,
                                       direct: Option<Refund>, directFromCpfp: Option<Refund>)

  datatype TransferKind = CooperativeExit | PreimageSwap | Plain

  datatype Transfer = Transfer(id: nat, sender: nat, receiver: nat, kind: TransferKind,
                               keyTweakPending: bool, total: u64, leaves: seq<TransferLeaf>)

  datatype ExitLeaf = ExitLeaf(id: nat, value: u64)

  datatype Expected = Expected(transferId: nat, owner: nat, leaves: seq<ExitLeaf>, connector: nat)

  function LeafValues(leaves: seq<ExitLeaf>): seq<nat> {
    seq(|leaves|, i requires 0 <= i < |leaves| => leaves[i].value)
  }

  predicate Distinct<T(==)>(s: seq<T>) {
    forall i, j :: 0 <= i < j < |s| ==> s[i] != s[j]
  }

  /** A list of `n` distinct numbers below `n`. */
  predicate IsPermutation(s: seq<nat>, n: nat) {
    |s| == n && (forall i :: 0 <= i < |s| ==> s[i] < n) && Distinct(s)
  }

  /** Every refund of the leaf has two inputs and spends `output` with the second. */
  predicate Binds(leaf: TransferLeaf, output: Outpoint) {
    && |leaf.refund.inputs| == 2 && leaf.refund.inputs[1] == output
    && (leaf.direct.Some? ==> |leaf.direct.value.inputs| == 2 && leaf.direct.value.inputs[1] == output)
    && leaf.directFromCpfp.Some?
    && |leaf.directFromCpfp.value.inputs| == 2 && leaf.directFromCpfp.value.inputs[1] == output
  }

  /** Record leaf `i` is transfer leaf `m[i]` and spends connector output `outs[i]`. */
  ghost predicate Matching(t: Transfer, e: Expected, m: seq<nat>, outs: seq<nat>) {
    && |t.leaves| == |e.leaves|
    && IsPermutation(m, |e.leaves|) && IsPermutation(outs, |e.leaves|)
    && forall i :: 0 <= i < |e.leaves| ==> Pair(t, e, i, m[i], outs[i])
  }

  predicate Pair(t: Transfer, e: Expected, i: nat, k: nat, vout: nat)
    requires i < |e.leaves| && k < |t.leaves|
  {
    && t.leaves[k].id == e.leaves[i].id && t.leaves[k].value == e.leaves[i].value
    && Binds(t.leaves[k], Outpoint(e.connector, vout))
  }

  predicate DistinctIds(e: Expected) {
    forall i, j :: 0 <= i < j < |e.leaves| ==> e.leaves[i].id != e.leaves[j].id
  }

  predicate HeaderOk(t: Transfer, e: Expected, identity: nat) {
    && t.id == e.transferId && t.sender == e.owner && t.receiver == identity
    && t.kind == CooperativeExit && t.keyTweakPending
    && t.total == Sum(LeafValues(e.leaves)) && |t.leaves| == |e.leaves|
  }

  ghost predicate Accepts(t: Transfer, e: Expected, identity: nat) {
    HeaderOk(t, e, identity) && DistinctIds(e) && exists m, outs :: Matching(t, e, m, outs)
  }

  /** The only index that carries the id, if there is exactly one. */
  predicate Only(leaves: seq<TransferLeaf>, id: nat, k: nat) {
    && k < |leaves| && leaves[k].id == id
    && forall j :: 0 <= j < |leaves| && leaves[j].id == id ==> j == k
  }

  lemma TwoMatches(leaves: seq<TransferLeaf>, id: nat, a: nat, b: nat)
    requires a < b < |leaves| && leaves[a].id == id && leaves[b].id == id
    ensures forall j :: !Only(leaves, id, j)
  {
  }

  method FindOnly(leaves: seq<TransferLeaf>, id: nat) returns (k: Option<nat>)
    ensures k.Some? ==> Only(leaves, id, k.value)
    ensures k.None? ==> forall j :: !Only(leaves, id, j)
  {
    k := None;
    for i := 0 to |leaves|
      invariant k.None? ==> forall j :: 0 <= j < i ==> leaves[j].id != id
      invariant k.Some? ==> k.value < i && leaves[k.value].id == id
      invariant k.Some? ==> forall j :: 0 <= j < i && leaves[j].id == id ==> j == k.value
    {
      if leaves[i].id == id {
        if k.Some? {
          TwoMatches(leaves, id, k.value, i);
          return None;
        }
        k := Some(i);
      }
    }
  }

  method CheckedTotal(leaves: seq<ExitLeaf>) returns (total: Option<u64>)
    ensures total.Some? <==> Sum(LeafValues(leaves)) <= U64_MAX
    ensures total.Some? ==> total.value == Sum(LeafValues(leaves))
  {
    var sum: u64 := 0;
    for i := 0 to |leaves|
      invariant sum == Sum(LeafValues(leaves)[..i])
    {
      var v := LeafValues(leaves);
      assert v[..i + 1] == v[..i] + [v[i]];
      SumAppend(v[..i], [v[i]]);
      var next := CheckedAdd(sum, leaves[i].value);
      if next.None? {
        assert v == v[..i + 1] + v[i + 1..];
        SumAppend(v[..i + 1], v[i + 1..]);
        return None;
      }
      sum := next.value;
    }
    assert LeafValues(leaves)[..|leaves|] == LeafValues(leaves);
    total := Some(sum);
  }

  /** Accept exactly the transfers whose leaves and connector outputs
      correspond one to one with the record. */
  method ValidateTransfer(t: Transfer, e: Expected, identity: nat) returns (ok: bool)
    ensures ok <==> Accepts(t, e, identity)
  {
    if t.id != e.transferId || t.sender != e.owner || t.receiver != identity || t.kind != CooperativeExit {
      return false;
    }
    if !t.keyTweakPending {
      return false;
    }
    var value := CheckedTotal(e.leaves);
    if value.None? || t.total != value.value || |t.leaves| != |e.leaves| {
      return false;
    }
    var used: set<Outpoint> := {};
    ghost var m: seq<nat>, outs: seq<nat> := [], [];
    for i := 0 to |e.leaves|
      invariant |m| == |outs| == i
      invariant forall j :: 0 <= j < i ==> Only(t.leaves, e.leaves[j].id, m[j]) && outs[j] < |e.leaves|
      invariant forall j :: 0 <= j < i ==> Pair(t, e, j, m[j], outs[j])
      invariant used == set j | 0 <= j < i :: Outpoint(e.connector, outs[j])
      invariant Distinct(outs)
    {
      var k := FindOnly(t.leaves, e.leaves[i].id);
      if k.None? {
        NoMatchRejects(t, e, identity, i);
        return false;
      }
      var leaf := t.leaves[k.value];
      if leaf.value != e.leaves[i].value || |leaf.refund.inputs| < 2 {
        OnlyForced(t, e, identity, i, k.value);
        return false;
      }
      var output := leaf.refund.inputs[1];
      if output.txid != e.connector || output.vout >= |e.leaves| || output in used {
        OnlyForced(t, e, identity, i, k.value);
        if output in used {
          ghost var j :| 0 <= j < i && output == Outpoint(e.connector, outs[j]);
          OnlyForced(t, e, identity, j, m[j]);
          SharedOutputRejects(t, e, identity, j, i, m[j], k.value);
        }
        return false;
      }
      used := used + {output};
      if !Binds(leaf, output) {
        OnlyForced(t, e, identity, i, k.value);
        return false;
      }
      m, outs := m + [k.value], outs + [output.vout];
    }
    IdsDistinct(t, e, m, outs);
    assert Matching(t, e, m, outs);
    ok := true;
  }

  lemma NoMatchRejects(t: Transfer, e: Expected, identity: nat, i: nat)
    requires i < |e.leaves| && forall j :: !Only(t.leaves, e.leaves[i].id, j)
    ensures !Accepts(t, e, identity)
  {
    if Accepts(t, e, identity) {
      var m, outs :| Matching(t, e, m, outs);
      MatchIsOnly(t, e, m, outs, i);
    }
  }

  /** In an accepted transfer the id of a record leaf determines its partner. */
  lemma MatchIsOnly(t: Transfer, e: Expected, m: seq<nat>, outs: seq<nat>, i: nat)
    requires Matching(t, e, m, outs) && DistinctIds(e) && i < |e.leaves|
    ensures Only(t.leaves, e.leaves[i].id, m[i])
  {
    assert Pair(t, e, i, m[i], outs[i]);
    forall j | 0 <= j < |t.leaves| && t.leaves[j].id == e.leaves[i].id ensures j == m[i] {
      var x := PermutationCovers(m, |e.leaves|, j);
      assert Pair(t, e, x, m[x], outs[x]);
    }
  }

  lemma OnlyForced(t: Transfer, e: Expected, identity: nat, i: nat, k: nat)
    requires i < |e.leaves| && Only(t.leaves, e.leaves[i].id, k)
    ensures Accepts(t, e, identity) ==> exists vout: nat :: vout < |e.leaves| && Pair(t, e, i, k, vout)
  {
    if Accepts(t, e, identity) {
      var m, outs :| Matching(t, e, m, outs);
      MatchIsOnly(t, e, m, outs, i);
      assert m[i] == k && Pair(t, e, i, m[i], outs[i]);
    }
  }

  lemma SharedOutputRejects(t: Transfer, e: Expected, identity: nat, i: nat, j: nat, a: nat, b: nat)
    requires i < j < |e.leaves|
    requires Only(t.leaves, e.leaves[i].id, a) && Only(t.leaves, e.leaves[j].id, b)
    requires |t.leaves[a].refund.inputs| >= 2 && |t.leaves[b].refund.inputs| >= 2
    requires t.leaves[a].refund.inputs[1] == t.leaves[b].refund.inputs[1]
    ensures !Accepts(t, e, identity)
  {
    if Accepts(t, e, identity) {
      var m, outs :| Matching(t, e, m, outs);
      MatchIsOnly(t, e, m, outs, i);
      MatchIsOnly(t, e, m, outs, j);
      MatchedOutputsDiffer(t, e, m, outs, i, j);
    }
  }

  lemma MatchedOutputsDiffer(t: Transfer, e: Expected, m: seq<nat>, outs: seq<nat>, i: nat, j: nat)
    requires Matching(t, e, m, outs) && i < j < |e.leaves|
    ensures |t.leaves[m[i]].refund.inputs| == 2 && |t.leaves[m[j]].refund.inputs| == 2
    ensures t.leaves[m[i]].refund.inputs[1] != t.leaves[m[j]].refund.inputs[1]
  {
    assert Pair(t, e, i, m[i], outs[i]) && Pair(t, e, j, m[j], outs[j]);
  }

  /** Two record leaves with one id would have needed the same output twice. */
  lemma IdsDistinct(t: Transfer, e: Expected, m: seq<nat>, outs: seq<nat>)
    requires |m| == |outs| == |e.leaves|
    requires forall j :: 0 <= j < |m| ==> Only(t.leaves, e.leaves[j].id, m[j]) && Pair(t, e, j, m[j], outs[j])
    requires Distinct(outs)
    ensures DistinctIds(e) && Distinct(m)
  {
    forall i, j | 0 <= i < j < |m| ensures m[i] != m[j] && e.leaves[i].id != e.leaves[j].id {
      assert Pair(t, e, i, m[i], outs[i]) && Pair(t, e, j, m[j], outs[j]);
      assert Only(t.leaves, e.leaves[i].id, m[i]) && Only(t.leaves, e.leaves[j].id, m[j]);
    }
  }

  // ---- Counting ----

  function Below(n: nat): (r: set<nat>)
    ensures |r| == n && forall k :: k in r <==> 0 <= k < n
  {
    if n == 0 then {} else Below(n - 1) + {n - 1}
  }

  function Elements(s: seq<nat>): set<nat> {
    set v | v in s
  }

  lemma {:induction false} DistinctSize(s: seq<nat>)
    requires Distinct(s)
    ensures |Elements(s)| == |s|
  {
    if s != [] {
      DistinctSize(s[1..]);
      assert s == [s[0]] + s[1..];
      assert Elements(s) == Elements(s[1..]) + {s[0]};
      assert s[0] !in s[1..];
    }
  }

  lemma SubsetOfSameSize<T>(a: set<T>, b: set<T>)
    requires a <= b && |a| == |b|
    ensures a == b
  {
    assert |b - a| == |b| - |a|;
  }

  /** Pigeonhole: `n` distinct numbers below `n` include every one of them. */
  lemma PermutationCovers(s: seq<nat>, n: nat, k: nat) returns (i: nat)
    requires IsPermutation(s, n) && k < n
    ensures i < n && s[i] == k
  {
    DistinctSize(s);
    SubsetOfSameSize(Elements(s), Below(n));
    assert k in Below(n);
    i :| 0 <= i < |s| && s[i] == k;
  }

  /** Leaf `a`, and no other leaf, refunds into this connector output. */
  predicate SpentOnlyBy(t: Transfer, output: Outpoint, a: nat) {
    && a < |t.leaves| && Binds(t.leaves[a], output)
    && forall b :: 0 <= b < |t.leaves| && Binds(t.leaves[b], output) ==> b == a
  }

  /** What an accepted transfer guarantees: every connector output below n is
      spent by the refunds of exactly one leaf and output n by none. */
  lemma AcceptedSpendsEveryOutput(t: Transfer, e: Expected, identity: nat, k: nat)
    requires Accepts(t, e, identity)
    ensures (exists a :: SpentOnlyBy(t, Outpoint(e.connector, k), a)) <==> k < |e.leaves|
  {
    var m, outs :| Matching(t, e, m, outs);
    forall b | 0 <= b < |t.leaves| && Binds(t.leaves[b], Outpoint(e.connector, k))
      ensures k < |e.leaves| && forall i :: 0 <= i < |outs| && outs[i] == k ==> m[i] == b
    {
      var x := PermutationCovers(m, |m|, b);
      assert Pair(t, e, x, m[x], outs[x]);
    }
    if k < |e.leaves| {
      var i := PermutationCovers(outs, |outs|, k);
      assert Pair(t, e, i, m[i], outs[i]);
      assert SpentOnlyBy(t, Outpoint(e.connector, k), m[i]);
    }
  }

  ghost predicate HasPartner(t: Transfer, e: Expected, i: nat)
    requires i < |e.leaves|
  {
    exists a: nat :: Only(t.leaves, e.leaves[i].id, a) && t.leaves[a].value == e.leaves[i].value
  }

  /** ... and the leaves of the record and of the transfer are the same, one to one. */
  lemma AcceptedLeavesCorrespond(t: Transfer, e: Expected, identity: nat)
    requires Accepts(t, e, identity)
    ensures forall i :: 0 <= i < |e.leaves| ==> HasPartner(t, e, i)
    ensures forall a :: 0 <= a < |t.leaves| ==>
      exists i :: 0 <= i < |e.leaves| && e.leaves[i] == ExitLeaf(t.leaves[a].id, t.leaves[a].value)
  {
    var m, outs :| Matching(t, e, m, outs);
    forall i | 0 <= i < |e.leaves| ensures HasPartner(t, e, i) {
      MatchIsOnly(t, e, m, outs, i);
      assert Pair(t, e, i, m[i], outs[i]);
    }
    forall a | 0 <= a < |t.leaves|
      ensures exists i :: 0 <= i < |e.leaves| && e.leaves[i] == ExitLeaf(t.leaves[a].id, t.leaves[a].value)
    {
      var i := PermutationCovers(m, |m|, a);
      assert Pair(t, e, i, m[i], outs[i]);
    }
  }
}
