/** The value arithmetic of a cooperative withdrawal (src/coop_exit.rs): what
    is paid out, how the SSP coin is divided, and what a fee bump costs. */
module ExitAmounts {
  import opened Basics
  import opened Amounts
  import opened ExitTransfer

  const MAX_LEAVES: nat := 100
  const CONNECTOR_SATS: nat := 330
  const MAX_MONEY: nat := 2_100_000_000_000_000

  datatype Request = Request(withdrawAll: bool, feeLeafIds: seq<nat>)
  datatype Fees = Fees(userFee: u64, minerFee: u64)

  function Ids(leaves: seq<ExitLeaf>): seq<nat> {
    seq(|leaves|, i requires 0 <= i < |leaves| => leaves[i].id)
  }

  function Value(leaves: seq<ExitLeaf>): nat {
    Sum(LeafValues(leaves))
  }

  lemma ValueAppend(a: seq<ExitLeaf>, b: seq<ExitLeaf>)
    ensures Value(a + b) == Value(a) + Value(b)
  {
    assert LeafValues(a + b) == LeafValues(a) + LeafValues(b);
    SumAppend(LeafValues(a), LeafValues(b));
  }

  lemma ValueOfOne(leaf: ExitLeaf)
    ensures Value([leaf]) == leaf.value
  {
    assert LeafValues([leaf]) == [leaf.value];
    assert Sum([leaf.value]) == leaf.value + Sum([leaf.value][1..]);
  }

  predicate ValidIds(ids: seq<nat>) {
    1 <= |ids| <= MAX_LEAVES && Distinct(ids)
  }

  method TotalValue(leaves: seq<ExitLeaf>) returns (r: Outcome<u64>)
    ensures r == if Value(leaves) <= 2_100_000_000_000_000 then Ok(Value(leaves)) else Err(Invalid)
  {
    var sum: u64 := 0;
    for i := 0 to |leaves|
      invariant sum == Value(leaves[..i]) && sum <= MAX_MONEY
    {
      assert leaves[..i + 1] == leaves[..i] + [leaves[i]];
      ValueAppend(leaves[..i], [leaves[i]]);
      ValueOfOne(leaves[i]);
      var next := CheckedAdd(sum, leaves[i].value);
      if next.None? || next.value > MAX_MONEY {
        assert leaves == leaves[..i + 1] + leaves[i + 1..];
        ValueAppend(leaves[..i + 1], leaves[i + 1..]);
        return Err(Invalid);
      }
      sum := next.value;
    }
    assert leaves[..|leaves|] == leaves;
    r := Ok(sum);
  }

  predicate AllPays(request: Request, fees: Fees, requested: seq<ExitLeaf>) {
    request.feeLeafIds == [] && fees.userFee + fees.minerFee <= Value(requested) <= MAX_MONEY
  }

  predicate SharesPay(request: Request, fees: Fees, requested: seq<ExitLeaf>, feeLeaves: Outcome<seq<ExitLeaf>>) {
    && Value(requested) <= MAX_MONEY
    && ValidIds(request.feeLeafIds) && feeLeaves.Ok?
    && Value(feeLeaves.value) == fees.userFee + fees.minerFee <= MAX_MONEY
    && ValidIds(Ids(requested + feeLeaves.value))
  }

  /** `feeLeaves` is the operators' reply for the requested fee leaves. The
      result holds the payout and every leaf the withdrawal spends: in both
      modes their total is the payout plus both fees, to the satoshi. */
  method WithdrawalAmount(request: Request, fees: Fees, requested: seq<ExitLeaf>, feeLeaves: Outcome<seq<ExitLeaf>>)
    returns (r: Outcome<u64>, leaves: seq<ExitLeaf>)
    requires feeLeaves.Ok? ==> Ids(feeLeaves.value) == request.feeLeafIds
    ensures r.Ok? ==> Value(leaves) == r.value + fees.userFee + fees.minerFee
    ensures r.Ok? && request.withdrawAll ==> leaves == requested
    ensures r.Ok? && !request.withdrawAll ==>
      && feeLeaves.Ok? && leaves == requested + feeLeaves.value && r.value == Value(requested)
      && |Ids(leaves)| == |leaves| <= 100
    ensures r.Ok? <==>
      if request.withdrawAll then AllPays(request, fees, requested) else SharesPay(request, fees, requested, feeLeaves)
  {
    leaves := requested;
    assert requested + [] == requested;
    var both := CheckedAdd(fees.userFee, fees.minerFee);
    if both.None? {
      return Err(Invalid), leaves;
    }
    var amount := TotalValue(requested);
    if amount.Err? {
      return amount, leaves;
    }
    if request.withdrawAll {
      if request.feeLeafIds != [] {
        return Err(Invalid), leaves;
      }
      var payout := CheckedSub(amount.value, both.value);
      return if payout.Some? then Ok(payout.value) else Err(Invalid), leaves;
    }
    if !ValidIds(request.feeLeafIds) {
      return Err(Invalid), leaves;
    }
    if feeLeaves.IsFailure() {
      return feeLeaves.PropagateFailure(), leaves;
    }
    var paid := TotalValue(feeLeaves.value);
    if paid.Err? || paid.value != both.value {
      return Err(Invalid), leaves;
    }
    leaves := leaves + feeLeaves.value;
    if !ValidIds(Ids(leaves)) {
      return Err(Invalid), leaves;
    }
    ValueAppend(requested, feeLeaves.value);
    r := Ok(amount.value);
  }

  // ---- Dividing the coin ----

  datatype Coin = Coin(value: u64, outpoint: Outpoint)

  predicate CoinLess(a: Coin, b: Coin) {
    || a.value < b.value
    || (a.value == b.value && a.outpoint.txid < b.outpoint.txid)
    || (a.value == b.value && a.outpoint.txid == b.outpoint.txid && a.outpoint.vout < b.outpoint.vout)
  }

  /** The smallest unreserved coin that covers `needed`. */
  method SelectCoin(unspent: seq<Coin>, reserved: set<Outpoint>, needed: u64) returns (coin: Option<Coin>)
    ensures coin.Some? ==> coin.value in unspent && coin.value.outpoint !in reserved && coin.value.value >= needed
    ensures forall c :: c in unspent && c.outpoint !in reserved && c.value >= needed ==>
      coin.Some? && !CoinLess(c, coin.value)
  {
    coin := None;
    for i := 0 to |unspent|
      invariant coin.Some? ==> coin.value in unspent && coin.value.outpoint !in reserved && coin.value.value >= needed
      invariant forall j :: 0 <= j < i && unspent[j].outpoint !in reserved && unspent[j].value >= needed ==>
        coin.Some? && !CoinLess(unspent[j], coin.value)
    {
      var c := unspent[i];
      if c.value >= needed && c.outpoint !in reserved && (coin.None? || CoinLess(c, coin.value)) {
        coin := Some(c);
      }
    }
  }

  /** The values of the exit outputs: payout, connector funding, SSP change. */
  datatype ExitOutputs = ExitOutputs(payout: u64, funding: u64, change: u64)

  /** What a coin must hold for `n` leaves, or None on overflow. */
  function Needed(payout: u64, minerFee: u64, n: nat): Option<u64>
    requires n <= 2 * MAX_LEAVES
  {
    var first := CheckedAdd(payout, minerFee);
    if first.None? then None else CheckedAdd(first.value, CONNECTOR_SATS * (n + 1) + CONNECTOR_SATS)
  }

  /** The exit conserves the coin's value, never underflows, and keeps a
      change output that can pay for a fee bump. */
  method BuildExit(coin: Coin, payout: u64, minerFee: u64, n: nat)
    returns (exit: ExitOutputs, connectors: seq<nat>)
    requires n <= 2 * MAX_LEAVES
    requires Needed(payout, minerFee, n).Some? && coin.value >= Needed(payout, minerFee, n).value
    ensures coin.value == exit.payout + exit.funding + exit.change + minerFee
    ensures exit.payout == payout && exit.change >= 330
    ensures exit.funding == 330 * (n + 1)
    ensures |connectors| == n + 1 && Sum(connectors) == exit.funding
    ensures forall i :: 0 <= i < |connectors| ==> connectors[i] == 330
  {
    var funding := CONNECTOR_SATS * (n + 1);
    exit := ExitOutputs(payout, funding, coin.value - payout - funding - minerFee);
    connectors := [];
    while |connectors| < n + 1
      invariant |connectors| <= n + 1
      invariant Sum(connectors) == CONNECTOR_SATS * |connectors|
      invariant forall i :: 0 <= i < |connectors| ==> connectors[i] == CONNECTOR_SATS
    {
      SumAppend(connectors, [CONNECTOR_SATS]);
      connectors := connectors + [CONNECTOR_SATS];
    }
  }

  // ---- The fee bump ----

  const WITNESS_BOUND: nat := 28

  /** A child fee lifts the package and the signed child to the wanted rate. */
  predicate FeeSuffices(parentSize: nat, parentFee: nat, childSize: nat, rate: nat, fee: nat) {
    && parentFee + fee >= rate * (parentSize + (childSize + 28))
    && fee >= rate * (childSize + 28)
  }

  /** The bump spends exactly the change, pays the least sufficient fee, and
      succeeds whenever some sufficient fee is within both limits. */
  method CpfpTransaction(parentSize: nat, parentFee: u64, childSize: nat, rate: u64, maxFee: u64, change: u64,
                         dust: u64)
    returns (r: Outcome<(u64, u64)>)
    requires parentSize + childSize + WITNESS_BOUND <= U64_MAX
    ensures r.Ok? ==> r.value.0 + r.value.1 == change && r.value.0 >= dust && r.value.1 <= maxFee
    ensures r.Ok? ==> FeeSuffices(parentSize, parentFee, childSize, rate, r.value.1)
    ensures r.Ok? ==> forall f: nat :: FeeSuffices(parentSize, parentFee, childSize, rate, f) ==> r.value.1 <= f
    ensures r.Ok? <==>
      rate * (parentSize + (childSize + 28)) <= U64_MAX
      && exists f: nat :: FeeSuffices(parentSize, parentFee, childSize, rate, f) && f <= maxFee && f + dust <= change
  {
    var vbytes := childSize + WITNESS_BOUND;
    var packageFee := CheckedMul(rate, parentSize + vbytes);
    if packageFee.None? {
      return Err(Invalid);
    }
    ProductMonotone(rate, vbytes, parentSize + vbytes);
    var childFee := CheckedMul(rate, vbytes);
    if childFee.None? {
      return Err(Invalid);
    }
    var fee := Max(SaturatingSub(packageFee.value, parentFee), childFee.value);
    assert FeeSuffices(parentSize, parentFee, childSize, rate, fee);
    assert forall f: nat :: FeeSuffices(parentSize, parentFee, childSize, rate, f) ==> fee <= f;
    if fee > maxFee {
      return Err(Invalid);
    }
    var value := CheckedSub(change, fee);
    if value.None? || value.value < dust {
      return Err(Invalid);
    }
    r := Ok((value.value, fee));
  }

  lemma ProductMonotone(rate: nat, a: nat, b: nat)
    requires a <= b
    ensures rate * a <= rate * b
  {
  }
}
