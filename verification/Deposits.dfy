/** The static deposit service (src/instant_deposits.rs, src/static_deposits.rs):
    the claim, advance and rescan procedures over both claim tables. */
module Deposits {
  import opened Basics
  import opened ExitTransfer
  import opened Rescan
  import opened DepositRun

  datatype InstantQuote = InstantQuote(id: nat, outpoint: Outpoint, owner: nat, address: nat,
                                       value: u64, credit: u64, expires: int, height: nat)
  datatype FixedQuote = FixedQuote(outpoint: Outpoint, owner: nat, address: nat, value: u64, credit: u64,
                                   signature: nat, expires: int)

  /** One claim moved on; the other rows are as they were. */
  ghost predicate OnlyInstant(before: seq<InstantClaim>, i: nat, after: seq<InstantClaim>) {
    i < |before| == |after| && after == before[i := after[i]] && ClaimEvolves(before[i], after[i])
  }

  /** What the node answers for every block and output of one pass. */
  datatype NodeView = NodeView(chain: seq<Block>, utxos: set<Outpoint>)

  /** The confirmations of the quoted output while it is unspent, and the chain. */
  datatype Sighting = Sighting(coin: Outcome<Option<nat>>, node: Outcome<NodeView>)

  /** The node answers truthfully: no output with a confirmed recovery is unspent,
      and an output pays what it pays (an address stands for its script). */
  ghost predicate Truthful(s: State, view: NodeView) {
    && (forall p :: p in view.utxos ==> !Spent(s, p))
    && (forall h, x :: 0 <= h < |view.chain| && 0 <= x < |view.chain[h]| ==> TruthfulTx(s, view.chain[h][x]))
  }

  ghost predicate TruthfulTx(s: State, tx: Tx) {
    forall o :: o in tx.outputs ==> s.outputAt(Outpoint(tx.txid, o.n)) == Site(o.script, o.value)
  }

  ghost predicate TruthfulSight(s: State, quoted: Outpoint, sight: Sighting) {
    && (sight.coin.Ok? && sight.coin.value.Some? ==> !Spent(s, quoted))
    && (sight.node.Ok? ==> Truthful(s, sight.node.value))
  }

  /** Until the next recovery confirms, what was truthful stays so. */
  lemma StillTruthful(s: State, t: State, quoted: Outpoint, sight: Sighting)
    requires TruthfulSight(s, quoted, sight) && t.outputAt == s.outputAt
    requires forall p :: Spent(t, p) ==> Spent(s, p)
    ensures TruthfulSight(t, quoted, sight)
  {
    hide Spent;
    if sight.node.Ok? {
      var view := sight.node.value;
      forall h, x | 0 <= h < |view.chain| && 0 <= x < |view.chain[h]| ensures TruthfulTx(t, view.chain[h][x]) {
        assert TruthfulTx(s, view.chain[h][x]);
      }
    }
  }

  lemma SpentByRows(s: State, t: State)
    requires t.instants == s.instants && t.fixed == s.fixed
    ensures forall p :: Spent(t, p) <==> Spent(s, p)
  {
  }

  lemma PendingSpendsNothing(s: State, t: State, i: nat)
    requires t.fixed == s.fixed && i < |t.instants| && t.instants[i].Pending()
    requires i <= |s.instants| && t.instants[..i] == s.instants[..i]
    requires t.instants[i + 1..] == if i < |s.instants| then s.instants[i + 1..] else []
    ensures forall p :: Spent(t, p) ==> Spent(s, p)
  {
    forall p | Spent(t, p) ensures Spent(s, p) {
      if k :| 0 <= k < |t.instants| && !t.instants[k].Pending() && t.instants[k].plan.outpoint == p {
        assert if k < i then t.instants[k] == t.instants[..i][k] else t.instants[k] == t.instants[i + 1..][k - i - 1];
        assert k < |s.instants| && s.instants[k] == t.instants[k];
      }
    }
  }

  /** An unspent output of the same script and value in the claim's window. */
  ghost predicate Replaced(cursor: nat, value: u64, address: nat, view: NodeView, p: Outpoint) {
    && |view.chain| > 0 && p in view.utxos
    && exists h: nat :: WindowStart(cursor, |view.chain| - 1) <= h <= WindowEnd(cursor, |view.chain| - 1)
         && BlockHas(view.chain[h], address, value, view.utxos, p)
  }

  lemma ReplacementIsUnspent(s: State, cursor: nat, value: u64, address: nat, view: NodeView, p: Outpoint)
    requires Truthful(s, view) && Replaced(cursor, value, address, view, p)
    ensures Unspent(s, p, address, value)
  {
    var h: nat :| WindowStart(cursor, |view.chain| - 1) <= h <= WindowEnd(cursor, |view.chain| - 1)
      && BlockHas(view.chain[h], address, value, view.utxos, p);
    var x :| 0 <= x < |view.chain[h]| && TxHas(view.chain[h][x], address, value, view.utxos, p);
    assert TruthfulTx(s, view.chain[h][x]);
  }

  ghost predicate NotReplaced(cursor: nat, value: u64, address: nat, view: NodeView) {
    |view.chain| > 0 &&
    forall h: nat :: WindowStart(cursor, |view.chain| - 1) <= h <= WindowEnd(cursor, |view.chain| - 1) ==>
      !HeightHas(view.chain, h, address, value, view.utxos)
  }

  /** Where the deposit is: the quoted output, confirmed, or its replacement. */
  ghost predicate Located(c: InstantClaim, sight: Sighting, p: Outpoint) {
    && sight.coin.Ok?
    && match sight.coin.value {
         case Some(confirmations) => confirmations > 0 && p == c.outpoint
         case None =>
           && sight.node.Ok? && |sight.node.value.chain| > 0
           && Replaced(c.scanHeight, c.value, c.address, sight.node.value, p)
       }
  }

  /** The window held no replacement, and the next pass starts behind it. */
  ghost predicate MovedOn(c: InstantClaim, sight: Sighting, d: InstantClaim) {
    && sight.node.Ok? && |sight.node.value.chain| > 0
    && NotReplaced(c.scanHeight, c.value, c.address, sight.node.value)
    && d == c.(scanHeight := NextCursor(c.scanHeight, |sight.node.value.chain| - 1))
  }

  /** Both limits allow one more claim of this value and credit. */
  ghost predicate Affordable(s: State, value: u64, credit: u64) {
    s.limit > 0 && 0 < s.maxDeposit && value <= s.maxDeposit && Outstanding(s.instants) + credit <= s.limit
  }

  /** One confirmed claim moved on; its quote and its plan never change. */
  ghost predicate OnlyFixed(before: seq<FixedClaim>, i: nat, after: seq<FixedClaim>) {
    i < |before| == |after| && after == before[i := after[i]] && FixedEvolves(before[i], after[i])
  }

  predicate FixedEvolves(f: FixedClaim, g: FixedClaim) {
    && g == f.(signed := g.signed, succeeded := g.succeeded, phase := g.phase)
    && (f.signed.Some? ==> g.signed == f.signed)
    && (f.succeeded ==> g.succeeded)
  }

  // ---- What one visit does to a claim ----

  /** What the outside answers while one instant claim is carried on: the operators'
      credit, the node's sight of the deposit, the operators' signature, the
      confirmations of the recovery, and the node's answer to a broadcast. */
  datatype InstantReplies = InstantReplies(reserve: Outcome<()>, sight: Sighting, spend: Outcome<nat>,
                                           confirmations: Outcome<int>, accepted: Outcome<()>)

  /** The same for a confirmed claim, whose one swap request returns the signature. */
  datatype FixedReplies = FixedReplies(claim: Outcome<nat>, confirmations: Outcome<int>, accepted: Outcome<()>)

  /** A lookup that fails counts as unconfirmed. */
  function Depth(confirmations: Outcome<int>): int {
    if confirmations.Ok? then confirmations.value else 0
  }

  function WithSpend(c: InstantClaim, spend: Outcome<nat>): InstantClaim {
    if c.signed.None? && spend.Ok? then c.(signed := Some(spend.value), phase := SpendCreated) else c
  }

  /** A frozen claim after one visit: signed once, sent while no block holds its
      recovery, and confirmed at three confirmations. */
  function Recovered(c: InstantClaim, q: InstantReplies): InstantClaim {
    var s := WithSpend(c, q.spend);
    if s.signed.None? then s
    else if Depth(q.confirmations) >= 3 then s.(phase := SpendConfirmed)
    else if Depth(q.confirmations) >= 1 || q.accepted.Ok? then s.(phase := SpendBroadcast)
    else s
  }

  predicate RecoveryFails(c: InstantClaim, q: InstantReplies) {
    WithSpend(c, q.spend).signed.None? || (Depth(q.confirmations) <= 0 && !q.accepted.Ok?)
  }

  /** A paid claim looks for its deposit: found, not there yet, or unknown. */
  ghost predicate Looks(c: InstantClaim, sight: Sighting, d: InstantClaim, r: Outcome<bool>) {
    match sight.coin
    case Ok(Some(n)) =>
      if n > 0 then r == Ok(true) && d == Prepared(c, c.outpoint) else r == Ok(false) && d == c
    case Ok(None) =>
      if !sight.node.Ok? || |sight.node.value.chain| == 0 then r.Err? && d == c
      else if r == Ok(true) then
        && Replaced(c.scanHeight, c.value, c.address, sight.node.value, d.plan.outpoint)
        && d == Prepared(c, d.plan.outpoint)
      else r == Ok(false) && MovedOn(c, sight, d)
    case _ => r.Err? && d == c
  }

  /** Reserve once, then look; true once the plan is frozen. */
  ghost predicate Prepares(c: InstantClaim, q: InstantReplies, d: InstantClaim, r: Outcome<bool>) {
    if Rank(c.phase) >= Rank(RecoveryPrepared) then d == c && r == Ok(true)
    else if c.phase == Created && !q.reserve.Ok? then d == c && r.Err?
    else Looks(c.(phase := TransferCompleted), q.sight, d, r)
  }

  /** One visit to an instant claim, without a crash. */
  ghost predicate Visits(c: InstantClaim, q: InstantReplies, d: InstantClaim, ok: bool) {
    if !c.Pending() then d == c && ok
    else exists m: InstantClaim, p: Outcome<bool> :: Prepares(c, q, m, p) && Finishes(m, q, p, d, ok)
  }

  predicate Finishes(m: InstantClaim, q: InstantReplies, p: Outcome<bool>, d: InstantClaim, ok: bool) {
    if p == Ok(true) then d == Recovered(m, q) && (ok <==> !RecoveryFails(m, q))
    else d == m && (ok <==> p.Ok?)
  }

  /** A confirmed claim after one visit: signed once, sent until a block holds its
      recovery, and SUCCEEDED either way. */
  function FixedVisited(f: FixedClaim, q: FixedReplies): FixedClaim {
    var s := if f.signed.None? && q.claim.Ok? then f.(signed := Some(q.claim.value), phase := SpendCreated) else f;
    if f.phase == SpendConfirmed || s.signed.None? then f
    else if Depth(q.confirmations) >= 1 then s.(succeeded := true, phase := SpendConfirmed)
    else if q.accepted.Ok? then s.(succeeded := true, phase := SpendBroadcast)
    else s
  }

  predicate FixedFails(f: FixedClaim, q: FixedReplies) {
    && f.phase != SpendConfirmed
    && ((f.signed.None? && !q.claim.Ok?) || (Depth(q.confirmations) <= 0 && !q.accepted.Ok?))
  }

  /** A claim ends exactly when its recovery is signed and deep enough. */
  lemma ConfirmedIff(c: InstantClaim, q: InstantReplies)
    requires c.Pending()
    ensures Recovered(c, q).phase == SpendConfirmed <==>
      (c.signed.Some? || q.spend.Ok?) && q.confirmations.Ok? && q.confirmations.value >= 3
  {
  }

  lemma FixedConfirmedIff(f: FixedClaim, q: FixedReplies)
    requires f.phase != SpendConfirmed
    ensures FixedVisited(f, q).phase == SpendConfirmed <==>
      (f.signed.Some? || q.claim.Ok?) && q.confirmations.Ok? && q.confirmations.value >= 1
  {
  }

  class StaticDepositService {
    const limit: u64
    const maxDeposit: u64
    ghost const outputAt: Outpoint -> Site
    // instant_claims and deposit_claims in row order
    var instants: seq<InstantClaim>
    var fixed: seq<FixedClaim>
    // What the operators and the Bitcoin node have been asked.
    ghost var reserved: set<nat>
    ghost var reserveCalls: set<(nat, nat)>
    ghost var signCalls: set<(nat, Plan)>
    ghost var claimCalls: set<(nat, Plan)>
    ghost var passes: set<(nat, nat, nat)>
    // What the node has answered about recoveries, and which it was sent.
    ghost var depths: set<(nat, int)>
    ghost var sent: set<(nat, nat)>
    ghost var fixedDepths: set<(nat, int)>
    ghost var fixedSent: set<(nat, nat)>
    ghost var run: seq<Action>

    ghost function Now(): State
      reads this
    {
      State(limit, maxDeposit, outputAt, instants, fixed, reserved, reserveCalls, signCalls, claimCalls, passes,
            depths, sent, fixedDepths, fixedSent)
    }

    ghost predicate Valid()
      reads this
    {
      Legal(Initial(limit, maxDeposit, outputAt), run) && After(Initial(limit, maxDeposit, outputAt), run) == Now()
    }

    constructor (limit: u64, maxDeposit: u64, ghost outputAt: Outpoint -> Site)
      ensures Valid() && run == []
      ensures this.limit == limit && this.maxDeposit == maxDeposit && this.outputAt == outputAt
    {
      this.limit, this.maxDeposit, this.outputAt := limit, maxDeposit, outputAt;
      instants, fixed := [], [];
      reserved, reserveCalls, signCalls, claimCalls, passes := {}, {}, {}, {}, {};
      depths, sent, fixedDepths, fixedSent, run := {}, {}, {}, {}, [];
    }

    ghost method Did(a: Action, before: State)
      requires Legal(Initial(limit, maxDeposit, outputAt), run)
      requires After(Initial(limit, maxDeposit, outputAt), run) == before
      requires Enabled(before, a) && Now() == Apply(before, a)
      modifies this`run
      ensures Valid() && run == old(run) + [a]
    {
      Extend(Initial(limit, maxDeposit, outputAt), run, a);
      run := run + [a];
    }

    lemma Holds()
      requires Valid()
      ensures Inv(Now())
    {
      EveryRunKeepsInv(limit, maxDeposit, outputAt, run);
    }

    // ---- One commit, or one outside call ----

    /** The limits are checked again in the transaction that inserts the row. */
    method InsertInstantClaim(c: InstantClaim) returns (r: Outcome<()>)
      requires Valid() && c.phase == Created && c.signed.None? && c.scanHeight == c.scanStart
      requires c.plan.outpoint == c.outpoint && Unspent(Now(), c.outpoint, c.address, c.value)
      modifies this`instants, this`run
      ensures Valid() && old(run) <= run
      ensures r.Ok? ==> instants == old(instants) + [c]
      ensures r.Err? ==> instants == old(instants)
      ensures instants != old(instants) ==>
        instants == old(instants) + [c] && InstantFits(old(instants), fixed, c)
        && Affordable(old(Now()), c.value, c.credit)
      ensures r.Err? ==> !InstantFits(instants, fixed, c) || !Affordable(Now(), c.value, c.credit)
    {
      var dies: bool := *;
      var committed: bool := *;
      if dies && !committed {
        return Crashed;
      }
      Holds();
      var affordable := CheckExposure(c.value, c.credit, Outstanding(instants), maxDeposit, limit);
      if !affordable || !InstantFits(instants, fixed, c) {
        return if dies then Crashed else Err(Rejected);
      }
      ghost var before := Now();
      instants := instants + [c];
      Did(InsertInstant(c), before);
      r := if dies then Crashed else Ok(());
    }

    method SaveInstant(i: nat, c: InstantClaim) returns (r: Outcome<()>)
      requires Valid() && LegalSaveInstant(Now(), i, c)
      modifies this`instants, this`run
      ensures Valid() && old(run) <= run
      ensures i < |old(instants)| && (instants == old(instants) || instants == old(instants)[i := c])
      ensures r.Ok? ==> instants == old(instants)[i := c] && run == old(run) + [DepositRun.SaveInstant(i, c)]
      ensures r.Ok? || r.Crashed?
    {
      var dies: bool := *;
      var committed: bool := *;
      if dies && !committed {
        return Crashed;
      }
      ghost var before := Now();
      instants := instants[i := c];
      Did(DepositRun.SaveInstant(i, c), before);
      r := if dies then Crashed else Ok(());
    }

    /** The operators may commit the credit and lose the reply. */
    method SubmitInstantReserve(i: nat, reply: Outcome<()>)
      requires Valid() && i < |instants| && instants[i].phase == Created
      modifies this`reserved, this`reserveCalls, this`run
      ensures Valid() && run == old(run) + [CallReserve(i, reply.Ok?)]
      ensures reply.Ok? ==> i in reserved
    {
      ghost var before := Now();
      reserveCalls := reserveCalls + {(i, instants[i].transferId)};
      reserved := if reply.Ok? then reserved + {i} else reserved;
      Did(CallReserve(i, reply.Ok?), before);
    }

    /** A recovery signature for the stored plan; any nonce use may be lost. */
    method SubmitRecovery(i: nat)
      requires Valid() && i < |instants| && instants[i].phase == RecoveryPrepared
      modifies this`signCalls, this`run
      ensures Valid() && run == old(run) + [CallSign(i)] && (i, instants[i].plan) in signCalls
    {
      ghost var before := Now();
      signCalls := signCalls + {(i, instants[i].plan)};
      Did(CallSign(i), before);
    }

    /** The node's answer about a recovery is noted when it has one. */
    ghost method NoteDepth(i: nat, confirmations: Outcome<int>)
      requires Valid() && i < |instants| && instants[i].signed.Some?
      modifies this`depths, this`run
      ensures Valid()
      ensures run == if confirmations.Ok? then old(run) + [SeeDepth(i, confirmations.value)] else old(run)
      ensures confirmations.Ok? ==> (i, confirmations.value) in depths
    {
      if confirmations.Ok? {
        var before := Now();
        depths := depths + {(i, confirmations.value)};
        Did(SeeDepth(i, confirmations.value), before);
      }
    }

    /** The node may accept the recovery and lose the reply. */
    method SendRaw(i: nat)
      requires Valid() && i < |instants| && instants[i].signed.Some? && instants[i].Pending()
      modifies this`sent, this`run
      ensures Valid() && run == old(run) + [SendRecovery(i)] && (i, instants[i].signed.value) in sent
    {
      ghost var before := Now();
      sent := sent + {(i, instants[i].signed.value)};
      Did(SendRecovery(i), before);
    }

    /** Read every block of the window that the stored cursor and the tip give. */
    method ScanPass(i: nat, view: NodeView) returns (found: Option<Outpoint>)
      requires Valid() && i < |instants| && instants[i].phase == TransferCompleted && |view.chain| > 0
      modifies this`passes, this`run
      ensures Valid() && old(run) <= run
      ensures AfterPass(Now(), i, instants[i].scanHeight, NextCursor(instants[i].scanHeight, |view.chain| - 1))
      ensures found.Some? ==>
        Replaced(instants[i].scanHeight, instants[i].value, instants[i].address, view, found.value)
      ensures found.None? ==> NotReplaced(instants[i].scanHeight, instants[i].value, instants[i].address, view)
    {
      hide After, Legal;
      var cursor, tip := instants[i].scanHeight, |view.chain| - 1;
      ghost var at: nat;
      found, at := ScanWindow(view.chain, WindowStart(cursor, tip), WindowEnd(cursor, tip),
        instants[i].address, instants[i].value, view.utxos);
      ghost var before := Now();
      passes := passes + {(i, cursor, tip)};
      Did(Pass(i, tip), before);
    }

    // ---- Instant deposits ----

    /** The exact output once confirmed, or a confirmed replacement of it. A pass
        that finds nothing stores the cursor behind what it read. */
    method ConfirmedInstantOutpoint(i: nat, sight: Sighting) returns (r: Outcome<Option<Outpoint>>)
      requires Valid() && i < |instants| && instants[i].phase == TransferCompleted
      requires TruthfulSight(Now(), instants[i].outpoint, sight)
      modifies this`instants, this`passes, this`run
      ensures Valid() && old(run) <= run
      ensures OnlyInstant(old(instants), i, instants)
      ensures r.Ok? && r.value.Some? ==> instants == old(instants) && Located(old(instants[i]), sight, r.value.value)
      ensures r.Ok? && r.value.Some? ==> Unspent(Now(), r.value.value, instants[i].address, instants[i].value)
      ensures r.Ok? && r.value.None? ==> sight.coin.Ok?
      ensures r.Ok? && r.value.None? && sight.coin.value.Some? ==>
        sight.coin.value.value == 0 && instants == old(instants)
      ensures r.Ok? && r.value.None? && sight.coin.value.None? ==> MovedOn(old(instants[i]), sight, instants[i])
      ensures r.Err? ==> instants == old(instants)
      ensures r.Err? && sight.coin.Ok? ==>
        sight.coin.value.None? && (!sight.node.Ok? || |sight.node.value.chain| == 0)
      ensures instants[i].phase == TransferCompleted && instants[i].plan == old(instants[i]).plan
    {
      hide After, Legal, Replaced, NotReplaced, AfterPass, Spent, Truthful;
      Holds();
      var spent :- sight.coin;
      if spent.Some? {
        return Ok(if spent.value > 0 then Some(instants[i].outpoint) else None);
      }
      var view :- sight.node;
      if |view.chain| == 0 {
        return Err(Unavailable);
      }
      ghost var before := Now();
      var found := ScanPass(i, view);
      if found.Some? {
        SpentByRows(before, Now());
        ReplacementIsUnspent(before, instants[i].scanHeight, instants[i].value, instants[i].address, view, found.value);
        return Ok(found);
      }
      var next := NextCursor(instants[i].scanHeight, |view.chain| - 1);
      var _ :- SaveInstant(i, instants[i].(scanHeight := next));
      r := Ok(None);
    }

    /** The credit is reserved under the claim's one transfer id. */
    method EnsureReserved(i: nat, reply: Outcome<()>) returns (r: Outcome<()>)
      requires Valid() && i < |instants|
      modifies this`instants, this`reserved, this`reserveCalls, this`run
      ensures Valid() && old(run) <= run
      ensures i < |instants| && OnlyInstant(old(instants), i, instants)
      ensures r.Ok? ==> instants[i] == old(instants[i]).(
        phase := if old(instants[i]).phase == Created then TransferCompleted else old(instants[i]).phase)
      ensures r.Err? ==> instants == old(instants)
      ensures !r.Crashed? ==> (r.Err? <==> old(instants[i]).phase == Created && !reply.Ok?)
      ensures old(instants[i]).Pending() ==> instants[i].Pending()
      ensures old(instants[i]).phase != Created ==> r.Ok? && run == old(run)
    {
      hide After, Legal;
      if instants[i].phase == Created {
        SubmitInstantReserve(i, reply);
        var _ :- reply;
        var _ :- SaveInstant(i, instants[i].(phase := TransferCompleted));
      }
      r := Ok(());
    }

    /** Reserve the credit, then freeze the recovery plan: true when it is frozen. */
    method ReserveAndPrepare(i: nat, q: InstantReplies) returns (r: Outcome<bool>)
      requires Valid() && i < |instants| && TruthfulSight(Now(), instants[i].outpoint, q.sight)
      modifies this`instants, this`reserved, this`reserveCalls, this`passes, this`run
      ensures Valid() && old(run) <= run
      ensures OnlyInstant(old(instants), i, instants)
      ensures r == Ok(true) ==> Rank(instants[i].phase) >= Rank(RecoveryPrepared)
      ensures r == Ok(false) ==> instants[i].phase == TransferCompleted
      ensures Rank(old(instants[i]).phase) >= Rank(RecoveryPrepared) ==> run == old(run)
      ensures old(instants[i]).Pending() ==> instants[i].Pending()
      ensures !r.Crashed? ==> Prepares(old(instants[i]), q, instants[i], r)
    {
      hide After, Legal, Replaced, NotReplaced, AfterPass, Spent, Truthful;
      ghost var before := Now();
      var _ :- EnsureReserved(i, q.reserve);
      if instants[i].phase == TransferCompleted {
        PendingSpendsNothing(before, Now(), i);
        StillTruthful(before, Now(), instants[i].outpoint, q.sight);
        var point :- ConfirmedInstantOutpoint(i, q.sight);
        if point.None? {
          return Ok(false);
        }
        // The replacement outpoint is stored before any signature is asked for.
        var plan := Plan(point.value, instants[i].plan.nonce);
        var _ :- SaveInstant(i, instants[i].(plan := plan, phase := RecoveryPrepared));
      }
      r := Ok(true);
    }

    /** Sign the frozen plan unless its signature is stored already. */
    method EnsureRecoverySigned(i: nat, spend: Outcome<nat>) returns (r: Outcome<()>)
      requires Valid() && i < |instants| && Rank(instants[i].phase) >= Rank(RecoveryPrepared) && instants[i].Pending()
      modifies this`instants, this`signCalls, this`run
      ensures Valid() && old(run) <= run
      ensures OnlyInstant(old(instants), i, instants) && instants[i].Pending()
      ensures !r.Crashed? ==> instants[i] == WithSpend(old(instants[i]), spend)
      ensures !r.Crashed? ==> (r.Ok? <==> instants[i].signed.Some?)
      ensures r.Ok? ==> instants[i].phase == SpendCreated || instants[i].phase == SpendBroadcast
      ensures old(instants[i]).signed.None? ==> |run| > |old(run)| && run[|old(run)|] == CallSign(i)
      ensures old(instants[i]).signed.Some? ==> r.Ok? && run == old(run)
    {
      hide After, Legal;
      Holds();
      assert CallsMatch(Now(), i);
      if instants[i].signed.None? {
        SubmitRecovery(i);
        var raw :- spend;
        var _ :- SaveInstant(i, instants[i].(signed := Some(raw), phase := SpendCreated));
      }
      r := Ok(());
    }

    /** Send the stored recovery until a block holds it, and store it as confirmed
        once the node reports three confirmations. */
    method BroadcastRecovery(i: nat, q: InstantReplies) returns (r: Outcome<()>)
      requires Valid() && i < |instants| && instants[i].signed.Some?
      requires instants[i].phase == SpendCreated || instants[i].phase == SpendBroadcast
      modifies this`instants, this`depths, this`sent, this`run
      ensures Valid() && old(run) <= run
      ensures OnlyInstant(old(instants), i, instants)
      ensures !r.Crashed? ==> instants[i] == Recovered(old(instants[i]), q)
      ensures !r.Crashed? ==> (r.Err? <==> RecoveryFails(old(instants[i]), q))
      ensures r.Ok? && Depth(q.confirmations) < 1 ==>
        |run| >= |old(run)| + 2 && run[|run| - 2] == SendRecovery(i) && (i, instants[i].signed.value) in sent
      ensures r.Ok? && Depth(q.confirmations) >= 1 ==> sent == old(sent)
      ensures r.Ok? ==> run[|run| - 1] == DepositRun.SaveInstant(i, instants[i])
    {
      hide After, Legal;
      NoteDepth(i, q.confirmations);
      if q.confirmations.Crashed? {
        return Crashed;
      }
      var confirmations := if q.confirmations.Ok? then q.confirmations.value else 0;
      if confirmations <= 0 {
        SendRaw(i);
        var _ :- q.accepted;
      }
      r := SaveInstant(i, instants[i].(phase := if confirmations >= 3 then SpendConfirmed else SpendBroadcast));
    }

    /** Carry one instant claim as far as the outside world allows. */
    method AdvanceInstant(i: nat, q: InstantReplies) returns (r: Outcome<()>)
      requires Valid() && i < |instants| && TruthfulSight(Now(), instants[i].outpoint, q.sight)
      modifies this`instants, this`reserved, this`reserveCalls, this`signCalls, this`passes
      modifies this`depths, this`sent, this`run
      ensures Valid() && old(run) <= run
      ensures OnlyInstant(old(instants), i, instants)
      ensures !r.Crashed? ==> Visits(old(instants[i]), q, instants[i], r.Ok?)
      ensures r.Ok? ==> instants[i].phase == TransferCompleted || Rank(instants[i].phase) >= Rank(SpendBroadcast)
      ensures !old(instants[i]).Pending() ==> r == Ok(()) && run == old(run)
    {
      hide After, Legal, LegalSaveInstant, Prepares, TruthfulSight;
      if instants[i].phase == SpendConfirmed {
        return Ok(());
      }
      ghost var c := instants[i];
      var ready := ReserveAndPrepare(i, q);
      if !ready.Ok? {
        return ready.PropagateFailure();
      }
      if !ready.value {
        return Ok(());
      }
      ghost var m := instants[i];
      var signed := EnsureRecoverySigned(i, q.spend);
      if !signed.Ok? {
        assert signed.Err? ==> Finishes(m, q, Ok(true), instants[i], false);
        return signed;
      }
      r := BroadcastRecovery(i, q);
      assert !r.Crashed? ==> Finishes(m, q, Ok(true), instants[i], r.Ok?);
    }

    method FindInstant(owner: nat, quoteId: nat) returns (found: Option<nat>)
      ensures found.Some? ==> found.value < |instants|
      ensures found.Some? ==> instants[found.value].quoteId == quoteId && instants[found.value].owner == owner
      ensures found.None? ==> forall i :: 0 <= i < |instants| ==>
        instants[i].quoteId != quoteId || instants[i].owner != owner
    {
      for i := 0 to |instants|
        invariant forall j :: 0 <= j < i ==> instants[j].quoteId != quoteId || instants[j].owner != owner
      {
        if instants[i].quoteId == quoteId && instants[i].owner == owner {
          return Some(i);
        }
      }
      found := None;
    }

    /** The row of a new claim, once everything that may forbid it was checked. */
    method GrantInstant(quote: InstantQuote, now: int, authorized: Outcome<()>, coinAsQuoted: Outcome<bool>,
                        transferId: nat, nonce: nat)
      returns (r: Outcome<()>)
      requires Valid()
      requires coinAsQuoted == Ok(true) ==> Unspent(Now(), quote.outpoint, quote.address, quote.value)
      modifies this`instants, this`run
      ensures Valid() && old(run) <= run
      ensures instants == old(instants) || instants == old(instants) + [NewInstant(quote, transferId, nonce)]
      ensures r.Ok? ==> instants == old(instants) + [NewInstant(quote, transferId, nonce)]
      ensures instants != old(instants) ==> Grantable(old(Now()), quote, now, authorized, coinAsQuoted)
      ensures Grantable(old(Now()), quote, now, authorized, coinAsQuoted) ==> !r.Err?
    {
      hide After, Legal, InstantFits;
      if InstantFits(instants, fixed, NewInstant(quote, 0, 0)) {
        GrantNeeds(Now(), quote);
      }
      if quote.expires <= now {
        return Err(Invalid);
      }
      Holds();
      if !CheckExposure(quote.value, quote.credit, Outstanding(instants), maxDeposit, limit) {
        return Err(Liquidity);
      }
      var _ :- authorized;
      var same :- coinAsQuoted;
      if !same {
        return Err(Mismatch);
      }
      if exists j :: 0 <= j < |instants| && Clashes(instants[j], quote) {
        return Err(Pending);
      }
      if exists j :: 0 <= j < |fixed| && fixed[j].outpoint == quote.outpoint {
        return Err(Pending);
      }
      var start := Below6(quote.height);
      FitsAlike(instants, fixed, quote, transferId, nonce);
      r := InsertInstantClaim(DepositRun.InstantClaim.InstantClaim(quote.id, quote.outpoint, quote.owner,
        quote.address, quote.value, quote.credit, transferId, start, Plan(quote.outpoint, nonce), Created, None,
        start));
    }

    /** Answer a replay by carrying on the stored claim, or grant a new one and
        carry that on. `authorized` and `coinAsQuoted` are the outcomes of the
        signature check and of the recheck of the exact output. */
    method InstantClaim(owner: nat, quoteId: nat, quote: Option<InstantQuote>, now: int,
                        authorized: Outcome<()>, coinAsQuoted: Outcome<bool>, transferId: nat, nonce: nat,
                        q: InstantReplies)
      returns (r: Outcome<nat>)
      requires Valid()
      requires quote.Some? ==> quote.value.id == quoteId && quote.value.owner == owner
      requires quote.Some? && coinAsQuoted == Ok(true) ==>
        Unspent(Now(), quote.value.outpoint, quote.value.address, quote.value.value)
      requires quote.Some? ==> TruthfulSight(Now(), quote.value.outpoint, q.sight)
      requires forall i :: 0 <= i < |instants| && instants[i].quoteId == quoteId ==>
        TruthfulSight(Now(), instants[i].outpoint, q.sight)
      modifies this`instants, this`reserved, this`reserveCalls, this`signCalls, this`passes
      modifies this`depths, this`sent, this`run
      ensures Valid() && old(run) <= run
      ensures r.Ok? ==> r.value < |instants| && instants[r.value].quoteId == quoteId && instants[r.value].owner == owner
      ensures r.Ok? && r.value < |old(instants)| ==> OnlyInstant(old(instants), r.value, instants)
      ensures r.Ok? && r.value < |old(instants)| ==> Visits(old(instants)[r.value], q, instants[r.value], true)
      ensures r.Ok? && r.value >= |old(instants)| ==>
        && quote.Some? && r.value == |old(instants)| == |instants| - 1
        && Visits(NewInstant(quote.value, transferId, nonce), q, instants[r.value], true)
      ensures !r.Crashed? && (exists i: nat :: Held(old(instants), i, owner, quoteId)) ==>
        exists i: nat :: Held(old(instants), i, owner, quoteId) && i < |instants|
          && Visits(old(instants)[i], q, instants[i], r.Ok?)
      ensures !r.Crashed? && |instants| > |old(instants)| ==>
        quote.Some? && Visits(NewInstant(quote.value, transferId, nonce), q, instants[|old(instants)|], r.Ok?)
      ensures |instants| > |old(instants)| ==>
        quote.Some? && Grantable(old(Now()), quote.value, now, authorized, coinAsQuoted)
      ensures quote.Some? && Grantable(old(Now()), quote.value, now, authorized, coinAsQuoted) && r.Err? ==>
        |instants| > |old(instants)|
    {
      hide After, Legal, Visits, Spent;
      var found := FindInstant(owner, quoteId);
      assert found.None? ==> forall j :: !Held(instants, j, owner, quoteId);
      var i: nat;
      if found.Some? {
        assert Held(instants, found.value, owner, quoteId);
        i := found.value;
      } else if quote.None? {
        return Err(Invalid);
      } else {
        ghost var before := Now();
        var _ :- GrantInstant(quote.value, now, authorized, coinAsQuoted, transferId, nonce);
        i := |instants| - 1;
        PendingSpendsNothing(before, Now(), i);
        StillTruthful(before, Now(), quote.value.outpoint, q.sight);
      }
      var advanced := AdvanceInstant(i, q);
      r := if advanced.Ok? then Ok(i) else advanced.PropagateFailure();
    }

    // ---- Confirmed deposits ----

    /** The row is inserted with its nonce and key, before any signing call. */
    method InsertFixedClaim(f: FixedClaim) returns (r: Outcome<()>)
      requires Valid() && f.signed.None? && !f.succeeded && f.phase == Created
      requires Unspent(Now(), f.outpoint, f.address, f.value)
      modifies this`fixed, this`run
      ensures Valid() && old(run) <= run
      ensures r.Ok? ==> fixed == old(fixed) + [f] && FixedFits(instants, old(fixed), f)
      ensures r.Err? ==> fixed == old(fixed) && !FixedFits(instants, fixed, f)
      ensures r.Crashed? ==> fixed == old(fixed) || fixed == old(fixed) + [f]
    {
      var dies: bool := *;
      var committed: bool := *;
      if dies && !committed {
        return Crashed;
      }
      if !FixedFits(instants, fixed, f) {
        return if dies then Crashed else Err(Rejected);
      }
      ghost var before := Now();
      fixed := fixed + [f];
      Did(InsertFixed(f), before);
      r := if dies then Crashed else Ok(());
    }

    method SaveFixed(i: nat, f: FixedClaim) returns (r: Outcome<()>)
      requires Valid() && LegalSaveFixed(Now(), i, f)
      modifies this`fixed, this`run
      ensures Valid() && old(run) <= run
      ensures i < |old(fixed)| && (fixed == old(fixed) || fixed == old(fixed)[i := f])
      ensures r.Ok? ==> fixed == old(fixed)[i := f] && run == old(run) + [DepositRun.SaveFixed(i, f)]
      ensures r.Ok? || r.Crashed?
    {
      var dies: bool := *;
      var committed: bool := *;
      if dies && !committed {
        return Crashed;
      }
      ghost var before := Now();
      fixed := fixed[i := f];
      Did(DepositRun.SaveFixed(i, f), before);
      r := if dies then Crashed else Ok(());
    }

    /** One swap request: it claims the output and returns the signed recovery. */
    method SubmitStaticClaim(i: nat)
      requires Valid() && i < |fixed| && fixed[i].signed.None?
      modifies this`claimCalls, this`run
      ensures Valid() && run == old(run) + [CallClaim(i)] && (i, fixed[i].plan) in claimCalls
    {
      ghost var before := Now();
      claimCalls := claimCalls + {(i, fixed[i].plan)};
      Did(CallClaim(i), before);
    }

    ghost method NoteFixedDepth(i: nat, confirmations: Outcome<int>)
      requires Valid() && i < |fixed| && fixed[i].signed.Some?
      modifies this`fixedDepths, this`run
      ensures Valid()
      ensures run == if confirmations.Ok? then old(run) + [SeeFixedDepth(i, confirmations.value)] else old(run)
      ensures confirmations.Ok? ==> (i, confirmations.value) in fixedDepths
    {
      if confirmations.Ok? {
        var before := Now();
        fixedDepths := fixedDepths + {(i, confirmations.value)};
        Did(SeeFixedDepth(i, confirmations.value), before);
      }
    }

    method SendFixedRaw(i: nat)
      requires Valid() && i < |fixed| && fixed[i].signed.Some? && fixed[i].phase != SpendConfirmed
      modifies this`fixedSent, this`run
      ensures Valid() && run == old(run) + [SendFixed(i)] && (i, fixed[i].signed.value) in fixedSent
    {
      ghost var before := Now();
      fixedSent := fixedSent + {(i, fixed[i].signed.value)};
      Did(SendFixed(i), before);
    }

    /** Ok means the claim succeeded; a stored signature is never asked for again. */
    method Advance(i: nat, q: FixedReplies) returns (r: Outcome<()>)
      requires Valid() && i < |fixed|
      modifies this`fixed, this`claimCalls, this`fixedDepths, this`fixedSent, this`run
      ensures Valid() && old(run) <= run
      ensures OnlyFixed(old(fixed), i, fixed)
      ensures r.Ok? ==> fixed[i].succeeded && fixed[i].signed.Some?
      ensures !r.Crashed? ==> fixed[i] == FixedVisited(old(fixed[i]), q)
      ensures !r.Crashed? ==> (r.Err? <==> FixedFails(old(fixed[i]), q))
      ensures old(fixed[i]).signed.Some? ==> claimCalls == old(claimCalls)
      ensures old(fixed[i]).phase == SpendConfirmed ==> r == Ok(()) && run == old(run)
      ensures r.Ok? && old(fixed[i]).phase != SpendConfirmed && Depth(q.confirmations) < 1 ==>
        |run| >= |old(run)| + 2 && run[|run| - 2] == SendFixed(i) && (i, fixed[i].signed.value) in fixedSent
    {
      hide After, Legal;
      Holds();
      assert FixedMatch(Now(), i);
      if fixed[i].phase == SpendConfirmed {
        return Ok(());
      }
      if fixed[i].signed.None? {
        SubmitStaticClaim(i);
        var raw :- q.claim;
        var _ :- SaveFixed(i, fixed[i].(signed := Some(raw), phase := SpendCreated));
      }
      r := FollowFixed(i, q);
    }

    /** Send the signed recovery unless a block holds it; SUCCEEDED either way. */
    method FollowFixed(i: nat, q: FixedReplies) returns (r: Outcome<()>)
      requires Valid() && i < |fixed| && fixed[i].signed.Some? && fixed[i].phase != SpendConfirmed
      modifies this`fixed, this`fixedDepths, this`fixedSent, this`run
      ensures Valid() && old(run) <= run
      ensures OnlyFixed(old(fixed), i, fixed)
      ensures !r.Crashed? ==> fixed[i] == FixedVisited(old(fixed[i]), q)
      ensures !r.Crashed? ==> (r.Err? <==> FixedFails(old(fixed[i]), q))
      ensures r.Ok? && Depth(q.confirmations) < 1 ==>
        |run| >= |old(run)| + 2 && run[|run| - 2] == SendFixed(i) && (i, fixed[i].signed.value) in fixedSent
    {
      hide After, Legal;
      NoteFixedDepth(i, q.confirmations);
      if q.confirmations.Crashed? {
        return Crashed;
      }
      var confirmed := q.confirmations.Ok? && q.confirmations.value > 0;
      if !confirmed {
        SendFixedRaw(i);
        var _ :- q.accepted;
      }
      r := SaveFixed(i, fixed[i].(succeeded := true, phase := if confirmed then SpendConfirmed else SpendBroadcast));
    }

    /** `coin` is the number of confirmations of the unspent output, if any;
        `prepared` carries the nonce of the signed-to-be request. */
    method Claim(owner: nat, outpoint: Outpoint, signature: nat, credit: u64, quote: Option<FixedQuote>, now: int,
                 authorized: Outcome<()>, coin: Outcome<Option<nat>>, prepared: Outcome<nat>, transferId: nat,
                 replies: FixedReplies)
      returns (r: Outcome<nat>)
      requires Valid()
      requires quote.Some? ==> quote.value.outpoint == outpoint && quote.value.owner == owner
      requires quote.Some? && coin.Ok? && coin.value.Some? ==>
        Unspent(Now(), outpoint, quote.value.address, quote.value.value)
      modifies this`fixed, this`claimCalls, this`fixedDepths, this`fixedSent, this`run
      ensures Valid() && old(run) <= run
      ensures r.Ok? ==> Claimed(fixed, r.value, owner, outpoint)
      ensures r.Ok? && r.value < |old(fixed)| ==>
        && old(fixed)[r.value].signature == signature
        && fixed == old(fixed)[r.value := FixedVisited(old(fixed)[r.value], replies)]
      ensures !r.Crashed? && (exists i: nat :: HeldFixed(old(fixed), i, owner, outpoint)) ==>
        exists i: nat :: HeldFixed(old(fixed), i, owner, outpoint)
          && (r.Ok? <==> old(fixed)[i].signature == signature && !FixedFails(old(fixed)[i], replies))
      ensures |fixed| > |old(fixed)| ==>
        quote.Some? && Allowed(quote.value, signature, credit, now, authorized, coin, prepared)
      ensures r.Ok? && r.value >= |old(fixed)| ==>
        && quote.Some? && prepared.Ok?
        && fixed == old(fixed) + [FixedVisited(NewFixed(quote.value, transferId, prepared.value), replies)]
      ensures quote.Some? && Allowed(quote.value, signature, credit, now, authorized, coin, prepared) && !r.Crashed? ==>
        FixedFits(instants, old(fixed), NewFixed(quote.value, transferId, prepared.value)) ==> |fixed| > |old(fixed)|
    {
      hide After, Legal, FixedFits, LegalSaveFixed;
      for i := 0 to |fixed|
        invariant forall j :: 0 <= j < i ==> fixed[j].outpoint != outpoint || fixed[j].owner != owner
      {
        if fixed[i].outpoint == outpoint && fixed[i].owner == owner {
          assert HeldFixed(fixed, i, owner, outpoint);
          if quote.Some? && prepared.Ok? {
            OutputTaken(instants, fixed, i, NewFixed(quote.value, transferId, prepared.value));
          }
          if fixed[i].signature != signature {
            return Err(Mismatch);
          }
          var _ :- Advance(i, replies);
          return Ok(i);
        }
      }
      assert forall j :: !HeldFixed(fixed, j, owner, outpoint);
      if quote.None? || quote.value.expires <= now {
        return Err(Invalid);
      }
      var q := quote.value;
      if q.signature != signature || q.credit != credit {
        return Err(Mismatch);
      }
      var _ :- authorized;
      var confirmations :- coin;
      if confirmations.None? || confirmations.value < 3 {
        return Err(Rejected);
      }
      var nonce :- prepared;
      var f := FixedClaim(outpoint, owner, q.address, q.value, q.credit, signature, transferId,
        Plan(outpoint, nonce), None, false, Created);
      var _ :- InsertFixedClaim(f);
      var i := |fixed| - 1;
      var _ :- Advance(i, replies);
      r := Ok(i);
    }
  }

  /** The owner's own claim of this quote. */
  predicate Held(instants: seq<InstantClaim>, i: nat, owner: nat, quoteId: nat) {
    i < |instants| && instants[i].owner == owner && instants[i].quoteId == quoteId
  }

  /** The owner's own claim of this output. */
  predicate HeldFixed(fixed: seq<FixedClaim>, i: nat, owner: nat, outpoint: Outpoint) {
    i < |fixed| && fixed[i].owner == owner && fixed[i].outpoint == outpoint
  }

  predicate Clashes(c: InstantClaim, q: InstantQuote) {
    c.Pending() && (c.owner == q.owner || (c.address == q.address && c.value == q.value))
  }

  /** The claim stands at an output of its owner, with a stored recovery. */
  predicate Claimed(fixed: seq<FixedClaim>, i: nat, owner: nat, outpoint: Outpoint) {
    && i < |fixed| && fixed[i].owner == owner && fixed[i].outpoint == outpoint
    && fixed[i].succeeded && fixed[i].signed.Some?
  }

  lemma GrantNeeds(s: State, q: InstantQuote)
    requires InstantFits(s.instants, s.fixed, NewInstant(q, 0, 0))
    ensures forall i :: 0 <= i < |s.instants| ==> s.instants[i].quoteId != q.id && !Clashes(s.instants[i], q)
    ensures forall j :: 0 <= j < |s.fixed| ==> s.fixed[j].outpoint != q.outpoint
  {
  }

  lemma FitsAlike(instants: seq<InstantClaim>, fixed: seq<FixedClaim>, q: InstantQuote, transferId: nat, nonce: nat)
    ensures InstantFits(instants, fixed, NewInstant(q, transferId, nonce)) <==>
      InstantFits(instants, fixed, NewInstant(q, 0, 0))
  {
  }

  lemma OutputTaken(instants: seq<InstantClaim>, fixed: seq<FixedClaim>, j: nat, f: FixedClaim)
    requires j < |fixed| && fixed[j].outpoint == f.outpoint
    ensures !FixedFits(instants, fixed, f)
  {
  }

  /** A new instant claim is its quote; it looks for the deposit from six blocks
      below the height of the quote. */
  function NewInstant(q: InstantQuote, transferId: nat, nonce: nat): InstantClaim {
    var start := if q.height >= 6 then q.height - 6 else 0;
    DepositRun.InstantClaim.InstantClaim(q.id, q.outpoint, q.owner, q.address, q.value, q.credit, transferId,
      start, Plan(q.outpoint, nonce), Created, None, start)
  }

  /** Everything a new advance needs: a live quote, room under the limits, the
      wallet's authorization, the quoted coin, and no other claim in the way. */
  ghost predicate Grantable(s: State, q: InstantQuote, now: int, authorized: Outcome<()>, coinAsQuoted: Outcome<bool>) {
    && now < q.expires && authorized.Ok? && coinAsQuoted == Ok(true) && Affordable(s, q.value, q.credit)
    && InstantFits(s.instants, s.fixed, NewInstant(q, 0, 0))
  }

  function NewFixed(q: FixedQuote, transferId: nat, nonce: nat): FixedClaim {
    FixedClaim(q.outpoint, q.owner, q.address, q.value, q.credit, q.signature, transferId, Plan(q.outpoint, nonce),
      None, false, Created)
  }

  /** A confirmed claim is granted on the unexpired quote that the wallet signed
      for, its authorization, and a coin with three confirmations. */
  predicate Allowed(q: FixedQuote, signature: nat, credit: u64, now: int, authorized: Outcome<()>,
                    coin: Outcome<Option<nat>>, prepared: Outcome<nat>)
  {
    && now < q.expires && q.signature == signature && q.credit == credit
    && authorized.Ok? && coin.Ok? && coin.value.Some? && coin.value.value >= 3 && prepared.Ok?
  }
}
