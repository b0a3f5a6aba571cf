/** Instant and confirmed deposits as one run of commits and outside calls
    (src/instant_deposits.rs, src/static_deposits.rs): bounded credit, one claim
    per output, and a recovery plan that is frozen before it is signed. */
module DepositRun {
  import opened Basics
  import opened Amounts
  import opened ExitTransfer
  import opened Rescan

  datatype Phase = Created | TransferCompleted | RecoveryPrepared | SpendCreated | SpendBroadcast | SpendConfirmed

  /** The operator request and the nonce that one recovery signature uses. */
  datatype Plan = Plan(outpoint: Outpoint, nonce: nat)

  datatype InstantClaim = InstantClaim(
    quoteId: nat, outpoint: Outpoint, owner: nat, address: nat, value: u64, credit: u64,
    transferId: nat, scanStart: nat, plan: Plan, phase: Phase, signed: Option<nat>, scanHeight: nat)
  {
    predicate Pending() {
      phase != SpendConfirmed
    }
  }

  datatype FixedClaim = FixedClaim(
    outpoint: Outpoint, owner: nat, address: nat, value: u64, credit: u64, signature: nat, transferId: nat, plan: Plan,
    signed: Option<nat>, succeeded: bool, phase: Phase)

  /** What an output pays, for good: an address (one per script) and a value. */
  datatype Site = Site(address: nat, value: u64)

  /** Both tables in row order, the limits, and the calls made so far. A pass is a
      claim, the cursor it started from and the tip it saw; it read its window. The
      depths are the confirmations that the node reported of a claim's recovery,
      and the sent ones are the signed recoveries it was given. */
  datatype State = State(
    limit: u64, maxDeposit: u64, outputAt: Outpoint -> Site,
    instants: seq<InstantClaim>, fixed: seq<FixedClaim>,
    reserved: set<nat>,
    reserveCalls: set<(nat, nat)>, signCalls: set<(nat, Plan)>, claimCalls: set<(nat, Plan)>,
    passes: set<(nat, nat, nat)>,
    depths: set<(nat, int)>, sent: set<(nat, nat)>,
    fixedDepths: set<(nat, int)>, fixedSent: set<(nat, nat)>)

  datatype Action =
    | InsertInstant(claim: InstantClaim)
    | CallReserve(i: nat, ok: bool)
    | CallSign(i: nat)
    | Pass(i: nat, tip: nat)
    | SeeDepth(i: nat, depth: int)
    | SendRecovery(i: nat)
    | SaveInstant(i: nat, claim: InstantClaim)
    | InsertFixed(fixed: FixedClaim)
    | CallClaim(i: nat)
    | SeeFixedDepth(i: nat, depth: int)
    | SendFixed(i: nat)
    | SaveFixed(i: nat, fixed: FixedClaim)

  function Initial(limit: u64, maxDeposit: u64, outputAt: Outpoint -> Site): State {
    State(limit, maxDeposit, outputAt, [], [], {}, {}, {}, {}, {}, {}, {}, {}, {})
  }

  // ---- Exposure ----

  function Credits(claims: seq<InstantClaim>): seq<nat> {
    seq(|claims|, i requires 0 <= i < |claims| => if claims[i].Pending() then claims[i].credit else 0)
  }

  /** The credit of every instant claim whose recovery has not confirmed. */
  function Outstanding(claims: seq<InstantClaim>): nat {
    Sum(Credits(claims))
  }

  /** Accept exactly the claims that keep both limits; a zero limit disables. */
  function CheckExposure(value: u64, credit: u64, outstanding: u64, maxDeposit: u64, limit: u64): (ok: bool)
    ensures ok <==> limit > 0 && 0 < maxDeposit && value <= maxDeposit && outstanding + credit <= limit
  {
    if limit == 0 || maxDeposit == 0 then false
    else if value > maxDeposit then false
    else var sum := CheckedAdd(outstanding, credit); sum.Some? && sum.value <= limit
  }

  lemma OutstandingAppend(claims: seq<InstantClaim>, c: InstantClaim)
    ensures Outstanding(claims + [c]) == Outstanding(claims) + if c.Pending() then c.credit else 0
  {
    assert Credits(claims + [c]) == Credits(claims) + [if c.Pending() then c.credit else 0];
    SumAppend(Credits(claims), [if c.Pending() then c.credit else 0]);
    SumOne(if c.Pending() then c.credit else 0);
  }

  lemma OutstandingUpdate(claims: seq<InstantClaim>, i: nat, c: InstantClaim)
    requires i < |claims| && c.credit == claims[i].credit && (c.Pending() ==> claims[i].Pending())
    ensures Outstanding(claims[i := c]) <= Outstanding(claims)
  {
    var was, now := Credits(claims), Credits(claims[i := c]);
    SumRemoveAt(was, i);
    SumRemoveAt(now, i);
    assert RemoveAt(was, i) == RemoveAt(now, i);
  }

  // ---- Table constraints ----

  /** The unique columns and partial indexes of instant_claims, and the trigger
      that refuses a deposit reserved by a confirmed claim. */
  predicate InstantFits(instants: seq<InstantClaim>, fixed: seq<FixedClaim>, c: InstantClaim) {
    && (forall i :: 0 <= i < |instants| ==>
          && instants[i].quoteId != c.quoteId && instants[i].outpoint != c.outpoint
          && (instants[i].Pending() ==>
                && instants[i].owner != c.owner
                && !(instants[i].address == c.address && instants[i].value == c.value)))
    && (forall j :: 0 <= j < |fixed| ==>
          && fixed[j].outpoint != c.outpoint
          && (!fixed[j].succeeded ==> !(fixed[j].address == c.address && fixed[j].value == c.value)))
  }

  /** The unique output of deposit_claims, and the trigger that refuses a
      deposit reserved by an instant claim. */
  predicate FixedFits(instants: seq<InstantClaim>, fixed: seq<FixedClaim>, f: FixedClaim) {
    && (forall j :: 0 <= j < |fixed| ==> fixed[j].outpoint != f.outpoint)
    && (forall i :: 0 <= i < |instants| ==>
          && instants[i].outpoint != f.outpoint
          && (instants[i].Pending() ==> !(instants[i].address == f.address && instants[i].value == f.value)))
  }

  // ---- Outputs on the chain ----

  /** A recovery of this output has confirmed. */
  ghost predicate Spent(s: State, p: Outpoint) {
    || (exists i :: 0 <= i < |s.instants| && !s.instants[i].Pending() && s.instants[i].plan.outpoint == p)
    || (exists j :: 0 <= j < |s.fixed| && s.fixed[j].phase == SpendConfirmed && s.fixed[j].outpoint == p)
  }

  /** What the node's answer "unspent" means: an output that pays this address and
      value, and that no confirmed recovery has spent. */
  ghost predicate Unspent(s: State, p: Outpoint, address: nat, value: u64) {
    s.outputAt(p) == Site(address, value) && !Spent(s, p)
  }

  // ---- Steps ----

  /** The height lies in the window that some pass of the claim read. */
  ghost predicate Inspected(s: State, i: nat, h: nat) {
    exists cursor: nat, tip: nat ::
      (i, cursor, tip) in s.passes && WindowStart(cursor, tip) <= h <= WindowEnd(cursor, tip)
  }

  ghost predicate ReadUpTo(s: State, i: nat, start: nat, cursor: nat) {
    forall h: nat :: start <= h < cursor ==> Inspected(s, i, h)
  }

  /** A new cursor is the one after a pass from the old cursor. */
  ghost predicate AfterPass(s: State, i: nat, cursor: nat, next: nat) {
    exists tip: nat :: (i, cursor, tip) in s.passes && next == NextCursor(cursor, tip)
  }

  /** The node reported at least `n` confirmations of the claim's recovery. */
  ghost predicate Deep(depths: set<(nat, int)>, i: nat, n: int) {
    exists d: int :: d >= n && (i, d) in depths
  }

  /** A recovery is stored as confirmed only at the depth that the claim needs, and
      as broadcast only once it was sent or seen in a block. */
  ghost predicate Witnessed(depths: set<(nat, int)>, sent: set<(nat, nat)>, i: nat, raw: Option<nat>, phase: Phase,
                            needed: int)
  {
    && (phase == SpendConfirmed ==> Deep(depths, i, needed))
    && (phase == SpendBroadcast ==> raw.Some? && ((i, raw.value) in sent || Deep(depths, i, 1)))
  }

  ghost predicate LegalSaveInstant(s: State, i: nat, c: InstantClaim) {
    && i < |s.instants|
    && var was := s.instants[i];
    && c == was.(plan := c.plan, phase := c.phase, signed := c.signed, scanHeight := c.scanHeight)
    && match was.phase {
         case Created =>
           c == was.(phase := TransferCompleted) && i in s.reserved
         case TransferCompleted =>
           || (c == was.(scanHeight := c.scanHeight) && AfterPass(s, i, was.scanHeight, c.scanHeight))
           || (c == was.(phase := RecoveryPrepared, plan := Plan(c.plan.outpoint, was.plan.nonce))
               && Unspent(s, c.plan.outpoint, was.address, was.value))
         case RecoveryPrepared =>
           && was.signed.None? && c == was.(phase := SpendCreated, signed := c.signed)
           && c.signed.Some? && (i, was.plan) in s.signCalls
         case SpendCreated =>
           && c == was.(phase := c.phase) && (c.phase == SpendBroadcast || c.phase == SpendConfirmed)
           && Witnessed(s.depths, s.sent, i, c.signed, c.phase, 3)
         case SpendBroadcast =>
           && c == was.(phase := c.phase) && (c.phase == SpendBroadcast || c.phase == SpendConfirmed)
           && Witnessed(s.depths, s.sent, i, c.signed, c.phase, 3)
         case SpendConfirmed => false
       }
  }

  ghost predicate LegalSaveFixed(s: State, i: nat, f: FixedClaim) {
    && i < |s.fixed|
    && var was := s.fixed[i];
    && f == was.(signed := f.signed, succeeded := f.succeeded, phase := f.phase)
    && was.phase != SpendConfirmed
    && (was.signed.Some? ==>
          && f.signed == was.signed && f.succeeded && (f.phase == SpendBroadcast || f.phase == SpendConfirmed)
          && Witnessed(s.fixedDepths, s.fixedSent, i, f.signed, f.phase, 1))
    && (was.signed.None? ==>
          f.signed.Some? && f.succeeded == was.succeeded && f.phase == SpendCreated && (i, was.plan) in s.claimCalls)
  }

  ghost predicate Enabled(s: State, a: Action) {
    match a {
      case InsertInstant(c) =>
        && c.phase == Created && c.signed.None? && c.scanHeight == c.scanStart
        && c.plan.outpoint == c.outpoint && Unspent(s, c.outpoint, c.address, c.value)
        && InstantFits(s.instants, s.fixed, c) && Outstanding(s.instants) <= U64_MAX
        && CheckExposure(c.value, c.credit, Outstanding(s.instants), s.maxDeposit, s.limit)
      case CallReserve(i, ok) => i < |s.instants| && s.instants[i].phase == Created
      case CallSign(i) => i < |s.instants| && s.instants[i].phase == RecoveryPrepared
      case Pass(i, tip) => i < |s.instants| && s.instants[i].phase == TransferCompleted
      case SeeDepth(i, n) => i < |s.instants| && s.instants[i].signed.Some?
      case SendRecovery(i) => i < |s.instants| && s.instants[i].signed.Some? && s.instants[i].Pending()
      case SaveInstant(i, c) => LegalSaveInstant(s, i, c)
      case InsertFixed(f) =>
        && f.signed.None? && !f.succeeded && f.phase == Created
        && Unspent(s, f.outpoint, f.address, f.value) && FixedFits(s.instants, s.fixed, f)
      case CallClaim(i) => i < |s.fixed| && s.fixed[i].signed.None?
      case SeeFixedDepth(i, n) => i < |s.fixed| && s.fixed[i].signed.Some?
      case SendFixed(i) => i < |s.fixed| && s.fixed[i].signed.Some? && s.fixed[i].phase != SpendConfirmed
      case SaveFixed(i, f) => LegalSaveFixed(s, i, f)
    }
  }

  ghost function Apply(s: State, a: Action): State
    requires Enabled(s, a)
  {
    match a {
      case InsertInstant(c) => s.(instants := s.instants + [c])
      case CallReserve(i, ok) =>
        s.(reserveCalls := s.reserveCalls + {(i, s.instants[i].transferId)},
           reserved := if ok then s.reserved + {i} else s.reserved)
      case CallSign(i) => s.(signCalls := s.signCalls + {(i, s.instants[i].plan)})
      case Pass(i, tip) => s.(passes := s.passes + {(i, s.instants[i].scanHeight, tip)})
      case SeeDepth(i, n) => s.(depths := s.depths + {(i, n)})
      case SendRecovery(i) => s.(sent := s.sent + {(i, s.instants[i].signed.value)})
      case SaveInstant(i, c) => s.(instants := s.instants[i := c])
      case InsertFixed(f) => s.(fixed := s.fixed + [f])
      case CallClaim(i) => s.(claimCalls := s.claimCalls + {(i, s.fixed[i].plan)})
      case SeeFixedDepth(i, n) => s.(fixedDepths := s.fixedDepths + {(i, n)})
      case SendFixed(i) => s.(fixedSent := s.fixedSent + {(i, s.fixed[i].signed.value)})
      case SaveFixed(i, f) => s.(fixed := s.fixed[i := f])
    }
  }

  // ---- What holds in every state ----

  ghost predicate Bounded(s: State) {
    && Outstanding(s.instants) <= s.limit
    && forall i :: 0 <= i < |s.instants| ==> s.instants[i].value <= s.maxDeposit
  }

  ghost predicate Exclusive(s: State) {
    && (forall i, j :: 0 <= i < j < |s.instants| ==> Apart(s.instants[i], s.instants[j]))
    && (forall i, j :: 0 <= i < j < |s.fixed| ==> s.fixed[i].outpoint != s.fixed[j].outpoint)
    && (forall i, j :: 0 <= i < |s.instants| && 0 <= j < |s.fixed| ==> KeptApart(s.instants[i], s.fixed[j]))
  }

  /** Two instant claims: never one output; while both are pending, never one
      owner and never one address and value. */
  predicate Apart(a: InstantClaim, b: InstantClaim) {
    && a.outpoint != b.outpoint && a.quoteId != b.quoteId
    && (a.Pending() && b.Pending() ==> a.owner != b.owner && !(a.address == b.address && a.value == b.value))
  }

  predicate KeptApart(a: InstantClaim, f: FixedClaim) {
    && a.outpoint != f.outpoint
    && (a.Pending() && !f.succeeded ==> !(a.address == f.address && a.value == f.value))
  }

  /** One claim's calls: every reserve carried its transfer id, and every
      recovery signature was asked for with the plan that is now stored. */
  ghost predicate CallsMatch(s: State, i: nat)
    requires i < |s.instants|
  {
    var c := s.instants[i];
    && (c.signed.Some? <==> c.phase == SpendCreated || c.phase == SpendBroadcast || c.phase == SpendConfirmed)
    && (c.phase != Created ==> i in s.reserved)
    && (forall t :: (i, t) in s.reserveCalls ==> t == c.transferId)
    && (forall p :: (i, p) in s.signCalls ==> p == c.plan && c.phase != Created && c.phase != TransferCompleted)
    && ReadUpTo(s, i, c.scanStart, c.scanHeight)
    && Witnessed(s.depths, s.sent, i, c.signed, c.phase, 3)
    && (forall raw :: (i, raw) in s.sent ==> c.signed == Some(raw))
  }

  ghost predicate FixedMatch(s: State, i: nat)
    requires i < |s.fixed|
  {
    && (forall p :: (i, p) in s.claimCalls ==> p == s.fixed[i].plan)
    && (s.fixed[i].signed.None? <==> s.fixed[i].phase == Created)
    && (s.fixed[i].succeeded <==> s.fixed[i].phase == SpendBroadcast || s.fixed[i].phase == SpendConfirmed)
    && Witnessed(s.fixedDepths, s.fixedSent, i, s.fixed[i].signed, s.fixed[i].phase, 1)
    && (forall raw :: (i, raw) in s.fixedSent ==> s.fixed[i].signed == Some(raw))
  }

  /** Every claim and every claim's plan name outputs of the claim's own address
      and value. */
  ghost predicate Placed(s: State) {
    && (forall i :: 0 <= i < |s.instants| ==>
          && s.outputAt(s.instants[i].outpoint) == Site(s.instants[i].address, s.instants[i].value)
          && s.outputAt(s.instants[i].plan.outpoint) == Site(s.instants[i].address, s.instants[i].value))
    && (forall j :: 0 <= j < |s.fixed| ==>
          s.outputAt(s.fixed[j].outpoint) == Site(s.fixed[j].address, s.fixed[j].value))
  }

  /** No two plans of instant claims name one output, and a plan names the output
      of a confirmed claim only when that claim has SUCCEEDED. */
  ghost predicate OneRecovery(s: State) {
    && (forall i, j :: 0 <= i < j < |s.instants| ==> s.instants[i].plan.outpoint != s.instants[j].plan.outpoint)
    && (forall i, j :: 0 <= i < |s.instants| && 0 <= j < |s.fixed| ==>
          s.instants[i].plan.outpoint == s.fixed[j].outpoint ==> s.fixed[j].succeeded)
  }

  ghost predicate Inv(s: State) {
    && Bounded(s) && Exclusive(s) && Placed(s) && OneRecovery(s)
    && (forall i :: 0 <= i < |s.instants| ==> CallsMatch(s, i))
    && (forall i :: 0 <= i < |s.fixed| ==> FixedMatch(s, i))
    && (forall i, t :: (i, t) in s.reserveCalls ==> i < |s.instants|)
    && (forall i, p :: (i, p) in s.signCalls ==> i < |s.instants|)
    && (forall i, p :: (i, p) in s.claimCalls ==> i < |s.fixed|)
    && (forall i, raw :: (i, raw) in s.sent ==> i < |s.instants|)
    && (forall i, raw :: (i, raw) in s.fixedSent ==> i < |s.fixed|)
  }

  lemma StepKeepsBounded(s: State, a: Action)
    requires Bounded(s) && Enabled(s, a)
    ensures Bounded(Apply(s, a))
  {
    if a.InsertInstant? {
      OutstandingAppend(s.instants, a.claim);
    } else if a.SaveInstant? {
      OutstandingUpdate(s.instants, a.i, a.claim);
    }
  }

  lemma StepKeepsExclusive(s: State, a: Action)
    requires Exclusive(s) && Enabled(s, a)
    ensures Exclusive(Apply(s, a))
  {
    hide CheckExposure, Outstanding;
  }

  lemma StepKeepsPlaced(s: State, a: Action)
    requires Placed(s) && Enabled(s, a)
    ensures Placed(Apply(s, a))
  {
    hide CheckExposure, Outstanding, InstantFits, FixedFits, Spent, AfterPass;
  }

  /** An unspent output is in no plan of another claim that ended, and by the
      pending indexes in no plan of one that has not. */
  lemma FreshRecovery(s: State, k: nat, p: Outpoint, address: nat, value: u64)
    requires Placed(s) && k < |s.instants| && Unspent(s, p, address, value)
    requires s.instants[k].Pending() ==> !(s.instants[k].address == address && s.instants[k].value == value)
    ensures s.instants[k].plan.outpoint != p
  {
  }

  /** Nor is it the output of a confirmed claim that is still open. */
  lemma FreshBesideFixed(s: State, j: nat, p: Outpoint, address: nat, value: u64)
    requires Placed(s) && j < |s.fixed| && Unspent(s, p, address, value)
    requires !s.fixed[j].succeeded ==> !(s.fixed[j].address == address && s.fixed[j].value == value)
    ensures s.fixed[j].outpoint == p ==> s.fixed[j].succeeded
  {
  }

  lemma PreparedApart(s: State, i: nat, c: InstantClaim)
    requires Placed(s) && Exclusive(s) && OneRecovery(s)
    requires LegalSaveInstant(s, i, c) && c.plan.outpoint != s.instants[i].plan.outpoint
    ensures OneRecovery(s.(instants := s.instants[i := c]))
  {
    hide Spent, Placed, AfterPass;
    forall k: nat | k < |s.instants| && k != i ensures s.instants[k].plan.outpoint != c.plan.outpoint {
      assert if k < i then Apart(s.instants[k], s.instants[i]) else Apart(s.instants[i], s.instants[k]);
      FreshRecovery(s, k, c.plan.outpoint, c.address, c.value);
    }
    forall j: nat | j < |s.fixed| ensures s.fixed[j].outpoint == c.plan.outpoint ==> s.fixed[j].succeeded {
      assert KeptApart(s.instants[i], s.fixed[j]);
      FreshBesideFixed(s, j, c.plan.outpoint, c.address, c.value);
    }
  }

  lemma StepKeepsOneRecovery(s: State, a: Action)
    requires Placed(s) && Exclusive(s) && OneRecovery(s) && Enabled(s, a)
    ensures OneRecovery(Apply(s, a))
  {
    hide CheckExposure, Outstanding, Spent, Placed, Exclusive, AfterPass;
    match a {
      case InsertInstant(c) =>
        forall k: nat | k < |s.instants| ensures s.instants[k].plan.outpoint != c.outpoint {
          FreshRecovery(s, k, c.outpoint, c.address, c.value);
        }
      case InsertFixed(f) =>
        forall k: nat | k < |s.instants| ensures s.instants[k].plan.outpoint != f.outpoint {
          FreshRecovery(s, k, f.outpoint, f.address, f.value);
        }
      case SaveInstant(i, c) =>
        if c.plan.outpoint != s.instants[i].plan.outpoint {
          PreparedApart(s, i, c);
        }
      case _ =>
    }
  }

  /** Moving the cursor to where a pass ended leaves no height unread. */
  lemma CursorMoves(s: State, i: nat, start: nat, cursor: nat, next: nat)
    requires ReadUpTo(s, i, start, cursor) && AfterPass(s, i, cursor, next)
    ensures ReadUpTo(s, i, start, next)
  {
    hide Inspected;
    var tip: nat :| (i, cursor, tip) in s.passes && next == NextCursor(cursor, tip);
    forall h: nat | start <= h < next ensures Inspected(s, i, h) {
      PassSkipsNothing(start, cursor, tip, h);
      if h >= cursor {
        WindowInspected(s, i, cursor, tip, h);
      }
    }
  }

  lemma WindowInspected(s: State, i: nat, cursor: nat, tip: nat, h: nat)
    requires (i, cursor, tip) in s.passes && WindowStart(cursor, tip) <= h <= WindowEnd(cursor, tip)
    ensures Inspected(s, i, h)
  {
  }

  lemma ReadingStays(s: State, t: State, i: nat, start: nat, cursor: nat)
    requires ReadUpTo(s, i, start, cursor) && s.passes <= t.passes
    ensures ReadUpTo(t, i, start, cursor)
  {
    forall h: nat | start <= h < cursor ensures Inspected(t, i, h) {
      assert Inspected(s, i, h);
    }
  }

  lemma StepKeepsReading(s: State, a: Action, i: nat)
    requires Enabled(s, a) && i < |s.instants| && CallsMatch(s, i)
    ensures i < |Apply(s, a).instants|
    ensures ReadUpTo(Apply(s, a), i, s.instants[i].scanStart, Apply(s, a).instants[i].scanHeight)
  {
    hide CheckExposure, Outstanding, ReadUpTo, AfterPass, InstantFits, FixedFits;
    var c, t := s.instants[i], Apply(s, a);
    if t.instants[i].scanHeight != c.scanHeight {
      CursorMoves(s, i, c.scanStart, c.scanHeight, t.instants[i].scanHeight);
    }
    ReadingStays(s, t, i, c.scanStart, t.instants[i].scanHeight);
  }

  lemma StepKeepsCalls(s: State, a: Action, i: nat)
    requires Inv(s) && Enabled(s, a) && i < |Apply(s, a).instants|
    ensures CallsMatch(Apply(s, a), i)
  {
    hide CheckExposure, Outstanding, Exclusive, Bounded, Inspected, AfterPass;
    if i < |s.instants| {
      assert CallsMatch(s, i);
      StepKeepsReading(s, a, i);
    }
  }

  lemma StepKeepsFixed(s: State, a: Action, i: nat)
    requires Inv(s) && Enabled(s, a) && i < |Apply(s, a).fixed|
    ensures FixedMatch(Apply(s, a), i)
  {
    hide CheckExposure, Outstanding, Exclusive, Bounded;
    if i < |s.fixed| {
      assert FixedMatch(s, i);
    }
  }

  lemma StepKeepsInv(s: State, a: Action)
    requires Inv(s) && Enabled(s, a)
    ensures Inv(Apply(s, a))
  {
    StepKeepsBounded(s, a);
    StepKeepsExclusive(s, a);
    StepKeepsPlaced(s, a);
    StepKeepsOneRecovery(s, a);
    var t := Apply(s, a);
    forall i: nat | i < |t.instants| ensures CallsMatch(t, i) {
      StepKeepsCalls(s, a, i);
    }
    forall i: nat | i < |t.fixed| ensures FixedMatch(t, i) {
      StepKeepsFixed(s, a, i);
    }
  }

  lemma SumOne(v: nat)
    ensures Sum([v]) == v
  {
    assert [v][1..] == [];
  }

  // ---- Runs ----

  /** Every action of the run, which starts from empty tables under the limits
      of `s0`, was allowed where it happened. */
  ghost predicate Legal(s0: State, run: seq<Action>)
    decreases |run|, 0
  {
    run == [] || (Legal(s0, run[..|run| - 1]) && Enabled(After(s0, run[..|run| - 1]), run[|run| - 1]))
  }

  ghost function After(s0: State, run: seq<Action>): State
    requires Legal(s0, run)
    decreases |run|, 1
  {
    if run == [] then s0 else Apply(After(s0, run[..|run| - 1]), run[|run| - 1])
  }

  lemma Extend(s0: State, run: seq<Action>, a: Action)
    requires Legal(s0, run) && Enabled(After(s0, run), a)
    ensures Legal(s0, run + [a]) && After(s0, run + [a]) == Apply(After(s0, run), a)
  {
    hide Apply, Enabled;
    assert (run + [a])[..|run|] == run;
  }

  /** In every reachable state of every run, with any restarts: the outstanding
      credit is within the limit, every claim within the per-deposit cap, and
      no output or pending (address, value) serves two claims of either kind. */
  lemma {:induction false} EveryRunKeepsInv(limit: u64, maxDeposit: u64, outputAt: Outpoint -> Site, run: seq<Action>)
    requires Legal(Initial(limit, maxDeposit, outputAt), run)
    ensures Inv(After(Initial(limit, maxDeposit, outputAt), run))
    decreases |run|
  {
    hide Apply, Enabled;
    if run == [] {
      InitialInv(limit, maxDeposit, outputAt);
    } else {
      EveryRunKeepsInv(limit, maxDeposit, outputAt, run[..|run| - 1]);
      StepKeepsInv(After(Initial(limit, maxDeposit, outputAt), run[..|run| - 1]), run[|run| - 1]);
    }
  }

  lemma InitialInv(limit: u64, maxDeposit: u64, outputAt: Outpoint -> Site)
    ensures Inv(Initial(limit, maxDeposit, outputAt))
  {
  }

  function Rank(p: Phase): nat {
    match p
    case Created => 0
    case TransferCompleted => 1
    case RecoveryPrepared => 2
    case SpendCreated => 3
    case SpendBroadcast => 4
    case SpendConfirmed => 5
  }

  /** How one instant claim may change over time. */
  predicate ClaimEvolves(c: InstantClaim, d: InstantClaim) {
    && d == c.(plan := d.plan, phase := d.phase, signed := d.signed, scanHeight := d.scanHeight)
    && Rank(c.phase) <= Rank(d.phase)
    && (Rank(c.phase) >= Rank(RecoveryPrepared) ==> d.plan == c.plan)
    && (c.signed.Some? ==> d.signed == c.signed)
  }

  ghost predicate Evolves(s: State, t: State) {
    && |s.instants| <= |t.instants|
    && (forall i :: 0 <= i < |s.instants| ==> ClaimEvolves(s.instants[i], t.instants[i]))
    && s.reserveCalls <= t.reserveCalls && s.signCalls <= t.signCalls
  }

  lemma StepEvolves(s: State, a: Action)
    requires Enabled(s, a)
    ensures Evolves(s, Apply(s, a))
  {
  }

  lemma EvolvesThrough(s: State, t: State, u: State)
    requires Evolves(s, t) && Evolves(t, u)
    ensures Evolves(s, u)
  {
    forall i | 0 <= i < |s.instants| ensures ClaimEvolves(s.instants[i], u.instants[i]) {
      assert ClaimEvolves(s.instants[i], t.instants[i]) && ClaimEvolves(t.instants[i], u.instants[i]);
    }
  }

  lemma {:induction false} PrefixLegal(s0: State, run: seq<Action>, i: nat)
    requires Legal(s0, run) && i <= |run|
    ensures Legal(s0, run[..i])
    decreases |run|
  {
    if i < |run| {
      PrefixLegal(s0, run[..|run| - 1], i);
      assert run[..|run| - 1][..i] == run[..i];
    } else {
      assert run[..i] == run;
    }
  }

  /** The state after the first `i` actions. */
  ghost function At(s0: State, run: seq<Action>, i: nat): State
    requires Legal(s0, run) && i <= |run|
  {
    PrefixLegal(s0, run, i);
    After(s0, run[..i])
  }

  lemma StepAt(s0: State, run: seq<Action>, i: nat)
    requires Legal(s0, run) && i < |run|
    ensures Enabled(At(s0, run, i), run[i]) && At(s0, run, i + 1) == Apply(At(s0, run, i), run[i])
  {
    hide Apply, Enabled;
    PrefixLegal(s0, run, i + 1);
    assert run[..i + 1][..i] == run[..i];
  }

  lemma {:induction false} RunEvolves(s0: State, run: seq<Action>, i: nat, j: nat)
    requires Legal(s0, run) && i <= j <= |run|
    ensures Evolves(At(s0, run, i), At(s0, run, j))
    decreases j - i
  {
    hide Apply, Enabled;
    if i < j {
      RunEvolves(s0, run, i, j - 1);
      StepAt(s0, run, j - 1);
      StepEvolves(At(s0, run, j - 1), run[j - 1]);
      EvolvesThrough(At(s0, run, i), At(s0, run, j - 1), At(s0, run, j));
    }
  }

  /** Every reserve call of a claim, however often it is retried, carries one
      transfer id, and none is made once its stored phase has left CREATED. */
  lemma ReserveCallsAgree(s0: State, run: seq<Action>, j: nat, k: nat, i: nat, ok: bool)
    requires Legal(s0, run) && j <= k < |run| && run[k] == CallReserve(i, ok)
    requires i < |At(s0, run, j).instants|
    ensures At(s0, run, j).instants[i].phase == Created
    ensures (i, At(s0, run, j).instants[i].transferId) in At(s0, run, k + 1).reserveCalls
  {
    StepAt(s0, run, k);
    RunEvolves(s0, run, j, k);
    assert ClaimEvolves(At(s0, run, j).instants[i], At(s0, run, k).instants[i]);
  }

  /** Once a plan may have been signed it is the plan of every later signature,
      whatever crashes and whatever replacement of the deposit come after. */
  lemma SigningPlanIsFrozen(s0: State, run: seq<Action>, j: nat, k: nat, i: nat)
    requires Legal(s0, run) && j <= k < |run| && run[k] == CallSign(i)
    requires i < |At(s0, run, j).instants| && Rank(At(s0, run, j).instants[i].phase) >= Rank(RecoveryPrepared)
    ensures i < |At(s0, run, k).instants| && At(s0, run, k).instants[i].plan == At(s0, run, j).instants[i].plan
    ensures (i, At(s0, run, j).instants[i].plan) in At(s0, run, k + 1).signCalls
  {
    StepAt(s0, run, k);
    RunEvolves(s0, run, j, k);
    assert ClaimEvolves(At(s0, run, j).instants[i], At(s0, run, k).instants[i]);
  }

  /** Consequence for the operators: they never see two plans for one claim. */
  lemma OnePlanPerClaim(limit: u64, maxDeposit: u64, outputAt: Outpoint -> Site, run: seq<Action>, i: nat,
                        p: Plan, q: Plan)
    requires Legal(Initial(limit, maxDeposit, outputAt), run)
    requires (i, p) in After(Initial(limit, maxDeposit, outputAt), run).signCalls
    requires (i, q) in After(Initial(limit, maxDeposit, outputAt), run).signCalls
    ensures p == q
  {
    hide Apply, Enabled;
    EveryRunKeepsInv(limit, maxDeposit, outputAt, run);
    assert CallsMatch(After(Initial(limit, maxDeposit, outputAt), run), i);
  }

  /** The rescan skips no block, however the tip moves: every height from the
      quote's start up to the stored cursor lies in the window of some pass. */
  lemma EveryHeightWasInspected(limit: u64, maxDeposit: u64, outputAt: Outpoint -> Site, run: seq<Action>,
                                i: nat, h: nat)
    requires Legal(Initial(limit, maxDeposit, outputAt), run)
    requires i < |After(Initial(limit, maxDeposit, outputAt), run).instants|
    requires After(Initial(limit, maxDeposit, outputAt), run).instants[i].scanStart <= h
    requires h < After(Initial(limit, maxDeposit, outputAt), run).instants[i].scanHeight
    ensures Inspected(After(Initial(limit, maxDeposit, outputAt), run), i, h)
  {
    hide Apply, Enabled, Inspected;
    EveryRunKeepsInv(limit, maxDeposit, outputAt, run);
    assert CallsMatch(After(Initial(limit, maxDeposit, outputAt), run), i);
  }

  // ---- What the chain says ----

  /** The credit of every instant claim whose recovery the node has not reported
      with three confirmations. */
  ghost function Exposed(s: State): nat {
    Sum(seq(|s.instants|, i requires 0 <= i < |s.instants| => if Deep(s.depths, i, 3) then 0 else s.instants[i].credit))
  }

  lemma {:induction false} SumPointwise(a: seq<nat>, b: seq<nat>)
    requires |a| == |b| && forall i :: 0 <= i < |a| ==> a[i] <= b[i]
    ensures Sum(a) <= Sum(b)
  {
    if a != [] {
      SumPointwise(a[1..], b[1..]);
    }
  }

  /** The limit holds of the chain and not only of the stored phases: the credit
      that is advanced on deposits without three confirmations of their recovery
      never exceeds it. */
  lemma ExposureIsBounded(limit: u64, maxDeposit: u64, outputAt: Outpoint -> Site, run: seq<Action>)
    requires Legal(Initial(limit, maxDeposit, outputAt), run)
    ensures Exposed(After(Initial(limit, maxDeposit, outputAt), run)) <= limit
  {
    hide Apply, Enabled;
    EveryRunKeepsInv(limit, maxDeposit, outputAt, run);
    LimitStays(limit, maxDeposit, outputAt, run);
    var s := After(Initial(limit, maxDeposit, outputAt), run);
    var exposed := seq(|s.instants|, i requires 0 <= i < |s.instants| =>
      if Deep(s.depths, i, 3) then 0 else s.instants[i].credit);
    forall i: nat | i < |s.instants| ensures exposed[i] <= Credits(s.instants)[i] {
      assert CallsMatch(s, i);
    }
    SumPointwise(exposed, Credits(s.instants));
  }

  lemma {:induction false} LimitStays(limit: u64, maxDeposit: u64, outputAt: Outpoint -> Site, run: seq<Action>)
    requires Legal(Initial(limit, maxDeposit, outputAt), run)
    ensures After(Initial(limit, maxDeposit, outputAt), run).limit == limit
    decreases |run|
  {
    hide Enabled;
    if run != [] {
      LimitStays(limit, maxDeposit, outputAt, run[..|run| - 1]);
    }
  }

  /** Every recovery that was ever sent for a claim is the one that is stored, and
      a claim that reads as confirmed had three confirmations reported. */
  lemma RecoveryIsStored(limit: u64, maxDeposit: u64, outputAt: Outpoint -> Site, run: seq<Action>, i: nat, raw: nat)
    requires Legal(Initial(limit, maxDeposit, outputAt), run)
    requires i < |After(Initial(limit, maxDeposit, outputAt), run).instants|
    ensures var s := After(Initial(limit, maxDeposit, outputAt), run);
      (i, raw) in s.sent ==> s.instants[i].signed == Some(raw)
    ensures var s := After(Initial(limit, maxDeposit, outputAt), run);
      s.instants[i].phase == SpendConfirmed ==> Deep(s.depths, i, 3)
  {
    hide Apply, Enabled;
    EveryRunKeepsInv(limit, maxDeposit, outputAt, run);
    assert CallsMatch(After(Initial(limit, maxDeposit, outputAt), run), i);
  }

  // ---- Whose output a recovery spends ----

  /** In every reachable state, replaced deposits or not: the plans of two instant
      claims name different outputs, and a plan names the output of a confirmed
      claim only when that claim has SUCCEEDED. */
  lemma RecoveriesAreApart(
      limit: u64, maxDeposit: u64, outputAt: Outpoint -> Site, run: seq<Action>, i: nat, k: nat, j: nat)
    requires Legal(Initial(limit, maxDeposit, outputAt), run)
    requires i < |After(Initial(limit, maxDeposit, outputAt), run).instants|
    ensures var s := After(Initial(limit, maxDeposit, outputAt), run);
      k < |s.instants| && k != i ==> s.instants[k].plan.outpoint != s.instants[i].plan.outpoint
    ensures var s := After(Initial(limit, maxDeposit, outputAt), run);
      j < |s.fixed| && s.fixed[j].outpoint == s.instants[i].plan.outpoint ==> s.fixed[j].succeeded
  {
    hide Apply, Enabled;
    EveryRunKeepsInv(limit, maxDeposit, outputAt, run);
  }

  /** The instant claim may be prepared with this output. */
  ghost predicate MayRecover(s: State, i: nat, p: Outpoint)
    requires i < |s.instants|
  {
    var c := s.instants[i];
    LegalSaveInstant(s, i, c.(phase := RecoveryPrepared, plan := Plan(p, c.plan.nonce)))
  }

  /** A confirmed claim of this deposit whose recovery is broadcast but not mined. */
  ghost predicate StillOnChain(s: State, f: FixedClaim, address: nat, value: u64) {
    f.address == address && f.value == value && f.phase == SpendBroadcast && !Spent(s, f.outpoint)
  }

  /** A claim that waits for its deposit can be given only outputs of its own if
      and only if no SUCCEEDED claim of the same address and value still has its
      output unspent. */
  lemma RecoversOwnOutputIff(s: State, i: nat)
    requires Inv(s) && i < |s.instants| && s.instants[i].phase == TransferCompleted
    ensures (forall j :: 0 <= j < |s.fixed| ==> !MayRecover(s, i, s.fixed[j].outpoint)) <==>
      (forall j :: 0 <= j < |s.fixed| ==> !StillOnChain(s, s.fixed[j], s.instants[i].address, s.instants[i].value))
  {
    forall j: nat | j < |s.fixed|
      ensures MayRecover(s, i, s.fixed[j].outpoint) <==>
        StillOnChain(s, s.fixed[j], s.instants[i].address, s.instants[i].value)
    {
      MayRecoverFixedIff(s, i, j);
    }
  }

  lemma MayRecoverFixedIff(s: State, i: nat, j: nat)
    requires Inv(s) && i < |s.instants| && s.instants[i].phase == TransferCompleted && j < |s.fixed|
    ensures MayRecover(s, i, s.fixed[j].outpoint) <==>
      StillOnChain(s, s.fixed[j], s.instants[i].address, s.instants[i].value)
  {
    hide Bounded, AfterPass, CallsMatch;
    assert KeptApart(s.instants[i], s.fixed[j]) && FixedMatch(s, j);
    assert s.fixed[j].phase == SpendConfirmed ==> Spent(s, s.fixed[j].outpoint);
  }

  // ---- A run that recovers the output of a SUCCEEDED claim ----

  /** Two deposits of one value to one address, in different outputs. */
  predicate Twins(outputAt: Outpoint -> Site, f: FixedClaim, c: InstantClaim) {
    && f.signed.None? && !f.succeeded && f.phase == Created && outputAt(f.outpoint) == Site(f.address, f.value)
    && c.phase == Created && c.signed.None? && c.scanHeight == c.scanStart && c.plan.outpoint == c.outpoint
    && outputAt(c.outpoint) == Site(c.address, c.value)
    && c.address == f.address && c.value == f.value && c.outpoint != f.outpoint
  }

  function Signed(f: FixedClaim, raw: nat): FixedClaim {
    f.(signed := Some(raw), phase := SpendCreated)
  }

  function Succeeded(f: FixedClaim, raw: nat): FixedClaim {
    f.(signed := Some(raw), phase := SpendBroadcast, succeeded := true)
  }

  function Paid(c: InstantClaim): InstantClaim {
    c.(phase := TransferCompleted)
  }

  function Prepared(c: InstantClaim, p: Outpoint): InstantClaim {
    c.(phase := RecoveryPrepared, plan := Plan(p, c.plan.nonce))
  }

  /** A confirmed claim is paid and its recovery broadcast. */
  function PaidFixed(f: FixedClaim, raw: nat): seq<Action> {
    [InsertFixed(f)] + [CallClaim(0)] + [SaveFixed(0, Signed(f, raw))] + [SendFixed(0)]
    + [SaveFixed(0, Succeeded(f, raw))]
  }

  /** Then an equal deposit is advanced at once, and replaced. */
  function SharedRun(f: FixedClaim, raw: nat, c: InstantClaim): seq<Action> {
    PaidFixed(f, raw) + [InsertInstant(c)] + [CallReserve(0, true)]
    + [SaveInstant(0, Paid(c))] + [SaveInstant(0, Prepared(c, f.outpoint))]
  }

  lemma NothingYet(s0: State)
    ensures Legal(s0, []) && After(s0, []) == s0
  {
    hide Enabled, Apply;
  }

  lemma FirstFixed(s0: State, f: FixedClaim)
    requires s0 == Initial(s0.limit, s0.maxDeposit, s0.outputAt)
    requires f.signed.None? && !f.succeeded && f.phase == Created && s0.outputAt(f.outpoint) == Site(f.address, f.value)
    ensures Legal(s0, [InsertFixed(f)]) && After(s0, [InsertFixed(f)]) == s0.(fixed := [f])
  {
    hide CheckExposure, Outstanding, LegalSaveInstant, LegalSaveFixed, InstantFits, Legal, After;
    NothingYet(s0);
    Extend(s0, [], InsertFixed(f));
    assert [] + [InsertFixed(f)] == [InsertFixed(f)];
  }

  lemma PaidFixedIsLegal(s0: State, f: FixedClaim, raw: nat)
    requires s0 == Initial(s0.limit, s0.maxDeposit, s0.outputAt)
    requires f.signed.None? && !f.succeeded && f.phase == Created && s0.outputAt(f.outpoint) == Site(f.address, f.value)
    ensures Legal(s0, PaidFixed(f, raw))
    ensures After(s0, PaidFixed(f, raw)) ==
      s0.(fixed := [Succeeded(f, raw)], claimCalls := {(0, f.plan)}, fixedSent := {(0, raw)})
  {
    hide CheckExposure, Outstanding, LegalSaveInstant, InstantFits, Legal, After;
    FirstFixed(s0, f);
    Extend(s0, [InsertFixed(f)], CallClaim(0));
    var a := [InsertFixed(f)] + [CallClaim(0)];
    Extend(s0, a, SaveFixed(0, Signed(f, raw)));
    Extend(s0, a + [SaveFixed(0, Signed(f, raw))], SendFixed(0));
    Extend(s0, a + [SaveFixed(0, Signed(f, raw))] + [SendFixed(0)], SaveFixed(0, Succeeded(f, raw)));
  }

  /** So the exception is real: the trigger lets the second claim in, and its
      frozen plan then spends the output that the first claim was credited for. */
  lemma RecoveryCanBeShared(s0: State, f: FixedClaim, raw: nat, c: InstantClaim)
    requires s0 == Initial(s0.limit, s0.maxDeposit, s0.outputAt) && Twins(s0.outputAt, f, c)
    requires CheckExposure(c.value, c.credit, 0, s0.maxDeposit, s0.limit)
    ensures Legal(s0, SharedRun(f, raw, c))
    ensures var s := After(s0, SharedRun(f, raw, c));
      s.instants == [Prepared(c, f.outpoint)] && s.fixed == [Succeeded(f, raw)]
  {
    hide CheckExposure, Legal, After, LegalSaveFixed;
    PaidFixedIsLegal(s0, f, raw);
    var a := PaidFixed(f, raw);
    Extend(s0, a, InsertInstant(c));
    var b := a + [InsertInstant(c)];
    Extend(s0, b, CallReserve(0, true));
    Extend(s0, b + [CallReserve(0, true)], SaveInstant(0, Paid(c)));
    var d := b + [CallReserve(0, true)] + [SaveInstant(0, Paid(c))];
    Extend(s0, d, SaveInstant(0, Prepared(c, f.outpoint)));
  }
}
