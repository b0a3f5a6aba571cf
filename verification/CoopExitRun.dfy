/** Cooperative withdrawals as a run of database commits and outside calls
    (src/coop_exit.rs). A restart may fall between any two of them: the
    properties hold of every run, wherever it stops and whoever continues it. */
module CoopExitRun {
  import opened Basics
  import opened ExitTransfer
  import opened ExitAmounts

  datatype Status = Initiated | Checked | Broadcasted | Confirmed | Succeeded | Expired

  /** The wallet's signature leaves the transaction id as it is. */
  datatype SignedTx = SignedTx(txid: nat, signature: nat)

  datatype Exit = Exit(owner: nat, transferId: nat, key: nat, fingerprint: nat,
                       leaves: seq<ExitLeaf>, fees: Fees, coin: Coin, outputs: ExitOutputs,
                       txid: nat, connector: nat, expiresAt: int, signed: Option<SignedTx>, status: Status)
  {
    predicate Terminal() {
      status == Succeeded || status == Expired
    }

    /** The payout coin, the connector funding and the SSP change. */
    function Reserved(): set<Outpoint> {
      {coin.outpoint, Outpoint(txid, 1), Outpoint(txid, 2)}
    }

    /** What the conditional Spark transfer must look like. */
    function Wanted(): ExitTransfer.Expected {
      ExitTransfer.Expected.Expected(transferId, owner, leaves, connector)
    }
  }

  /** The SSP's own identity key. */
  const SSP: nat := 0

  /** The empty string, which is no idempotency key and no transfer id. */
  const EMPTY_KEY: nat := 0

  /** A stored fee bump: its bytes, its rate and the value of its output. */
  datatype FeeBump = FeeBump(raw: nat, rate: u64, payout: u64)

  /** The tables, and what the outside world has answered or been told. */
  datatype State = State(
    exits: map<nat, Exit>,
    inputs: map<Outpoint, nat>,
    bumps: map<nat, FeeBump>,
    verified: map<nat, Transfer>,
    absent: set<nat>,
    confirmed: set<nat>,
    claimed: set<nat>,
    sent: set<(nat, SignedTx)>,
    sentBumps: set<(nat, nat)>)

  datatype Action =
    | Insert(id: nat, exit: Exit)
    | Verify(id: nat, transfer: Transfer)
    | SeeNoTransfer(id: nat)
    | Save(id: nat, exit: Exit)
    | Broadcast(id: nat)
    | SeeConfirmed(id: nat)
    | Claim(id: nat)
    | StoreBump(id: nat, bump: FeeBump)
    | BroadcastBump(id: nat)

  const EMPTY := State(map[], map[], map[], map[], {}, {}, {}, {}, {})

  /** The keys and unique columns of coop_exits and coop_exit_inputs. */
  predicate NoConflict(s: State, id: nat, e: Exit) {
    && id !in s.exits
    && (forall o :: o in s.exits ==> s.exits[o].transferId != e.transferId)
    && (forall o :: o in s.exits ==> !(s.exits[o].owner == e.owner && s.exits[o].key == e.key))
    && e.coin.outpoint.txid != e.txid
    && (forall p :: p in e.Reserved() ==> p !in s.inputs)
  }

  predicate PendingFor(s: State, owner: nat) {
    exists o :: o in s.exits && s.exits[o].owner == owner && !s.exits[o].Terminal()
  }

  /** Each satoshi of the coin and of the leaves is accounted for. */
  predicate Conserved(e: Exit) {
    && e.coin.value == e.outputs.payout + e.outputs.funding + e.outputs.change + e.fees.minerFee
    && e.outputs.funding == CONNECTOR_SATS * (|e.leaves| + 1)
    && e.outputs.change >= CONNECTOR_SATS
    && Value(e.leaves) == e.outputs.payout + e.fees.userFee + e.fees.minerFee
  }

  /** What one update of a withdrawal may change, and when. */
  predicate LegalSave(s: State, id: nat, e: Exit) {
    && id in s.exits && !s.exits[id].Terminal()
    && var was := s.exits[id];
    && e == was.(signed := e.signed, status := e.status)
    && match e.status {
         case Initiated => false
         case Checked => was.signed.None? && id in s.verified && e.signed.Some? && e.signed.value.txid == e.txid
         case Broadcasted => e.signed == was.signed && (e.signed.Some? && (id, e.signed.value) in s.sent)
         case Confirmed => e.signed == was.signed && e.signed.Some? && id in s.confirmed
         case Succeeded => e.signed == was.signed && e.signed.Some? && id in s.confirmed && id in s.claimed
         case Expired => e.signed == was.signed && e.signed.None? && id in s.absent
       }
  }

  ghost predicate Enabled(s: State, a: Action) {
    match a {
      case Insert(id, e) =>
        && NoConflict(s, id, e) && !PendingFor(s, e.owner)
        && e.status == Initiated && e.signed.None? && Conserved(e) && e.key != EMPTY_KEY
      case Verify(id, t) =>
        id in s.exits && !s.exits[id].Terminal() && s.exits[id].signed.None? && Accepts(t, s.exits[id].Wanted(), SSP)
      case SeeNoTransfer(id) => id in s.exits && s.exits[id].signed.None?
      case Save(id, e) => LegalSave(s, id, e)
      case Broadcast(id) => id in s.exits && !s.exits[id].Terminal() && s.exits[id].signed.Some?
      case SeeConfirmed(id) => id in s.exits && s.exits[id].signed.Some?
      case Claim(id) => id in s.exits && s.exits[id].signed.Some? && id in s.confirmed
      case StoreBump(id, bump) =>
        && id in s.exits && id !in s.bumps && s.exits[id].status == Broadcasted
        && bump.payout <= s.exits[id].outputs.change
      case BroadcastBump(id) => id in s.bumps && id in s.exits && !s.exits[id].Terminal()
    }
  }

  function Release(inputs: map<Outpoint, nat>, id: nat): map<Outpoint, nat> {
    map p | p in inputs && inputs[p] != id :: inputs[p]
  }

  function Reserve(inputs: map<Outpoint, nat>, id: nat, e: Exit): map<Outpoint, nat> {
    inputs[e.coin.outpoint := id][Outpoint(e.txid, 1) := id][Outpoint(e.txid, 2) := id]
  }

  ghost function Apply(s: State, a: Action): State
    requires Enabled(s, a)
  {
    match a {
      case Insert(id, e) => s.(exits := s.exits[id := e], inputs := Reserve(s.inputs, id, e))
      case Verify(id, t) => s.(verified := s.verified[id := t])
      case SeeNoTransfer(id) => s.(absent := s.absent + {id})
      case Save(id, e) =>
        s.(exits := s.exits[id := e], inputs := if e.Terminal() then Release(s.inputs, id) else s.inputs)
      case Broadcast(id) => s.(sent := s.sent + {(id, s.exits[id].signed.value)})
      case SeeConfirmed(id) => s.(confirmed := s.confirmed + {id})
      case Claim(id) => s.(claimed := s.claimed + {id})
      case StoreBump(id, bump) => s.(bumps := s.bumps[id := bump])
      case BroadcastBump(id) => s.(sentBumps := s.sentBumps + {(id, s.bumps[id].raw)})
    }
  }

  // ---- Runs ----

  /** Every action of the run was allowed where it happened. */
  ghost predicate Legal(run: seq<Action>)
    decreases |run|, 0
  {
    run == [] || (Legal(run[..|run| - 1]) && Enabled(After(run[..|run| - 1]), run[|run| - 1]))
  }

  ghost function After(run: seq<Action>): State
    requires Legal(run)
    decreases |run|, 1
  {
    if run == [] then EMPTY else Apply(After(run[..|run| - 1]), run[|run| - 1])
  }

  lemma Extend(run: seq<Action>, a: Action)
    requires Legal(run) && Enabled(After(run), a)
    ensures Legal(run + [a]) && After(run + [a]) == Apply(After(run), a)
  {
    assert (run + [a])[..|run|] == run;
  }

  // ---- What holds in every state ----

  /** Exactly the three outpoints of a pending withdrawal belong to it. */
  ghost predicate OwnsItsInputs(s: State, id: nat)
    requires id in s.exits
  {
    forall p :: (p in s.inputs && s.inputs[p] == id) <==> (!s.exits[id].Terminal() && p in s.exits[id].Reserved())
  }

  ghost predicate Reservations(s: State) {
    && (forall id :: id in s.exits ==> OwnsItsInputs(s, id))
    && (forall p :: p in s.inputs ==> s.inputs[p] in s.exits)
  }

  ghost predicate OnePending(s: State) {
    && (forall a, b :: a in s.exits && b in s.exits && a != b ==> s.exits[a].transferId != s.exits[b].transferId)
    && (forall a, b :: a in s.exits && b in s.exits && a != b && s.exits[a].owner == s.exits[b].owner ==>
          s.exits[a].Terminal() || s.exits[b].Terminal())
  }

  /** The outcome of one withdrawal agrees with what happened outside. */
  ghost predicate Sound(s: State, id: nat)
    requires id in s.exits
  {
    var e := s.exits[id];
    && e.key != EMPTY_KEY
    && (e.signed.None? <==> e.status == Initiated || e.status == Expired)
    && (e.signed.Some? ==> e.signed.value.txid == e.txid)
    && (e.signed.Some? ==> id in s.verified)
    && (id in s.verified ==> Accepts(s.verified[id], e.Wanted(), SSP))
    && (e.status == Expired ==> id in s.absent)
    && (e.status == Succeeded ==> id in s.confirmed && id in s.claimed)
    && (forall raw :: (id, raw) in s.sent ==> e.signed == Some(raw))
    && (id in s.bumps ==> e.signed.Some? && s.bumps[id].payout <= e.outputs.change)
    && (forall raw :: (id, raw) in s.sentBumps ==> id in s.bumps && s.bumps[id].raw == raw)
  }

  ghost predicate Inv(s: State) {
    && Reservations(s) && OnePending(s)
    && (forall id :: id in s.exits ==> Conserved(s.exits[id]))
    && (forall id :: id in s.exits ==> Sound(s, id))
    && References(s)
  }

  ghost predicate References(s: State) {
    && (forall id, raw :: (id, raw) in s.sent ==> id in s.exits)
    && (forall id, raw :: (id, raw) in s.sentBumps ==> id in s.exits)
    && (forall id :: id in s.bumps || id in s.verified ==> id in s.exits)
  }

  lemma InsertKeepsReservations(s: State, id: nat, e: Exit)
    requires Inv(s) && Enabled(s, Insert(id, e))
    ensures Reservations(Apply(s, Insert(id, e)))
  {
  }

  lemma SaveKeepsReservations(s: State, id: nat, e: Exit)
    requires Inv(s) && LegalSave(s, id, e)
    ensures Reservations(Apply(s, Save(id, e)))
  {
    hide Conserved, Sound, OnePending, References;
    var t := Apply(s, Save(id, e));
    assert OwnsItsInputs(s, id);
    forall o | o in t.exits ensures OwnsItsInputs(t, o) {
      assert OwnsItsInputs(s, o);
    }
  }

  lemma InsertKeepsInv(s: State, id: nat, e: Exit)
    requires Inv(s) && Enabled(s, Insert(id, e))
    ensures Inv(Apply(s, Insert(id, e)))
  {
    var t := Apply(s, Insert(id, e));
    InsertKeepsReservations(s, id, e);
    assert OnePending(t);
    forall o | o in t.exits ensures Sound(t, o) {
      if o != id { assert Sound(s, o); }
    }
  }

  lemma SaveKeepsSound(s: State, id: nat, e: Exit, o: nat)
    requires o in s.exits && Sound(s, o) && LegalSave(s, id, e)
    ensures Sound(Apply(s, Save(id, e)), o)
  {
  }

  lemma SaveKeepsOnePending(s: State, id: nat, e: Exit)
    requires OnePending(s) && LegalSave(s, id, e)
    ensures OnePending(Apply(s, Save(id, e)))
  {
  }

  lemma SaveKeepsReferences(s: State, id: nat, e: Exit)
    requires References(s) && LegalSave(s, id, e)
    ensures References(Apply(s, Save(id, e)))
  {
  }

  lemma SaveKeepsInv(s: State, id: nat, e: Exit)
    requires Inv(s) && LegalSave(s, id, e)
    ensures Inv(Apply(s, Save(id, e)))
  {
    var t := Apply(s, Save(id, e));
    SaveKeepsReservations(s, id, e);
    SaveKeepsOnePending(s, id, e);
    SaveKeepsReferences(s, id, e);
    forall o | o in t.exits ensures Sound(t, o) && Conserved(t.exits[o]) {
      SaveKeepsSound(s, id, e, o);
      assert Conserved(s.exits[o]);
    }
  }

  /** The other actions only add to what has been seen, told or stored. */
  lemma OutsideStepKeepsInv(s: State, a: Action)
    requires Inv(s) && Enabled(s, a) && !a.Insert? && !a.Save?
    ensures Inv(Apply(s, a))
  {
    var t := Apply(s, a);
    assert t.exits == s.exits && t.inputs == s.inputs;
    SameTables(s, t);
    OutsideStepKeepsReferences(s, a);
    forall o | o in t.exits ensures Sound(t, o) {
      OutsideStepKeepsSound(s, a, o);
    }
  }

  lemma OutsideStepKeepsReferences(s: State, a: Action)
    requires References(s) && Enabled(s, a) && !a.Insert? && !a.Save?
    ensures References(Apply(s, a))
  {
  }

  lemma SameTables(s: State, t: State)
    requires Reservations(s) && OnePending(s) && t.exits == s.exits && t.inputs == s.inputs
    ensures Reservations(t) && OnePending(t)
  {
    forall o | o in t.exits ensures OwnsItsInputs(t, o) {
      assert OwnsItsInputs(s, o);
    }
  }

  lemma OutsideStepKeepsSound(s: State, a: Action, o: nat)
    requires o in s.exits && Sound(s, o) && Enabled(s, a) && !a.Insert? && !a.Save?
    ensures Sound(Apply(s, a), o)
  {
  }

  lemma StepKeepsInv(s: State, a: Action)
    requires Inv(s) && Enabled(s, a)
    ensures Inv(Apply(s, a))
  {
    if a.Insert? {
      InsertKeepsInv(s, a.id, a.exit);
    } else if a.Save? {
      SaveKeepsInv(s, a.id, a.exit);
    } else {
      OutsideStepKeepsInv(s, a);
    }
  }

  /** In every reachable state, wherever a restart cuts the run: a pending
      withdrawal owns exactly its three outpoints, no outpoint has two owners,
      a finished one owns none, and every withdrawal conserves value. */
  lemma {:induction false} EveryRunKeepsInv(run: seq<Action>)
    requires Legal(run)
    ensures Inv(After(run))
    decreases |run|
  {
    if run != [] {
      EveryRunKeepsInv(run[..|run| - 1]);
      StepKeepsInv(After(run[..|run| - 1]), run[|run| - 1]);
    }
  }

  // ---- How states follow each other ----

  /** Between an earlier and a later state of one run: records are never lost,
      only their signature and status change, a signature is never replaced, a
      finished record is frozen, and a fee bump is stored once. */
  ghost predicate Evolves(s: State, t: State) {
    && (forall id :: id in s.exits ==> id in t.exits && RecordEvolves(s.exits[id], t.exits[id]))
    && (forall id :: id in s.bumps ==> id in t.bumps && t.bumps[id] == s.bumps[id])
    && s.sent <= t.sent
  }

  predicate RecordEvolves(e: Exit, f: Exit) {
    && f == e.(signed := f.signed, status := f.status)
    && (e.signed.Some? ==> f.signed == e.signed)
    && (e.Terminal() ==> f == e)
  }

  lemma StepEvolves(s: State, a: Action)
    requires Enabled(s, a)
    ensures Evolves(s, Apply(s, a))
  {
    forall id | id in s.exits ensures id in Apply(s, a).exits && RecordEvolves(s.exits[id], Apply(s, a).exits[id]) {
      if a.Save? && a.id == id {
        assert LegalSave(s, id, a.exit);
      }
    }
  }

  lemma {:induction false} PrefixLegal(run: seq<Action>, i: nat)
    requires Legal(run) && i <= |run|
    ensures Legal(run[..i])
    decreases |run|
  {
    if i < |run| {
      PrefixLegal(run[..|run| - 1], i);
      assert run[..|run| - 1][..i] == run[..i];
    } else {
      assert run[..i] == run;
    }
  }

  /** The state after the first `i` actions. */
  ghost function At(run: seq<Action>, i: nat): State
    requires Legal(run) && i <= |run|
  {
    PrefixLegal(run, i);
    After(run[..i])
  }

  lemma {:induction false} EveryRunEvolves(run: seq<Action>, i: nat)
    requires Legal(run) && i <= |run|
    ensures Evolves(At(run, i), After(run))
    decreases |run|
  {
    if i < |run| {
      var front := run[..|run| - 1];
      EveryRunEvolves(front, i);
      assert front[..i] == run[..i];
      StepEvolves(After(front), run[|run| - 1]);
      EvolvesThrough(At(run, i), After(front), After(run));
    } else {
      assert run[..i] == run;
    }
  }

  lemma EvolvesThrough(s: State, t: State, u: State)
    requires Evolves(s, t) && Evolves(t, u)
    ensures Evolves(s, u)
  {
    forall id | id in s.exits ensures id in u.exits && RecordEvolves(s.exits[id], u.exits[id]) {
      assert id in t.exits && RecordEvolves(s.exits[id], t.exits[id]);
      assert RecordEvolves(t.exits[id], u.exits[id]);
    }
  }

  lemma StepAt(run: seq<Action>, i: nat)
    requires Legal(run) && i < |run|
    ensures Enabled(At(run, i), run[i]) && At(run, i + 1) == Apply(At(run, i), run[i])
  {
    hide Apply, Enabled;
    PrefixLegal(run, i + 1);
    assert run[..i + 1][..i] == run[..i];
  }

  /** Signed bytes are stored before any broadcast and never change: every
      broadcast of a withdrawal, at any point of the run, sends the one
      transaction its record holds at the end. */
  lemma BroadcastsSendTheStoredBytes(run: seq<Action>, i: nat, id: nat)
    requires Legal(run) && i < |run| && run[i] == Broadcast(id)
    ensures id in At(run, i).exits && At(run, i).exits[id].signed.Some?
    ensures id in After(run).exits && After(run).exits[id].signed == At(run, i).exits[id].signed
    ensures After(run).exits[id].signed.value.txid == After(run).exits[id].txid
  {
    StepAt(run, i);
    EveryRunEvolves(run, i);
    EveryRunKeepsInv(run);
    assert Sound(After(run), id);
  }

  /** A coin leaves the reservation table only with the withdrawal's end, and
      that end is safe: either the record expired unsigned, so no transaction
      spending the coin was ever sent, or the payout confirmed and the Spark
      leaves were claimed. */
  lemma CoinsAreFreedSafely(run: seq<Action>, i: nat, p: Outpoint)
    requires Legal(run) && i <= |run| && p in At(run, i).inputs
    requires p in After(run).inputs ==> After(run).inputs[p] != At(run, i).inputs[p]
    ensures var id := At(run, i).inputs[p];
      var t := After(run);
      && id in t.exits && t.exits[id].Terminal()
      && (t.exits[id].status == Expired ==> forall raw :: (id, raw) !in t.sent)
      && (t.exits[id].status == Succeeded ==> id in t.confirmed && id in t.claimed && t.exits[id].signed.Some?)
  {
    PrefixLegal(run, i);
    var s, t := At(run, i), After(run);
    EveryRunKeepsInv(run[..i]);
    EveryRunKeepsInv(run);
    EveryRunEvolves(run, i);
    var id := s.inputs[p];
    OwnerIsPending(s, p);
    assert RecordEvolves(s.exits[id], t.exits[id]);
    OwnsUntilTheEnd(t, id, p);
    assert Sound(t, id);
  }

  /** A coin serves two payouts only safely: of two withdrawals that ever reserved
      it, the earlier one's transaction was never sent, or it is the one that
      confirmed. */
  lemma ReusedCoinsAreSafe(run: seq<Action>, i: nat, j: nat, p: Outpoint)
    requires Legal(run) && i <= j <= |run| && p in At(run, i).inputs && p in At(run, j).inputs
    requires At(run, i).inputs[p] != At(run, j).inputs[p]
    ensures var id := At(run, i).inputs[p];
      (forall raw :: (id, raw) !in After(run).sent) || (id in After(run).confirmed && id in After(run).claimed)
  {
    hide Apply, Enabled;
    var id := At(run, i).inputs[p];
    PrefixLegal(run, j);
    assert run[..j][..i] == run[..i];
    PrefixLegal(run[..j], i);
    CoinsAreFreedSafely(run[..j], i, p);
    EveryRunEvolves(run, j);
    assert RecordEvolves(At(run, j).exits[id], After(run).exits[id]);
    EveryRunKeepsInv(run);
    assert Sound(After(run), id);
  }

  lemma OwnerIsPending(s: State, p: Outpoint)
    requires Reservations(s) && p in s.inputs
    ensures s.inputs[p] in s.exits && p in s.exits[s.inputs[p]].Reserved()
  {
    assert OwnsItsInputs(s, s.inputs[p]);
  }

  lemma OwnsUntilTheEnd(t: State, id: nat, p: Outpoint)
    requires Reservations(t) && id in t.exits && p in t.exits[id].Reserved() && (p in t.inputs ==> t.inputs[p] != id)
    ensures t.exits[id].Terminal()
  {
    assert OwnsItsInputs(t, id);
  }

  /** No Bitcoin signature without a matching transfer: whenever a withdrawal
      is signed, the transfer checked for it binds every connector output. */
  lemma SignedExitsAreFunded(run: seq<Action>, id: nat, k: nat)
    requires Legal(run) && id in After(run).exits && After(run).exits[id].signed.Some?
    ensures id in After(run).verified
    ensures var e := After(run).exits[id];
      var t := After(run).verified[id];
      t.total == e.outputs.payout + e.fees.userFee + e.fees.minerFee
      && ((exists a :: SpentOnlyBy(t, Outpoint(e.connector, k), a)) <==> k < |e.leaves|)
  {
    EveryRunKeepsInv(run);
    assert Sound(After(run), id);
    var e := After(run).exits[id];
    assert Conserved(e);
    AcceptedSpendsEveryOutput(After(run).verified[id], e.Wanted(), SSP, k);
  }

  // ---- The stored status is not monotone ----

  function Progress(status: Status): nat {
    match status
    case Initiated => 0
    case Checked => 1
    case Broadcasted => 2
    case Confirmed => 3
    case Succeeded => 4
    case Expired => 4
  }

  /** One update takes a withdrawal back exactly when it was confirmed and is
      broadcast again, because the lookup of its confirmations failed. */
  lemma StatusFallsIff(s: State, id: nat, e: Exit)
    requires Inv(s) && LegalSave(s, id, e)
    ensures Progress(e.status) < Progress(s.exits[id].status) <==>
      s.exits[id].status == Confirmed && e.status == Broadcasted
  {
    hide Reservations, OnePending, References, Conserved, Accepts;
    assert Sound(s, id);
  }

  /** A withdrawal is checked, signed, broadcast and seen confirmed. */
  function ConfirmedRun(id: nat, e: Exit, t: Transfer, raw: SignedTx): seq<Action> {
    [Insert(id, e)] + [Verify(id, t)] + [Save(id, e.(signed := Some(raw), status := Checked))] + [Broadcast(id)]
    + [SeeConfirmed(id)] + [Save(id, e.(signed := Some(raw), status := Confirmed))]
  }

  function FallBackRun(id: nat, e: Exit, t: Transfer, raw: SignedTx): seq<Action> {
    ConfirmedRun(id, e, t, raw) + [Broadcast(id)] + [Save(id, e.(signed := Some(raw), status := Broadcasted))]
  }

  /** A request with a matching transfer, and a signature of its transaction. */
  ghost predicate Fresh(e: Exit, t: Transfer, raw: SignedTx) {
    && e.status == Initiated && e.signed.None? && Conserved(e) && e.key != EMPTY_KEY
    && e.coin.outpoint.txid != e.txid && Accepts(t, e.Wanted(), SSP) && raw.txid == e.txid
  }

  lemma ConfirmedRunIsLegal(id: nat, e: Exit, t: Transfer, raw: SignedTx)
    requires Fresh(e, t, raw)
    ensures Legal(ConfirmedRun(id, e, t, raw))
    ensures After(ConfirmedRun(id, e, t, raw)).exits == map[id := e.(signed := Some(raw), status := Confirmed)]
  {
    assert Legal([]) && After([]) == EMPTY;
    hide Legal, After, Accepts, Conserved, Reserve;
    Extend([], Insert(id, e));
    assert [] + [Insert(id, e)] == [Insert(id, e)];
    Extend([Insert(id, e)], Verify(id, t));
    var a := [Insert(id, e)] + [Verify(id, t)];
    Extend(a, Save(id, e.(signed := Some(raw), status := Checked)));
    var b := a + [Save(id, e.(signed := Some(raw), status := Checked))];
    Extend(b, Broadcast(id));
    Extend(b + [Broadcast(id)], SeeConfirmed(id));
    var c := b + [Broadcast(id)] + [SeeConfirmed(id)];
    Extend(c, Save(id, e.(signed := Some(raw), status := Confirmed)));
  }

  /** It does happen: after two further steps the record reads as broadcast. */
  lemma StatusCanFallBack(id: nat, e: Exit, t: Transfer, raw: SignedTx)
    requires Fresh(e, t, raw)
    ensures Legal(ConfirmedRun(id, e, t, raw))
    ensures After(ConfirmedRun(id, e, t, raw)).exits == map[id := e.(signed := Some(raw), status := Confirmed)]
    ensures Legal(FallBackRun(id, e, t, raw))
    ensures After(FallBackRun(id, e, t, raw)).exits == map[id := e.(signed := Some(raw), status := Broadcasted)]
  {
    hide Legal, After, Fresh, ConfirmedRun;
    ConfirmedRunIsLegal(id, e, t, raw);
    var a := ConfirmedRun(id, e, t, raw);
    Extend(a, Broadcast(id));
    Extend(a + [Broadcast(id)], Save(id, e.(signed := Some(raw), status := Broadcasted)));
  }
}
