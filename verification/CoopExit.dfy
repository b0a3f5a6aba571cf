/** The withdrawal service (src/coop_exit.rs): the request, completion, worker
    and fee-bump procedures over the tables, each one a legal run. */
module CoopExit {
  import opened Basics
  import opened ExitTransfer
  import opened ExitAmounts
  import opened CoopExitRun

  datatype Quote = Quote(fees: Fees, expiresAt: int, addressMatches: bool)

  /** One record moved on; every other record is as it was. */
  ghost predicate OnlyChanged(before: map<nat, Exit>, id: nat, after: map<nat, Exit>) {
    && id in before && id in after && RecordEvolves(before[id], after[id])
    && after == before[id := after[id]]
  }

  /** A record is newly expired only if unsigned, overdue and without a transfer. */
  predicate FairlyExpired(before: Exit, after: Exit, now: int, absent: bool) {
    after.status == Expired && before.status != Expired ==>
      before.signed.None? && before.expiresAt <= now && absent
  }

  ghost predicate PassSoFar(before: map<nat, Exit>, after: map<nat, Exit>, absent: set<nat>, now: int) {
    && after.Keys == before.Keys
    && forall o :: o in after ==>
         RecordEvolves(before[o], after[o]) && FairlyExpired(before[o], after[o], now, o in absent)
  }

  lemma PassContinues(before: map<nat, Exit>, mid: map<nat, Exit>, seen: set<nat>, id: nat,
                      after: map<nat, Exit>, absent: set<nat>, now: int)
    requires PassSoFar(before, mid, seen, now) && OnlyChanged(mid, id, after) && seen <= absent
    requires FairlyExpired(mid[id], after[id], now, id in absent)
    ensures PassSoFar(before, after, absent, now)
  {
    assert after.Keys == mid.Keys;
    assert RecordEvolves(before[id], mid[id]);
  }

  /** The action is among those from position `n` on. */
  ghost predicate Took(run: seq<Action>, n: nat, a: Action) {
    exists i :: n <= i < |run| && run[i] == a
  }

  lemma NothingChanged(exits: map<nat, Exit>, id: nat)
    requires id in exits
    ensures OnlyChanged(exits, id, exits)
  {
  }

  // ---- What one visit does to a record ----

  /** What the outside answers while one withdrawal is carried on: the operators'
      transfer, the wallet's signature, the confirmations that the node reports,
      and its and the operators' answers to the calls that follow. */
  datatype Replies = Replies(transfer: Outcome<Transfer>, raw: Outcome<SignedTx>, confirmations: Outcome<int>,
                             accepted: Outcome<()>, bumped: Outcome<()>, claimed: Outcome<()>)
  {
    /** A lookup that fails counts as unconfirmed. */
    function Seen(): int {
      if confirmations.Ok? then confirmations.value else 0
    }
  }

  /** The transfer binds these leaves to this payout, and the wallet signed it. */
  ghost predicate Signable(e: Exit, q: Replies) {
    q.transfer.Ok? && Accepts(q.transfer.value, e.Wanted(), SSP) && q.raw.Ok? && q.raw.value.txid == e.txid
  }

  /** The record as it stands once it is signed, if it can be. */
  ghost function Signed(e: Exit, q: Replies): Exit {
    if !e.Terminal() && e.signed.None? && Signable(e, q) then e.(signed := Some(q.raw.value), status := Checked) else e
  }

  /** The record after one visit: left alone when it ended, could not be signed or
      is conflicted; broadcast while it has no confirmation; settled once it has. */
  ghost function Carried(e: Exit, q: Replies): Exit {
    var s := Signed(e, q);
    if e.Terminal() || s.signed.None? || q.Seen() < 0 then s
    else if q.Seen() == 0 then if q.accepted.Ok? then s.(status := Broadcasted) else s
    else s.(status := if q.claimed.Ok? then CoopExitRun.Succeeded else Confirmed)
  }

  /** When a visit reports an error. */
  ghost predicate Fails(e: Exit, q: Replies, bumped: bool) {
    && !e.Terminal()
    && (|| Signed(e, q).signed.None?
        || q.Seen() < 0
        || (q.Seen() == 0 && (!q.accepted.Ok? || (bumped && !q.bumped.Ok?)))
        || (q.Seen() > 0 && !q.claimed.Ok?))
  }

  /** A signature that is stored is the one the rest of the visit works with. */
  lemma SignedOnce(e: Exit, q: Replies, bumped: bool)
    requires !e.Terminal()
    ensures Signed(e, q).signed.Some? ==> Carried(Signed(e, q), q) == Carried(e, q)
    ensures Signed(e, q).signed.Some? ==> (Fails(Signed(e, q), q, bumped) <==> Fails(e, q, bumped))
    ensures Signed(e, q).signed.None? ==> Carried(e, q) == Signed(e, q) && Fails(e, q, bumped)
    ensures Signed(e, q).signed.Some? ==> !Signed(e, q).Terminal()
  {
  }

  /** A visit of the worker first expires an unsigned, overdue withdrawal whose
      transfer the operators do not have. */
  ghost function Visited(e: Exit, q: Replies, found: Outcome<bool>, now: int): Exit {
    if e.Terminal() || e.signed.Some? || now < e.expiresAt || found == Ok(true) then Carried(e, q)
    else if found == Ok(false) then e.(status := Expired)
    else e
  }

  /** A withdrawal ends well exactly when it is signed, confirmed and claimed. */
  lemma SettledIff(e: Exit, q: Replies)
    requires !e.Terminal()
    ensures Carried(e, q).status == CoopExitRun.Succeeded <==>
      (e.signed.Some? || Signable(e, q)) && q.Seen() >= 1 && q.claimed.Ok?
    ensures Carried(e, q).status != Expired
  {
  }

  /** And it expires exactly when it is unsigned, overdue and has no transfer. */
  lemma ExpiredIff(e: Exit, q: Replies, found: Outcome<bool>, now: int)
    requires !e.Terminal()
    ensures Visited(e, q, found, now).status == Expired <==>
      e.signed.None? && e.expiresAt <= now && found == Ok(false)
  {
  }

  /** The unique columns of coop_exits, besides its key. */
  predicate SameRequest(a: Exit, b: Exit) {
    a.transferId == b.transferId || (a.owner == b.owner && a.key == b.key)
  }

  predicate Completes(e: Exit, owner: nat, transferId: nat) {
    e.owner == owner && e.transferId == transferId
  }

  class CoopExitService {
    // coop_exits in row order, coop_exit_inputs, coop_exit_bumps
    var exits: map<nat, Exit>
    var order: seq<nat>
    var inputs: map<Outpoint, nat>
    var bumps: map<nat, FeeBump>
    // What the operators and the Bitcoin node have answered or been told.
    ghost var verified: map<nat, Transfer>
    ghost var absent: set<nat>
    ghost var confirmed: set<nat>
    ghost var claimed: set<nat>
    ghost var sent: set<(nat, SignedTx)>
    ghost var sentBumps: set<(nat, nat)>
    ghost var run: seq<Action>

    ghost function Now(): State
      reads this
    {
      State(exits, inputs, bumps, verified, absent, confirmed, claimed, sent, sentBumps)
    }

    ghost predicate Valid()
      reads this
    {
      && Legal(run) && After(run) == Now()
      && Distinct(order) && (forall id :: id in order <==> id in exits)
    }

    constructor ()
      ensures Valid() && run == []
    {
      exits, order, inputs, bumps := map[], [], map[], map[];
      verified, absent, confirmed, claimed, sent, sentBumps := map[], {}, {}, {}, {}, {};
      run := [];
    }

    // ---- One commit, or one outside call ----

    ghost method Did(a: Action, before: State)
      requires Legal(run) && After(run) == before && Enabled(before, a) && Now() == Apply(before, a)
      requires Distinct(order) && (forall id :: id in order <==> id in exits)
      modifies this`run
      ensures Valid() && run == old(run) + [a]
    {
      Extend(run, a);
      run := run + [a];
    }

    method InsertCoopExit(id: nat, e: Exit) returns (r: Outcome<()>)
      requires Valid() && !PendingFor(Now(), e.owner)
      requires e.status == Initiated && e.signed.None? && Conserved(e) && e.key != EMPTY_KEY
      modifies this`exits, this`order, this`inputs, this`run
      ensures Valid()
      ensures r.Ok? ==> run == old(run) + [Insert(id, e)] && id !in old(exits) && exits == old(exits)[id := e]
      ensures r.Err? ==> run == old(run) && !old(NoConflict(Now(), id, e))
      ensures r.Crashed? ==> run == old(run) || run == old(run) + [Insert(id, e)]
    {
      var dies: bool := *;
      var committed: bool := *;
      if dies && !committed {
        return Crashed;
      }
      if id in exits || (exists o :: o in exits && SameRequest(exits[o], e))
        || e.coin.outpoint.txid == e.txid || (exists p :: p in e.Reserved() && p in inputs) {
        return if dies then Crashed else Err(Rejected);
      }
      ghost var before := Now();
      exits := exits[id := e];
      order := order + [id];
      inputs := inputs[e.coin.outpoint := id];
      inputs := inputs[Outpoint(e.txid, 1) := id];
      inputs := inputs[Outpoint(e.txid, 2) := id];
      Did(Insert(id, e), before);
      r := if dies then Crashed else Ok(());
    }

    method UpdateCoopExit(id: nat, e: Exit) returns (r: Outcome<()>)
      requires Valid() && LegalSave(Now(), id, e)
      modifies this`exits, this`inputs, this`run
      ensures Valid() && id in old(exits) && (exits == old(exits) || exits == old(exits)[id := e])
      ensures r.Ok? ==> exits == old(exits)[id := e]
      ensures if r.Ok? then run == old(run) + [Save(id, e)]
        else r.Crashed? && (run == old(run) || run == old(run) + [Save(id, e)])
    {
      var dies: bool := *;
      var committed: bool := *;
      if dies && !committed {
        return Crashed;
      }
      ghost var before := Now();
      exits := exits[id := e];
      if e.status == Succeeded || e.status == Expired {
        inputs := map p | p in inputs && inputs[p] != id :: inputs[p];
      }
      Did(Save(id, e), before);
      r := if dies then Crashed else Ok(());
    }

    /** Ask the operators for the conditional transfer and check it. */
    method VerifyTransfer(id: nat, reply: Outcome<Transfer>) returns (r: Outcome<()>)
      requires Valid() && id in exits && !exits[id].Terminal() && exits[id].signed.None?
      modifies this`verified, this`run
      ensures Valid()
      ensures r.Ok? ==> reply.Ok? && run == old(run) + [Verify(id, reply.value)] && id in verified
      ensures r.Ok? ==> Accepts(reply.value, exits[id].Wanted(), SSP)
      ensures r.Err? ==> run == old(run) && (reply.Ok? ==> !Accepts(reply.value, exits[id].Wanted(), SSP))
      ensures r.Crashed? ==> reply.Crashed? && run == old(run)
    {
      var transfer :- reply;
      var ok := ValidateTransfer(transfer, exits[id].Wanted(), SSP);
      if !ok {
        return Err(Mismatch);
      }
      ghost var before := Now();
      verified := verified[id := transfer];
      Did(Verify(id, transfer), before);
      r := Ok(());
    }

    method TransferExists(id: nat, reply: Outcome<bool>) returns (r: Outcome<bool>)
      requires Valid() && id in exits && exits[id].signed.None?
      modifies this`absent, this`run
      ensures Valid() && old(run) <= run && old(absent) <= absent
      ensures r == reply && (r == Ok(false) ==> id in absent)
      ensures run == if reply == Ok(false) then old(run) + [SeeNoTransfer(id)] else old(run)
    {
      if reply == Ok(false) {
        ghost var before := Now();
        absent := absent + {id};
        Did(SeeNoTransfer(id), before);
      }
      r := reply;
    }

    /** The node may accept the transaction and lose the reply. */
    method SendRaw(id: nat)
      requires Valid() && id in exits && !exits[id].Terminal() && exits[id].signed.Some?
      modifies this`sent, this`run
      ensures Valid() && run == old(run) + [Broadcast(id)]
      ensures sent == old(sent) + {(id, exits[id].signed.value)}
    {
      ghost var before := Now();
      sent := sent + {(id, exits[id].signed.value)};
      Did(Broadcast(id), before);
    }

    method SendBump(id: nat)
      requires Valid() && id in bumps && id in exits && !exits[id].Terminal()
      modifies this`sentBumps, this`run
      ensures Valid() && run == old(run) + [BroadcastBump(id)]
      ensures sentBumps == old(sentBumps) + {(id, bumps[id].raw)}
    {
      ghost var before := Now();
      sentBumps := sentBumps + {(id, bumps[id].raw)};
      Did(BroadcastBump(id), before);
    }

    /** The node's answer about the stored transaction is noted when it has one. */
    ghost method NoteConfirmations(id: nat, reply: Outcome<int>)
      requires Valid() && id in exits && exits[id].signed.Some?
      modifies this`confirmed, this`run
      ensures Valid()
      ensures run == if reply.Ok? && reply.value > 0 then old(run) + [SeeConfirmed(id)] else old(run)
      ensures reply.Ok? && reply.value > 0 ==> id in confirmed
    {
      if reply.Ok? && reply.value > 0 {
        var before := Now();
        confirmed := confirmed + {id};
        Did(SeeConfirmed(id), before);
      }
    }

    /** The claim may succeed and lose its reply; Ok says it succeeded. */
    method ClaimTransfer(id: nat, reply: Outcome<()>)
      requires Valid() && id in exits && exits[id].signed.Some? && id in confirmed
      modifies this`claimed, this`run
      ensures Valid() && (run == old(run) || run == old(run) + [Claim(id)])
      ensures reply.Ok? ==> run == old(run) + [Claim(id)] && id in claimed
    {
      var succeeded: bool := *;
      if succeeded || reply.Ok? {
        ghost var before := Now();
        claimed := claimed + {id};
        Did(Claim(id), before);
      }
    }

    // ---- Procedures ----

    /** No Bitcoin signature exists before the conditional transfer is checked. */
    method EnsureSigned(id: nat, q: Replies) returns (r: Outcome<()>)
      requires Valid() && id in exits && !exits[id].Terminal()
      modifies this`exits, this`inputs, this`verified, this`run
      ensures Valid() && old(run) <= run
      ensures OnlyChanged(old(exits), id, exits) && !exits[id].Terminal()
      ensures !r.Crashed? ==> exits[id] == Signed(old(exits[id]), q)
      ensures !r.Crashed? ==> (r.Ok? <==> Signed(old(exits[id]), q).signed.Some?)
      ensures exits != old(exits) ==>
        q.transfer.Ok? && |old(run)| < |run| && run[|old(run)|] == Verify(id, q.transfer.value)
      ensures old(exits[id]).signed.Some? ==> r.Ok? && run == old(run)
    {
      hide After, Legal;
      var record := exits[id];
      if record.signed.Some? {
        return Ok(());
      }
      var _ :- VerifyTransfer(id, q.transfer);
      var raw :- q.raw;
      if raw.txid != record.txid {
        return Err(Mismatch);
      }
      r := UpdateCoopExit(id, record.(signed := Some(raw), status := Checked));
    }

    /** A lost reply never creates a replacement payout: broadcast the stored
        transaction again, and a stored fee bump after it. */
    method Rebroadcast(id: nat, q: Replies) returns (r: Outcome<()>)
      requires Valid() && id in exits && !exits[id].Terminal() && exits[id].signed.Some?
      modifies this`exits, this`inputs, this`sent, this`sentBumps, this`run
      ensures Valid() && old(run) + [Broadcast(id)] <= run
      ensures OnlyChanged(old(exits), id, exits) && !exits[id].Terminal()
      ensures !r.Crashed? ==>
        exits[id] == if q.accepted.Ok? then old(exits[id]).(status := Broadcasted) else old(exits[id])
      ensures !r.Crashed? ==> (r.Ok? <==> q.accepted.Ok? && (id in bumps ==> q.bumped.Ok?))
      ensures sent == old(sent) + {(id, old(exits[id]).signed.value)}
      ensures r.Ok? && id in bumps ==> run == old(run) + [Broadcast(id), Save(id, exits[id]), BroadcastBump(id)]
      ensures r.Ok? && id !in bumps ==> run == old(run) + [Broadcast(id), Save(id, exits[id])]
    {
      hide After, Legal;
      SendRaw(id);
      var _ :- q.accepted;
      var _ :- UpdateCoopExit(id, exits[id].(status := Broadcasted));
      if id in bumps {
        SendBump(id);
        var _ :- q.bumped;
      }
      r := Ok(());
    }

    /** The reservation ends only once the Spark leaves are recovered. */
    method Settle(id: nat, q: Replies) returns (r: Outcome<()>)
      requires Valid() && id in exits && !exits[id].Terminal() && exits[id].signed.Some? && id in confirmed
      modifies this`exits, this`inputs, this`claimed, this`run
      ensures Valid() && old(run) <= run
      ensures OnlyChanged(old(exits), id, exits) && exits[id].status != Expired
      ensures !r.Crashed? ==> (r.Ok? <==> q.claimed.Ok?)
      ensures r.Ok? ==> exits[id] == old(exits[id]).(status := CoopExitRun.Succeeded) && id in claimed
      ensures var seen := old(exits[id]).(status := Confirmed);
        r.Ok? ==> run == old(run) + [Save(id, seen), Claim(id), Save(id, exits[id])]
      ensures r.Err? ==> exits[id] == old(exits[id]).(status := Confirmed)
    {
      hide After, Legal;
      var record := exits[id].(status := Confirmed);
      var _ :- UpdateCoopExit(id, record);
      ClaimTransfer(id, q.claimed);
      var _ :- q.claimed;
      r := UpdateCoopExit(id, record.(status := CoopExitRun.Succeeded));
    }

    /** A signed withdrawal is broadcast while it has no confirmation and settled
        once it has; a conflicted one is left alone. */
    method FollowUp(id: nat, q: Replies) returns (r: Outcome<()>)
      requires Valid() && id in exits && !exits[id].Terminal() && exits[id].signed.Some?
      modifies this`exits, this`inputs, this`confirmed, this`claimed, this`sent, this`sentBumps, this`run
      ensures Valid() && old(run) <= run
      ensures OnlyChanged(old(exits), id, exits) && exits[id].status != Expired
      ensures !r.Crashed? ==> exits[id] == Carried(old(exits[id]), q)
      ensures !r.Crashed? ==> (r.Err? <==> Fails(old(exits[id]), q, id in bumps))
      ensures r.Ok? && q.Seen() >= 1 ==> |run| >= |old(run)| + 2 && id in claimed
      ensures r.Ok? && q.Seen() >= 1 ==> run[|run| - 2] == Claim(id) && run[|run| - 1] == Save(id, exits[id])
      ensures q.Seen() == 0 && !r.Crashed? ==> |run| > |old(run)| && run[|old(run)|] == Broadcast(id)
      ensures q.Seen() == 0 && !r.Crashed? ==> (id, exits[id].signed.value) in sent
      ensures q.Seen() < 0 ==> sent == old(sent) && claimed == old(claimed)
    {
      hide After, Legal, Signable, OnlyChanged;
      NoteConfirmations(id, q.confirmations);
      if q.confirmations.Crashed? {
        NothingChanged(exits, id);
        return Crashed;
      }
      var confirmations := if q.confirmations.Ok? then q.confirmations.value else 0;
      if confirmations < 0 {
        NothingChanged(exits, id);
        return Err(Rejected);
      }
      if confirmations == 0 {
        r := Rebroadcast(id, q);
      } else {
        r := Settle(id, q);
      }
    }

    /** Carry one withdrawal as far as the outside world allows: signed after the
        check, broadcast while unconfirmed, claimed and ended once confirmed. */
    method Advance(id: nat, q: Replies) returns (r: Outcome<()>)
      requires Valid() && id in exits
      modifies this`exits, this`inputs, this`verified, this`confirmed, this`claimed, this`sent, this`sentBumps, this`run
      ensures Valid() && old(run) <= run
      ensures OnlyChanged(old(exits), id, exits)
      ensures old(exits[id]).Terminal() ==> r == Ok(()) && run == old(run)
      ensures !old(exits[id]).Terminal() ==> exits[id].status != Expired
      ensures !r.Crashed? ==> exits[id] == Carried(old(exits[id]), q)
      ensures !r.Crashed? ==> (r.Err? <==> Fails(old(exits[id]), q, id in bumps))
      ensures r.Ok? && !old(exits[id]).Terminal() && q.Seen() >= 1 ==>
        id in claimed && Took(run, |old(run)|, Claim(id)) && run[|run| - 1] == Save(id, exits[id])
      ensures r.Ok? && !old(exits[id]).Terminal() && q.Seen() == 0 ==>
        Took(run, |old(run)|, Broadcast(id)) && (id, exits[id].signed.value) in sent
      ensures q.Seen() < 0 ==> sent == old(sent) && claimed == old(claimed)
    {
      hide After, Legal, Signable;
      if exits[id].Terminal() {
        return Ok(());
      }
      SignedOnce(exits[id], q, id in bumps);
      hide Signed, Carried, Fails;
      var _ :- EnsureSigned(id, q);
      ghost var n := |run|;
      r := FollowUp(id, q);
      if r.Ok? {
        assert if q.Seen() >= 1 then run[|run| - 2] == Claim(id) else q.Seen() == 0 ==> run[n] == Broadcast(id);
      }
    }

    /** One pass of the worker: expire the unsigned requests whose transfer
        does not exist, and advance every other pending one. */
    method RunOnce(now: int, replies: nat -> Replies, found: nat -> Outcome<bool>) returns (r: Outcome<()>)
      requires Valid()
      modifies this`exits, this`inputs, this`verified, this`absent, this`confirmed
      modifies this`claimed, this`sent, this`sentBumps, this`run
      ensures Valid() && old(run) <= run && !r.Err?
      ensures PassSoFar(old(exits), exits, absent, now)
      ensures r.Ok? ==> forall o :: o in exits ==> exits[o] == Visited(old(exits)[o], replies(o), found(o), now)
    {
      hide After, Legal, Visited;
      ghost var start := exits;
      for i := 0 to |order|
        invariant Valid() && old(run) <= run && old(absent) <= absent
        invariant PassSoFar(start, exits, absent, now)
        invariant forall j :: 0 <= j < i ==>
          exits[order[j]] == Visited(start[order[j]], replies(order[j]), found(order[j]), now)
        invariant forall j :: i <= j < |order| ==> exits[order[j]] == start[order[j]]
      {
        ghost var mid, seen := exits, absent;
        assert order[i] in order;
        var advanced := ExpireOrAdvance(order[i], now, replies(order[i]), found(order[i]));
        PassContinues(start, mid, seen, order[i], exits, absent, now);
        if advanced.Crashed? {
          return Crashed;
        }
      }
      r := Ok(());
    }

    method ExpireOrAdvance(id: nat, now: int, q: Replies, found: Outcome<bool>) returns (r: Outcome<()>)
      requires Valid() && id in exits
      modifies this`exits, this`inputs, this`verified, this`absent, this`confirmed
      modifies this`claimed, this`sent, this`sentBumps, this`run
      ensures Valid() && old(run) <= run && old(absent) <= absent
      ensures OnlyChanged(old(exits), id, exits)
      ensures FairlyExpired(old(exits[id]), exits[id], now, id in absent)
      ensures !r.Crashed? ==> exits[id] == Visited(old(exits[id]), q, found, now)
    {
      hide After, Legal;
      var record := exits[id];
      if record.Terminal() {
        return Ok(());
      }
      if record.signed.None? && record.expiresAt <= now {
        var there :- TransferExists(id, found);
        if !there {
          r := UpdateCoopExit(id, record.(status := Expired));
          return;
        }
      }
      r := Advance(id, q);
    }

    method FindByKey(owner: nat, key: nat, transferId: nat) returns (id: Option<nat>)
      requires Valid()
      ensures id.Some? ==> id.value in exits && exits[id.value].owner == owner
      ensures id.Some? ==> (exits[id.value].key == key || exits[id.value].transferId == transferId)
      ensures id.None? ==> forall o :: o in exits && exits[o].owner == owner ==>
        exits[o].key != key && exits[o].transferId != transferId
    {
      for i := 0 to |order|
        invariant forall j :: 0 <= j < i ==> exits[order[j]].owner == owner ==>
          exits[order[j]].key != key && exits[order[j]].transferId != transferId
      {
        assert order[i] in order;
        var e := exits[order[i]];
        if e.owner == owner && (e.key == key || e.transferId == transferId) {
          return Some(order[i]);
        }
      }
      return None;
    }

    lemma HoldsKeys()
      requires Valid()
      ensures forall id :: id in exits ==> exits[id].key != EMPTY_KEY
    {
      hide After, Legal;
      EveryRunKeepsInv(run);
      forall id | id in exits ensures exits[id].key != EMPTY_KEY {
        assert Sound(Now(), id);
      }
    }

    /** One record per transfer. */
    lemma HoldsTransfers(id: nat)
      requires Valid() && id in exits
      ensures forall o :: o in exits && exits[o].transferId == exits[id].transferId ==> o == id
    {
      hide After, Legal;
      EveryRunKeepsInv(run);
    }

    /** The wallet says the transfer is on its way: continue its withdrawal. */
    method Complete(owner: nat, transferId: nat, requestId: Option<nat>, q: Replies) returns (r: Outcome<nat>)
      requires Valid()
      modifies this`exits, this`inputs, this`verified, this`confirmed, this`claimed, this`sent, this`sentBumps, this`run
      ensures Valid() && old(run) <= run
      ensures r.Ok? ==> r.value in exits && exits[r.value].owner == owner && exits[r.value].status != Expired
      ensures r.Ok? ==> exits[r.value].transferId == transferId
      ensures r.Ok? && requestId.Some? ==> r.value == requestId.value
      ensures r.Ok? ==> r.value in old(exits) && exits == old(exits)[r.value := Carried(old(exits)[r.value], q)]
      ensures r.Err? ==> forall o :: o in old(exits) && Completes(old(exits)[o], owner, transferId) ==>
        || (requestId.Some? && requestId.value != o) || old(exits)[o].status == Expired
        || Fails(old(exits)[o], q, o in bumps)
    {
      hide After, Legal;
      HoldsKeys();
      var found := FindByKey(owner, EMPTY_KEY, transferId);
      if found.None? {
        return Err(Invalid);
      }
      var id := found.value;
      HoldsTransfers(id);
      if requestId.Some? && requestId.value != id {
        return Err(Mismatch);
      }
      if exits[id].status == Expired {
        return Err(Rejected);
      }
      var _ :- Advance(id, q);
      r := Ok(id);
    }

    /** Reserve a coin for a new withdrawal, or answer a replayed request with
        its first record. `id`, `txid` and `connector` are the fresh identifiers
        of the record and of the transactions built for it. */
    method Request(owner: nat, transferId: nat, idempotency: Option<nat>, fingerprint: nat, leafIds: seq<nat>,
                   request: ExitAmounts.Request, quote: Outcome<Quote>, requested: Outcome<seq<ExitLeaf>>,
                   feeLeaves: Outcome<seq<ExitLeaf>>, unspent: Outcome<seq<Coin>>,
                   dust: u64, now: int, id: nat, txid: nat, connector: nat)
      returns (r: Outcome<nat>)
      requires Valid()
      requires requested.Ok? ==> Ids(requested.value) == leafIds
      requires feeLeaves.Ok? ==> Ids(feeLeaves.value) == request.feeLeafIds
      modifies this`exits, this`order, this`inputs, this`run
      ensures Valid() && old(run) <= run
      ensures r.Ok? ==> r.value in exits && exits[r.value].owner == owner && exits[r.value].fingerprint == fingerprint
      ensures r.Ok? ==> exits[r.value].key == KeyOf(idempotency, transferId) || exits[r.value].transferId == transferId
      ensures r.Ok? && r.value in old(exits) ==> exits == old(exits) && inputs == old(inputs)
      ensures r.Ok? && r.value !in old(exits) ==> r.value == id && exits == old(exits)[id := exits[id]]
      ensures r.Ok? && r.value !in old(exits) ==> NewRecord(exits[id], unspent, old(inputs), dust)
      ensures r.Ok? && r.value !in old(exits) ==> AsQuoted(exits[id], quote, request, requested, feeLeaves, now)
      ensures r.Ok? && r.value !in old(exits) ==>
        Named(exits[id], owner, transferId, KeyOf(idempotency, transferId), fingerprint, txid, connector)
      ensures NewRequest(old(Now()), owner, KeyOf(idempotency, transferId), transferId, leafIds, unspent, id, txid) ==>
        Covered(old(inputs), request, quote, requested, feeLeaves, unspent, dust, now) ==> !r.Err?
      ensures r.Err? ==> exits == old(exits)
      ensures ValidIds(leafIds) && transferId != EMPTY_KEY
              && (exists o :: Repeats(old(exits), o, owner, KeyOf(idempotency, transferId), transferId)) ==>
        exists o :: Repeats(old(exits), o, owner, KeyOf(idempotency, transferId), transferId)
          && r == if old(exits)[o].fingerprint == fingerprint then Ok(o) else Err(Mismatch)
    {
      hide After, Legal, AsQuoted, Named, Covered;
      if !ValidIds(leafIds) || transferId == EMPTY_KEY {
        return Err(Invalid);
      }
      var key := KeyOf(idempotency, transferId);
      var known := FindByKey(owner, key, transferId);
      assert known.None? ==> forall o :: !Repeats(exits, o, owner, key, transferId);
      if known.Some? {
        assert Repeats(exits, known.value, owner, key, transferId);
        return if exits[known.value].fingerprint == fingerprint then Ok(known.value) else Err(Mismatch);
      }
      if exists o :: o in exits && exits[o].owner == owner && !exits[o].Terminal() {
        return Err(Pending);
      }
      var e :- PlanExit(owner, transferId, key, fingerprint, request, quote, requested, feeLeaves, unspent,
        inputs, dust, now, txid, connector);
      var _ :- InsertCoopExit(id, e);
      r := Ok(id);
    }

    /** The record of a new withdrawal: the quoted fees, the checked leaves, the
        smallest free coin that covers them, and its outputs. */
    static method PlanExit(owner: nat, transferId: nat, key: nat, fingerprint: nat, request: ExitAmounts.Request,
                           quote: Outcome<Quote>, requested: Outcome<seq<ExitLeaf>>,
                           feeLeaves: Outcome<seq<ExitLeaf>>, unspent: Outcome<seq<Coin>>,
                           inputs: map<Outpoint, nat>, dust: u64, now: int, txid: nat, connector: nat)
      returns (r: Outcome<Exit>)
      requires requested.Ok? ==> ValidIds(Ids(requested.value))
      requires feeLeaves.Ok? ==> Ids(feeLeaves.value) == request.feeLeafIds
      ensures r.Ok? ==> NewRecord(r.value, unspent, inputs, dust)
      ensures r.Ok? ==> AsQuoted(r.value, quote, request, requested, feeLeaves, now)
      ensures r.Ok? ==> Named(r.value, owner, transferId, key, fingerprint, txid, connector)
      ensures Covered(inputs, request, quote, requested, feeLeaves, unspent, dust, now) ==> r.Ok?
    {
      var q :- quote;
      if q.expiresAt <= now || !q.addressMatches {
        return Err(Invalid);
      }
      var wanted :- requested;
      var payout', leaves := WithdrawalAmount(request, q.fees, wanted, feeLeaves);
      var payout :- payout';
      if payout < dust {
        return Err(Invalid);
      }
      assert |leaves| <= MAX_LEAVES by { assert |Ids(wanted)| == |wanted| && |Ids(leaves)| == |leaves|; }
      var needed := Needed(payout, q.fees.minerFee, |leaves|);
      if needed.None? {
        return Err(Invalid);
      }
      var coins :- unspent;
      var coin := SelectCoin(coins, inputs.Keys, needed.value);
      if coin.None? {
        return Err(Liquidity);
      }
      var outputs, connectors := BuildExit(coin.value, payout, q.fees.minerFee, |leaves|);
      r := Ok(Exit(owner, transferId, key, fingerprint, leaves, q.fees, coin.value, outputs,
                   txid, connector, now + QUOTE_SECONDS, None, Initiated));
    }

    /** Raise the package fee once, by spending only the SSP change. A replay
        must ask for the same rate, resends the same bytes and reports the same fee. */
    method BumpFee(id: nat, rate: u64, maxFee: u64, parentSize: nat, childSize: nat, dust: u64,
                   changeUnspent: Outcome<bool>, confirmations: Outcome<int>, signature: Outcome<nat>,
                   bumped: Outcome<()>)
      returns (r: Outcome<u64>)
      requires Valid() && parentSize + childSize + WITNESS_BOUND <= U64_MAX
      modifies this`bumps, this`confirmed, this`sentBumps, this`run
      ensures Valid() && old(run) <= run
      ensures r.Ok? ==> id in bumps && id in exits && bumps[id].rate == rate && r.value <= maxFee
      ensures r.Ok? ==> bumps[id].payout + r.value == exits[id].outputs.change
      ensures r.Ok? ==> (id, bumps[id].raw) in sentBumps && exits[id].status == Broadcasted
      ensures r.Ok? ==> run[|run| - 1] == BroadcastBump(id) && confirmations == Ok(0) && bumped.Ok?
      ensures r.Ok? && id !in old(bumps) ==> changeUnspent == Ok(true)
      ensures r.Ok? ==> Bumpable(exits[id], rate, maxFee, confirmations)
      ensures id in exits && Bumpable(exits[id], rate, maxFee, confirmations) && bumped.Ok? && id in old(bumps) ==>
        old(bumps)[id].rate == rate && 0 <= exits[id].outputs.change - old(bumps)[id].payout <= maxFee ==> r.Ok?
      ensures id in exits && Bumpable(exits[id], rate, maxFee, confirmations) && bumped.Ok? && id !in old(bumps) ==>
        changeUnspent == Ok(true) && signature.Ok? && Affords(exits[id], rate, maxFee, parentSize, childSize, dust) ==>
        !r.Err?
      ensures id in old(bumps) ==> bumps == old(bumps)
      ensures r.Ok? && id !in old(bumps) ==>
        && FeeSuffices(parentSize, exits[id].fees.minerFee, childSize, rate, r.value)
        && bumps[id].payout >= dust
        && forall f: nat :: FeeSuffices(parentSize, exits[id].fees.minerFee, childSize, rate, f) ==> r.value <= f
    {
      hide After, Legal;
      if !(1 <= rate <= 10_000) || maxFee == 0 || id !in exits || exits[id].status != Broadcasted {
        return Err(Invalid);
      }
      if exits[id].signed.None? {
        return Err(Invalid);
      }
      NoteConfirmations(id, confirmations);
      var seen :- confirmations;
      if seen != 0 {
        return Err(Rejected);
      }
      var change := exits[id].outputs.change;
      if id in bumps {
        if bumps[id].rate != rate {
          return Err(Mismatch);
        }
        var fee := CheckedSub(change, bumps[id].payout);
        if fee.None? || fee.value > maxFee {
          return Err(Invalid);
        }
        SendBump(id);
        var _ :- bumped;
        return Ok(fee.value);
      }
      var available :- changeUnspent;
      if !available {
        return Err(Rejected);
      }
      var child := CpfpTransaction(parentSize, exits[id].fees.minerFee, childSize, rate, maxFee, change, dust);
      var parts :- child;
      var raw :- signature;
      var _ :- StoreFeeBump(id, FeeBump(raw, rate, parts.0));
      SendBump(id);
      var _ :- bumped;
      r := Ok(parts.1);
    }

    method StoreFeeBump(id: nat, bump: FeeBump) returns (r: Outcome<()>)
      requires Valid() && id in exits && id !in bumps && exits[id].status == Broadcasted
      requires bump.payout <= exits[id].outputs.change
      modifies this`bumps, this`run
      ensures Valid() && old(run) <= run
      ensures if r.Ok? then bumps == old(bumps)[id := bump] else r.Crashed?
    {
      var dies: bool := *;
      var committed: bool := *;
      if dies && !committed {
        return Crashed;
      }
      ghost var before := Now();
      bumps := bumps[id := bump];
      Did(StoreBump(id, bump), before);
      r := if dies then Crashed else Ok(());
    }
  }

  /** A broadcast withdrawal without a confirmation may be bumped, within limits. */
  predicate Bumpable(e: Exit, rate: u64, maxFee: u64, confirmations: Outcome<int>) {
    && 1 <= rate <= 10_000 && maxFee > 0 && e.status == Broadcasted && e.signed.Some? && confirmations == Ok(0)
  }

  /** Some fee within the caller's limit lifts the package and leaves no dust. */
  ghost predicate Affords(e: Exit, rate: u64, maxFee: u64, parentSize: nat, childSize: nat, dust: u64) {
    && rate * (parentSize + (childSize + WITNESS_BOUND)) <= U64_MAX
    && exists f: nat ::
         FeeSuffices(parentSize, e.fees.minerFee, childSize, rate, f) && f <= maxFee && f + dust <= e.outputs.change
  }

  const QUOTE_SECONDS: int := 300

  /** Requests without a key of their own are keyed by their transfer. */
  function KeyOf(idempotency: Option<nat>, transferId: nat): nat {
    if idempotency.Some? && idempotency.value != EMPTY_KEY then idempotency.value else transferId
  }

  /** Nothing stored stands in the way of a new withdrawal. */
  predicate NewRequest(s: State, owner: nat, key: nat, transferId: nat, leafIds: seq<nat>,
                       unspent: Outcome<seq<Coin>>, id: nat, txid: nat)
  {
    && ValidIds(leafIds) && transferId != EMPTY_KEY
    && (unspent.Ok? ==> forall c :: c in unspent.value ==> c.outpoint.txid != txid)
    && id !in s.exits && (forall p :: p in s.inputs ==> p.txid != txid)
    && forall o :: o in s.exits ==>
         && s.exits[o].transferId != transferId
         && (s.exits[o].owner == owner ==> s.exits[o].key != key && s.exits[o].Terminal())
  }

  /** A record of the owner for this key or this transfer. */
  predicate Repeats(exits: map<nat, Exit>, o: nat, owner: nat, key: nat, transferId: nat) {
    o in exits && exits[o].owner == owner && (exits[o].key == key || exits[o].transferId == transferId)
  }

  /** The record carries the request's identity and its own transactions. */
  predicate Named(e: Exit, owner: nat, transferId: nat, key: nat, fingerprint: nat, txid: nat, connector: nat) {
    && e.owner == owner && e.transferId == transferId && e.key == key && e.fingerprint == fingerprint
    && e.txid == txid && e.connector == connector
  }

  function Payout(request: ExitAmounts.Request, fees: Fees, requested: seq<ExitLeaf>): int {
    Value(requested) - (if request.withdrawAll then fees.userFee + fees.minerFee else 0)
  }

  predicate CoinCovers(c: Coin, reserved: map<Outpoint, nat>, payout: int, minerFee: nat, leaves: nat) {
    c.outpoint !in reserved && c.value >= payout + minerFee + 330 * (leaves + 1) + 330
  }

  /** The quote holds, the leaves pay it, and some free coin covers the payout, the
      Bitcoin fee, the connector outputs and a change output. */
  ghost predicate Covered(reserved: map<Outpoint, nat>, request: ExitAmounts.Request, quote: Outcome<Quote>,
                          requested: Outcome<seq<ExitLeaf>>, feeLeaves: Outcome<seq<ExitLeaf>>,
                          unspent: Outcome<seq<Coin>>, dust: u64, now: int)
  {
    && quote.Ok? && now < quote.value.expiresAt && quote.value.addressMatches && requested.Ok? && unspent.Ok?
    && var fees := quote.value.fees;
    && (if request.withdrawAll then AllPays(request, fees, requested.value)
        else SharesPay(request, fees, requested.value, feeLeaves))
    && Payout(request, fees, requested.value) >= dust
    && var n := |requested.value| + if request.withdrawAll then 0 else |feeLeaves.value|;
    && exists c :: c in unspent.value
         && CoinCovers(c, reserved, Payout(request, fees, requested.value), fees.minerFee, n)
  }

  /** A new record is the unexpired quote for the requested address: its two fees,
      the requested leaves and, unless everything is withdrawn, the fee leaves
      after them. It lives for five minutes. */
  predicate AsQuoted(e: Exit, quote: Outcome<Quote>, request: ExitAmounts.Request, requested: Outcome<seq<ExitLeaf>>,
                     feeLeaves: Outcome<seq<ExitLeaf>>, now: int)
  {
    && quote.Ok? && quote.value.addressMatches && now < quote.value.expiresAt
    && e.fees.userFee == quote.value.fees.userFee && e.fees.minerFee == quote.value.fees.minerFee
    && requested.Ok? && (!request.withdrawAll ==> feeLeaves.Ok?)
    && e.leaves == (if request.withdrawAll then requested.value else requested.value + feeLeaves.value)
    && e.outputs.payout == Payout(request, e.fees, requested.value)
    && e.expiresAt == now + 300
  }

  /** A new record spends the smallest unreserved coin that is large enough. */
  ghost predicate NewRecord(e: Exit, unspent: Outcome<seq<Coin>>, reserved: map<Outpoint, nat>, dust: u64) {
    && unspent.Ok? && e.coin in unspent.value && e.coin.outpoint !in reserved
    && e.status == Initiated && e.signed.None? && e.outputs.payout >= dust && Conserved(e)
    && forall c :: c in unspent.value && c.outpoint !in reserved && CoinLess(c, e.coin) ==>
         c.value < e.outputs.payout + e.fees.minerFee + CONNECTOR_SATS * (|e.leaves| + 1) + CONNECTOR_SATS
  }
}
