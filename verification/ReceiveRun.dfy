/** Settlement of BOLT11 invoices as one run of commits and outside calls
    (src/ldk.rs, src/internal_payments.rs, src/db.rs): an external HTLC and a
    local payer race for one invoice, and at most one of them is paid out. */
module ReceiveRun {
  import opened Basics

  datatype Status = InvoiceCreated | HtlcReceived | HtlcFailed | TransferCreationFailed
                  | PreimageRecovered | PreimageRecoveryFailed | TransferCompleted

  /** The invoice as it was issued (lightning_receives). */
  datatype Invoice = Invoice(requestId: nat, owner: nat, receiver: nat, sats: u64, text: nat, expiresAt: int)

  /** The settlement of one invoice (receive_payments). */
  datatype Row = Row(status: Status, transfer: Option<nat>, preimage: Option<nat>,
                     claimable: Option<u64>, claimSubmitted: bool, payment: Option<nat>)
  {
    /** The operator's answer is durable. */
    predicate Checkpoint() {
      transfer.Some? && preimage.Some?
    }
  }

  /** What readers see of an invoice that has no row yet. */
  const NO_ROW := Row(InvoiceCreated, None, None, None, false, None)

  datatype SendStatus = SendPrepared | SendSettling | SendSucceeded | SendFailed

  /** A payment of a local invoice by another wallet of this SSP. */
  datatype Send = Send(owner: nat, funding: nat, hash: nat, text: nat, sats: u64, status: SendStatus)
  {
    predicate Terminal() {
      status == SendSucceeded || status == SendFailed
    }
  }

  /** One Spark transfer to a receiver, as the operators hold it. */
  datatype Payout = Payout(hash: nat, receiver: nat, sats: u64)

  datatype ClaimCall = ClaimCall(hash: nat, payment: nat, msat: nat, preimage: nat)

  /** Fixed by the world: the digest of a preimage, the transfer id the SSP uses
      for an invoice, and the amount and the invoice hash that LDK reports for a
      payment id. */
  datatype Env = Env(hashOf: nat -> nat, transferOf: nat -> nat, amountOf: nat -> u64, paymentHash: nat -> nat)

  /** `live` are the invoices whose issuing request is still being handled: it has
      inserted its rows and is about to write INVOICE_CREATED without the lock.
      `failing` is the HTLC that the holder of the receive lock has decided to
      fail; `failed` are the HTLCs it asked LDK to fail, `released` those that LDK
      confirmed, and `lost` those that LDK itself reported as failed. `collected`
      are the invoices whose claim LDK accepted. */
  datatype State = State(
    invoices: map<nat, Invoice>,
    rows: map<nat, Row>,
    internal: map<nat, nat>,
    sends: map<nat, Send>,
    live: set<nat>,
    payouts: map<nat, Payout>,
    claims: set<ClaimCall>,
    collected: set<nat>,
    failing: Option<nat>,
    failed: set<nat>,
    released: set<nat>,
    lost: set<nat>,
    verified: set<nat>,
    settled: map<nat, nat>)

  datatype Action =
    | Insert(h: nat, invoice: Invoice)
    | MarkIssued(h: nat)
    | DropRequest(h: nat)
    | Restart
    | Prepare(id: nat, send: Send)
    | FailSend(id: nat)
    | ReserveSend(id: nat)
    | VerifySend(id: nat)
    | CallSwap(h: nat, commits: bool)
    | CommitSwap(h: nat, preimage: nat)
    | Bind(h: nat, payment: nat)
    | Reject(payment: nat)
    | CallFail(payment: nat, ok: bool)
    | EndReject
    | FailExternal(h: nat, payment: nat)
    | CallClaim(h: nat, ok: bool)
    | MarkClaimed(h: nat)
    | SetStatus(h: nat, status: Status)
    | Finish(h: nat, payment: nat)
    | SettleSend(id: nat)
    | FinishSend(id: nat)

  const EMPTY := State(map[], map[], map[], map[], {}, map[], {}, {}, None, {}, {}, {}, {}, map[])

  function View(rows: map<nat, Row>, h: nat): Row {
    if h in rows then rows[h] else NO_ROW
  }

  predicate Terminal(status: Status) {
    status == TransferCompleted || status == HtlcFailed
  }

  // ---- Who may be paid ----

  /** An external HTLC of exactly the invoice amount is bound. */
  predicate HtlcBound(s: State, h: nat) {
    && h in s.invoices && h !in s.internal
    && View(s.rows, h).payment.Some? && View(s.rows, h).claimable.Some?
    && View(s.rows, h).claimable.value == 1000 * s.invoices[h].sats
  }

  /** A local payer owns the invoice and its funding of that amount was checked. */
  predicate SenderVerified(s: State, h: nat) {
    && h in s.invoices && h in s.internal && s.internal[h] in s.verified
    && s.internal[h] in s.sends && s.sends[s.internal[h]].sats == s.invoices[h].sats
  }

  /** The reservation's SQL condition: a fresh, unexpired, matching invoice. */
  predicate Reservable(s: State, id: nat, now: int) {
    && id in s.sends
    && var send := s.sends[id];
    && send.hash in s.invoices && s.invoices[send.hash].text == send.text
    && s.invoices[send.hash].sats == send.sats && s.invoices[send.hash].expiresAt > now
    && var v := View(s.rows, send.hash);
    && v.status == InvoiceCreated && v.claimable.None? && v.transfer.None?
  }

  predicate Owns(s: State, id: nat) {
    id in s.sends && s.sends[id].hash in s.internal && s.internal[s.sends[id].hash] == id
  }

  // ---- Steps ----

  predicate FitsInvoice(s: State, h: nat, i: Invoice) {
    h !in s.invoices && forall o :: o in s.invoices ==> s.invoices[o].requestId != i.requestId
  }

  /** Unique request, unique funding transfer, one send per payment hash. */
  predicate FitsSend(s: State, id: nat, send: Send) {
    && id !in s.sends
    && forall o :: o in s.sends ==> s.sends[o].funding != send.funding && s.sends[o].hash != send.hash
  }

  predicate MayPay(s: State, h: nat) {
    HtlcBound(s, h) || SenderVerified(s, h)
  }

  /** The HTLC is turned away at the door, whatever the invoice's state. */
  predicate Unwelcome(env: Env, s: State, payment: nat) {
    var h := env.paymentHash(payment);
    var v := View(s.rows, h);
    || h in s.internal || h !in s.invoices
    || (v.payment.Some? && v.payment != Some(payment)) || v.status == HtlcFailed
    || (v.status == TransferCompleted && v.payment != Some(payment))
  }

  /** An open invoice whose HTLC has the wrong amount or has no stored answer. */
  predicate Unfunded(s: State, h: nat) {
    && h in s.invoices && h !in s.internal && !Terminal(View(s.rows, h).status)
    && (!View(s.rows, h).Checkpoint() || !HtlcBound(s, h))
  }

  predicate MayReject(env: Env, s: State, payment: nat) {
    var h := env.paymentHash(payment);
    Unwelcome(env, s, payment) || (View(s.rows, h).payment == Some(payment) && Unfunded(s, h))
  }

  /** Rows that LDK's report of a failed payment may close. */
  predicate MayFail(s: State, h: nat, payment: nat) {
    && h in s.rows && (s.rows[h].payment == None || s.rows[h].payment == Some(payment))
    && s.rows[h].status != TransferCompleted && h !in s.internal
  }

  /** Taken under the receive lock, outside the failing of an HTLC. */
  predicate NeedsLock(a: Action) {
    !a.Insert? && !a.MarkIssued? && !a.DropRequest? && !a.Restart? && !a.Prepare? && !a.CallFail? && !a.EndReject?
  }

  predicate Enabled(env: Env, s: State, a: Action) {
    (NeedsLock(a) ==> s.failing.None?) && Allowed(env, s, a)
  }

  predicate Allowed(env: Env, s: State, a: Action) {
    match a {
      case Insert(h, i) => FitsInvoice(s, h, i)
      case MarkIssued(h) => h in s.invoices && h in s.live
      case DropRequest(h) => true
      case Restart => true
      case Prepare(id, send) => FitsSend(s, id, send) && send.status == SendPrepared
      case FailSend(id) => id in s.sends && !s.sends[id].Terminal() && !Owns(s, id)
      case ReserveSend(id) =>
        && id in s.sends && !s.sends[id].Terminal() && s.sends[id].hash !in s.internal
        && s.sends[id].hash in s.invoices && s.invoices[s.sends[id].hash].sats == s.sends[id].sats
        && s.invoices[s.sends[id].hash].text == s.sends[id].text
        && var v := View(s.rows, s.sends[id].hash);
        && v.status == InvoiceCreated && v.claimable.None? && v.transfer.None?
      case VerifySend(id) => Owns(s, id) && !s.sends[id].Terminal()
      case CallSwap(h, commits) =>
        !View(s.rows, h).Checkpoint() && !Terminal(View(s.rows, h).status) && MayPay(s, h)
      case CommitSwap(h, p) =>
        && !View(s.rows, h).Checkpoint() && !Terminal(View(s.rows, h).status) && MayPay(s, h)
        && env.transferOf(h) in s.payouts && s.payouts[env.transferOf(h)].hash == h && env.hashOf(p) == h
      case Bind(h, payment) =>
        && h in s.invoices && h !in s.internal && !Terminal(View(s.rows, h).status) && env.paymentHash(payment) == h
        && (View(s.rows, h).payment == None || View(s.rows, h).payment == Some(payment))
      case Reject(payment) => MayReject(env, s, payment)
      case CallFail(payment, ok) => s.failing == Some(payment)
      case EndReject => true
      case FailExternal(h, payment) => MayFail(s, h, payment) && env.paymentHash(payment) == h
      case CallClaim(h, ok) => HtlcBound(s, h) && View(s.rows, h).Checkpoint() && !Terminal(View(s.rows, h).status)
      case MarkClaimed(h) =>
        && HtlcBound(s, h) && View(s.rows, h).Checkpoint() && !Terminal(View(s.rows, h).status)
        && h in s.collected && (exists c :: c in s.claims && c.hash == h)
      case SetStatus(h, st) =>
        && Unfunded(s, h) && (st == HtlcFailed || st == TransferCreationFailed || st == PreimageRecoveryFailed)
        && (st == HtlcFailed && View(s.rows, h).payment.Some? ==> View(s.rows, h).payment.value in s.released)
      case Finish(h, payment) =>
        && h in s.invoices && h !in s.internal && View(s.rows, h).transfer.Some?
        && (View(s.rows, h).payment == None || View(s.rows, h).payment == Some(payment))
      case SettleSend(id) => Owns(s, id) && !s.sends[id].Terminal() && View(s.rows, s.sends[id].hash).Checkpoint()
      case FinishSend(id) => Owns(s, id) && !s.sends[id].Terminal() && id in s.settled
    }
  }

  /** The settlement row that an action writes, and what it writes there. */
  function Written(s: State, a: Action): Option<nat> {
    match a {
      case MarkIssued(h) => Some(h)
      case CommitSwap(h, p) => Some(h)
      case Bind(h, payment) => Some(h)
      case MarkClaimed(h) => Some(h)
      case SetStatus(h, st) => Some(h)
      case FailExternal(h, payment) => Some(h)
      case Finish(h, payment) => Some(h)
      case FinishSend(id) => if id in s.sends then Some(s.sends[id].hash) else None
      case _ => None
    }
  }

  function NextRow(env: Env, a: Action, h: nat, v: Row): Row {
    match a {
      case MarkIssued(_) => v.(status := InvoiceCreated)
      case CommitSwap(_, p) => v.(status := PreimageRecovered, transfer := Some(env.transferOf(h)), preimage := Some(p))
      case Bind(_, payment) => Bound(v, payment, env.amountOf(payment))
      case MarkClaimed(_) => v.(status := PreimageRecovered, claimSubmitted := true)
      case SetStatus(_, st) => v.(status := st)
      case FailExternal(_, payment) => v.(status := HtlcFailed)
      case Finish(_, payment) => v.(status := TransferCompleted)
      case FinishSend(_) => v.(status := TransferCompleted)
      case _ => v
    }
  }

  function NextRows(env: Env, s: State, a: Action): map<nat, Row> {
    match Written(s, a)
    case Some(h) => s.rows[h := NextRow(env, a, h, View(s.rows, h))]
    case None => s.rows
  }

  function WithSend(sends: map<nat, Send>, id: nat, status: SendStatus): map<nat, Send>
    requires id in sends
  {
    sends[id := sends[id].(status := status)]
  }

  function NextSends(env: Env, s: State, a: Action): map<nat, Send>
    requires Enabled(env, s, a)
  {
    match a {
      case Prepare(id, send) => s.sends[id := send]
      case FailSend(id) => WithSend(s.sends, id, SendFailed)
      case ReserveSend(id) => WithSend(s.sends, id, SendSettling)
      case FinishSend(id) => WithSend(s.sends, id, SendSucceeded)
      case _ => s.sends
    }
  }

  /** The requests being handled: a request ends with its write, with its
      connection or with the process. */
  function NextLive(s: State, a: Action): set<nat> {
    if a.Insert? then s.live + {a.h}
    else if a.MarkIssued? || a.DropRequest? then s.live - {a.h}
    else if a.Restart? then {}
    else s.live
  }

  function NextInternal(s: State, a: Action): map<nat, nat>
    requires a.ReserveSend? ==> a.id in s.sends
  {
    if a.ReserveSend? then s.internal[s.sends[a.id].hash := a.id] else s.internal
  }

  function NextFailing(s: State, a: Action): Option<nat> {
    if a.Reject? then Some(a.payment) else if a.EndReject? || a.Restart? then None else s.failing
  }

  function NextPayouts(env: Env, s: State, a: Action): map<nat, Payout>
    requires a.CallSwap? ==> a.h in s.invoices
  {
    if a.CallSwap? then Committed(env, s, a.h, a.commits) else s.payouts
  }

  function NextClaims(env: Env, s: State, a: Action): set<ClaimCall>
    requires Enabled(env, s, a)
  {
    if a.CallClaim? then s.claims + {ClaimOf(View(s.rows, a.h), a.h)} else s.claims
  }

  function NextSettled(env: Env, s: State, a: Action): map<nat, nat>
    requires Enabled(env, s, a)
  {
    if a.SettleSend? then s.settled[a.id := View(s.rows, s.sends[a.id].hash).preimage.value] else s.settled
  }

  function Apply(env: Env, s: State, a: Action): State
    requires Enabled(env, s, a)
  {
    State(
      if a.Insert? then s.invoices[a.h := a.invoice] else s.invoices,
      NextRows(env, s, a), NextInternal(s, a), NextSends(env, s, a), NextLive(s, a),
      NextPayouts(env, s, a), NextClaims(env, s, a),
      if a.CallClaim? && a.ok then s.collected + {a.h} else s.collected,
      NextFailing(s, a),
      if a.CallFail? then s.failed + {a.payment} else s.failed,
      if a.CallFail? && a.ok then s.released + {a.payment} else s.released,
      if a.FailExternal? then s.lost + {a.payment} else s.lost,
      if a.VerifySend? then s.verified + {a.id} else s.verified,
      NextSettled(env, s, a))
  }

  /** The operators commit one transfer per transfer id, whoever asks again. */
  function Committed(env: Env, s: State, h: nat, commits: bool): map<nat, Payout>
    requires h in s.invoices
  {
    if commits && env.transferOf(h) !in s.payouts
    then s.payouts[env.transferOf(h) := Payout(h, s.invoices[h].receiver, s.invoices[h].sats)]
    else s.payouts
  }

  /** The upsert that binds an HTLC; a stored transfer keeps its status. */
  function Bound(row: Row, payment: nat, msat: u64): Row {
    row.(status := if Terminal(row.status) || row.transfer.Some? then row.status else HtlcReceived,
         claimable := Some(msat), payment := Some(payment))
  }

  function ClaimOf(row: Row, h: nat): ClaimCall
    requires row.Checkpoint() && row.payment.Some? && row.claimable.Some?
  {
    ClaimCall(h, row.payment.value, row.claimable.value, row.preimage.value)
  }

  // ---- What holds in every state ----

  ghost predicate RowSound(env: Env, s: State, h: nat) {
    var v := View(s.rows, h);
    && (h in s.rows ==> h in s.invoices)
    && (v.payment.Some? <==> v.claimable.Some?)
    && (v.payment.Some? ==> v.claimable.value == env.amountOf(v.payment.value) && env.paymentHash(v.payment.value) == h)
    && (v.transfer.Some? <==> v.preimage.Some?)
    && (v.Checkpoint() ==>
          && v.transfer.value == env.transferOf(h) && env.hashOf(v.preimage.value) == h
          && v.transfer.value in s.payouts && s.payouts[v.transfer.value].hash == h)
    && (v.claimSubmitted ==> v.Checkpoint() && h in s.collected && exists c :: c in s.claims && c.hash == h)
    && (v.status == HtlcFailed && v.payment.Some? ==> v.payment.value in s.released || v.payment.value in s.lost)
    && (v.status == TransferCompleted ==> v.Checkpoint())
    && (v.status == HtlcFailed && v.Checkpoint() && v.payment.Some? ==> v.payment.value in s.lost)
  }

  /** A reserved invoice belongs to one payer, and no HTLC is ever bound to it. */
  ghost predicate OwnerSound(s: State, h: nat) {
    h in s.internal ==>
      && h in s.invoices && View(s.rows, h).payment.None?
      && (View(s.rows, h).Checkpoint() || View(s.rows, h).status == InvoiceCreated)
      && s.internal[h] in s.sends && s.sends[s.internal[h]].hash == h
  }

  /** The HTLC that is being failed holds no paid-out invoice, unless LDK gave it
      up first. */
  ghost predicate Releasable(env: Env, s: State, payment: nat) {
    var h := env.paymentHash(payment);
    h in s.internal || View(s.rows, h).payment != Some(payment) || !View(s.rows, h).Checkpoint() || payment in s.lost
  }

  ghost predicate OneSendPerInvoice(s: State) {
    forall a, b :: a in s.sends && b in s.sends && a != b ==> s.sends[a].hash != s.sends[b].hash
  }

  /** A payout pays the invoice's receiver its amount, under the invoice's own
      transfer id, because an exact HTLC was bound or a sender was verified. */
  ghost predicate PayoutSound(env: Env, s: State, t: nat)
    requires t in s.payouts
  {
    var p := s.payouts[t];
    && t == env.transferOf(p.hash) && p.hash in s.invoices
    && p.receiver == s.invoices[p.hash].receiver && p.sats == s.invoices[p.hash].sats
    && (MayPay(s, p.hash))
  }

  /** A claim collects the bound HTLC with the stored preimage. */
  ghost predicate ClaimSound(s: State, c: ClaimCall) {
    && HtlcBound(s, c.hash) && View(s.rows, c.hash).Checkpoint()
    && c == ClaimOf(View(s.rows, c.hash), c.hash)
  }

  ghost predicate SendSound(env: Env, s: State, id: nat)
    requires id in s.sends
  {
    var send := s.sends[id];
    && (send.status == SendFailed ==> !Owns(s, id) && id !in s.settled)
    && (send.status == SendSucceeded ==> Owns(s, id) && id in s.settled)
    && (Owns(s, id) ==> send.hash in s.invoices && s.invoices[send.hash].sats == send.sats)
    && (id in s.settled ==>
          && Owns(s, id) && View(s.rows, send.hash).preimage == Some(s.settled[id])
          && env.hashOf(s.settled[id]) == send.hash)
  }

  ghost predicate Inv(env: Env, s: State) {
    && (forall h: nat :: RowSound(env, s, h) && OwnerSound(s, h))
    && (forall t :: t in s.payouts ==> PayoutSound(env, s, t))
    && (forall c :: c in s.claims ==> ClaimSound(s, c))
    && (forall id :: id in s.sends ==> SendSound(env, s, id))
    && (forall id :: id in s.settled ==> id in s.sends)
    && OneSendPerInvoice(s)
    && (s.failing.Some? ==> Releasable(env, s, s.failing.value))
  }

  // ---- How states follow each other ----

  /** How one settlement changes: an HTLC is bound once, the operator's answer is
      stored once, and a submitted claim stays submitted. */
  predicate RowEvolves(v: Row, w: Row) {
    && (v.payment.Some? ==> w.payment == v.payment && w.claimable == v.claimable)
    && (v.Checkpoint() ==> w.transfer == v.transfer && w.preimage == v.preimage)
    && (v.claimSubmitted ==> w.claimSubmitted)
  }

  ghost predicate TablesEvolve(s: State, t: State) {
    && (forall h :: h in s.invoices ==> h in t.invoices && t.invoices[h] == s.invoices[h])
    && (forall h :: h in s.internal ==> h in t.internal && t.internal[h] == s.internal[h])
    && (forall id :: id in s.sends ==> id in t.sends && SendEvolves(s.sends[id], t.sends[id]))
  }

  ghost predicate RowsEvolve(s: State, t: State) {
    forall h: nat :: RowEvolves(View(s.rows, h), View(t.rows, h))
  }

  ghost predicate EffectsEvolve(s: State, t: State) {
    && (forall p :: p in s.payouts ==> p in t.payouts && t.payouts[p] == s.payouts[p])
    && (forall id :: id in s.settled ==> id in t.settled && t.settled[id] == s.settled[id])
    && s.claims <= t.claims && s.verified <= t.verified && s.lost <= t.lost
    && s.released <= t.released && s.collected <= t.collected
  }

  /** A request that is over never runs again. */
  ghost predicate RequestsEnd(s: State, t: State) {
    forall h :: h in s.invoices && h !in s.live ==> h !in t.live
  }

  ghost predicate Evolves(s: State, t: State) {
    TablesEvolve(s, t) && RowsEvolve(s, t) && EffectsEvolve(s, t) && RequestsEnd(s, t)
  }

  predicate SendEvolves(a: Send, b: Send) {
    b == a.(status := b.status) && (a.Terminal() ==> b == a)
  }

  lemma WriteRowEvolves(env: Env, s: State, a: Action)
    requires Enabled(env, s, a) && Written(s, a).Some?
    requires RowSound(env, s, Written(s, a).value)
    ensures var h := Written(s, a).value; RowEvolves(View(s.rows, h), NextRow(env, a, h, View(s.rows, h)))
  {
    hide Owns, SenderVerified, FitsInvoice, FitsSend;
  }

  lemma StepSendsEvolve(env: Env, s: State, a: Action, id: nat)
    requires Enabled(env, s, a) && id in s.sends
    ensures id in Apply(env, s, a).sends && SendEvolves(s.sends[id], Apply(env, s, a).sends[id])
  {
    hide SenderVerified, HtlcBound, MayPay, MayReject, MayFail, Unfunded, FitsInvoice, Owns, View, NextRows;
  }

  lemma StepTablesEvolve(env: Env, s: State, a: Action)
    requires Enabled(env, s, a)
    ensures TablesEvolve(s, Apply(env, s, a))
  {
    hide SenderVerified, HtlcBound, MayPay, MayReject, MayFail, Unfunded, FitsSend, SendEvolves, Owns;
    hide Committed, ClaimOf, View, NextRows, NextSends;
    forall id | id in s.sends
      ensures id in Apply(env, s, a).sends && SendEvolves(s.sends[id], Apply(env, s, a).sends[id])
    {
      StepSendsEvolve(env, s, a, id);
    }
  }

  lemma StepEffectsEvolve(env: Env, s: State, a: Action)
    requires Inv(env, s) && Enabled(env, s, a)
    ensures EffectsEvolve(s, Apply(env, s, a))
  {
    hide Enabled, RowSound, OwnerSound, PayoutSound, ClaimSound, SendSound, ClaimOf, View, NextRows, NextSends;
    if a.SettleSend? && a.id in s.settled {
      SettledOnce(env, s, a.id);
    }
  }

  lemma StepEndsRequests(env: Env, s: State, a: Action)
    requires Enabled(env, s, a)
    ensures RequestsEnd(s, Apply(env, s, a))
  {
    hide SenderVerified, HtlcBound, MayPay, MayReject, MayFail, Unfunded, FitsSend, Owns, Reservable;
    hide Committed, ClaimOf, View, NextRows, NextSends;
  }

  lemma StepRowsEvolve(env: Env, s: State, a: Action)
    requires Inv(env, s) && Enabled(env, s, a)
    ensures RowsEvolve(s, Apply(env, s, a))
  {
    hide RowSound, Enabled, NextRow, NextSends;
    if Written(s, a).Some? {
      assert RowSound(env, s, Written(s, a).value);
      WriteRowEvolves(env, s, a);
    }
  }

  lemma StepEvolves(env: Env, s: State, a: Action)
    requires Inv(env, s) && Enabled(env, s, a)
    ensures Evolves(s, Apply(env, s, a))
  {
    hide TablesEvolve, EffectsEvolve, RowsEvolve, RequestsEnd, Inv, Apply, Enabled;
    StepTablesEvolve(env, s, a);
    StepEndsRequests(env, s, a);
    StepEffectsEvolve(env, s, a);
    StepRowsEvolve(env, s, a);
  }

  lemma SettledOnce(env: Env, s: State, id: nat)
    requires Inv(env, s) && id in s.settled
    ensures id in s.sends && View(s.rows, s.sends[id].hash).preimage == Some(s.settled[id])
  {
    assert SendSound(env, s, id);
  }

  /** What was settled by evidence that a later state still has stays sound. */
  lemma PayoutStaysSound(env: Env, s: State, t: State, p: nat)
    requires p in s.payouts && PayoutSound(env, s, p) && Evolves(s, t)
    requires forall h: nat :: RowSound(env, t, h) && OwnerSound(t, h)
    ensures PayoutSound(env, t, p)
  {
    var h := s.payouts[p].hash;
    assert RowEvolves(View(s.rows, h), View(t.rows, h));
    assert RowSound(env, t, h) && OwnerSound(t, h);
    if SenderVerified(s, h) {
      assert SendEvolves(s.sends[s.internal[h]], t.sends[s.internal[h]]);
    }
  }

  lemma ClaimStaysSound(env: Env, s: State, t: State, c: ClaimCall)
    requires ClaimSound(s, c) && Evolves(s, t)
    requires forall h: nat :: RowSound(env, t, h) && OwnerSound(t, h)
    ensures ClaimSound(t, c)
  {
    assert RowEvolves(View(s.rows, c.hash), View(t.rows, c.hash));
    assert RowSound(env, t, c.hash) && OwnerSound(t, c.hash);
  }

  lemma RowStaysSound(env: Env, s: State, t: State, h: nat)
    requires RowSound(env, s, h) && Evolves(s, t)
    requires View(t.rows, h) == View(s.rows, h) && (h in t.rows <==> h in s.rows)
    ensures RowSound(env, t, h)
  {
    hide RowsEvolve, View;
  }

  lemma WriteKeepsRow(env: Env, s: State, a: Action, h: nat)
    requires Inv(env, s) && Enabled(env, s, a) && Written(s, a) == Some(h)
    requires Evolves(s, Apply(env, s, a))
    ensures RowSound(env, Apply(env, s, a), h)
  {
    hide PayoutSound, ClaimSound, SendSound, OwnerSound, FitsInvoice, FitsSend;
    hide NextSends, Committed, MayReject, OneSendPerInvoice, Releasable;
    assert RowSound(env, s, h);
    if a.FinishSend? {
      SettledHasCheckpoint(env, s, a.id);
    } else if a.SetStatus? {
      UnfundedIsUnpaid(env, s, h);
    }
  }

  /** An open invoice that was paid out has an exact HTLC or a local payer. */
  lemma UnfundedIsUnpaid(env: Env, s: State, h: nat)
    requires Inv(env, s) && Unfunded(s, h)
    ensures !View(s.rows, h).Checkpoint()
  {
    hide SendSound, ClaimSound, OneSendPerInvoice, Releasable, OwnerSound;
    assert RowSound(env, s, h);
    assert View(s.rows, h).Checkpoint() ==> PayoutSound(env, s, View(s.rows, h).transfer.value);
  }

  lemma StepKeepsRow(env: Env, s: State, a: Action, h: nat)
    requires Inv(env, s) && Enabled(env, s, a)
    ensures RowSound(env, Apply(env, s, a), h)
  {
    hide PayoutSound, ClaimSound, SendSound, OwnerSound, RowSound, Enabled, NextRow, NextSends, Written;
    StepEvolves(env, s, a);
    if Written(s, a) == Some(h) {
      WriteKeepsRow(env, s, a, h);
    } else {
      assert RowSound(env, s, h);
      RowStaysSound(env, s, Apply(env, s, a), h);
    }
  }

  lemma ReservedStaysUnbound(env: Env, s: State, a: Action, h: nat)
    requires Inv(env, s) && Enabled(env, s, a) && h in s.internal && OwnerSound(s, h)
    ensures View(Apply(env, s, a).rows, h).payment.None?
    ensures View(Apply(env, s, a).rows, h).Checkpoint() || View(Apply(env, s, a).rows, h).status == InvoiceCreated
  {
    hide HtlcBound, SenderVerified, FitsInvoice, FitsSend, NextSends, Reservable, MayPay, MayReject;
    hide RowSound, PayoutSound, ClaimSound, SendSound, OneSendPerInvoice, Releasable;
    if a.FinishSend? {
      SettledHasCheckpoint(env, s, a.id);
    }
  }

  lemma NewOwner(env: Env, s: State, a: Action, h: nat)
    requires Enabled(env, s, a) && h !in s.internal && h in Apply(env, s, a).internal && RowSound(env, s, h)
    ensures OwnerSound(Apply(env, s, a), h)
  {
    hide HtlcBound, SenderVerified, MayPay, MayReject, MayFail, Unfunded, FitsInvoice, FitsSend, Committed, ClaimOf;
  }

  lemma StepKeepsOwner(env: Env, s: State, a: Action, h: nat)
    requires Inv(env, s) && Enabled(env, s, a)
    ensures OwnerSound(Apply(env, s, a), h)
  {
    hide Apply, Enabled, PayoutSound, ClaimSound, SendSound;
    assert OwnerSound(s, h) && RowSound(env, s, h);
    if h in s.internal {
      StepTablesEvolve(env, s, a);
      ReservedStaysUnbound(env, s, a, h);
    } else if h in Apply(env, s, a).internal {
      NewOwner(env, s, a, h);
    }
  }

  lemma SettledHasCheckpoint(env: Env, s: State, id: nat)
    requires Inv(env, s) && id in s.settled
    ensures id in s.sends && s.sends[id].hash in s.invoices && View(s.rows, s.sends[id].hash).Checkpoint()
  {
    assert SendSound(env, s, id) && RowSound(env, s, s.sends[id].hash);
  }

  lemma SendStaysSound(env: Env, s: State, t: State, id: nat)
    requires id in s.sends && SendSound(env, s, id) && RowSound(env, s, s.sends[id].hash) && Evolves(s, t)
    requires id in t.sends && t.sends[id] == s.sends[id]
    requires (Owns(t, id) <==> Owns(s, id)) && (id in t.settled ==> id in s.settled)
    ensures SendSound(env, t, id)
  {
    assert RowEvolves(View(s.rows, s.sends[id].hash), View(t.rows, s.sends[id].hash));
    hide RowsEvolve, View;
  }

  /** The payer that a step concerns. */
  function Payer(a: Action): Option<nat> {
    match a {
      case Prepare(id, send) => Some(id)
      case FailSend(id) => Some(id)
      case ReserveSend(id) => Some(id)
      case SettleSend(id) => Some(id)
      case FinishSend(id) => Some(id)
      case _ => None
    }
  }

  lemma OtherPayersUntouched(env: Env, s: State, a: Action, id: nat)
    requires Enabled(env, s, a) && Payer(a) != Some(id) && id in Apply(env, s, a).sends
    ensures id in s.sends && Apply(env, s, a).sends[id] == s.sends[id]
    ensures Owns(Apply(env, s, a), id) <==> Owns(s, id)
    ensures id in Apply(env, s, a).settled ==> id in s.settled
  {
    hide Apply, Enabled, Owns, Payer;
    OtherSendsUntouched(env, s, a, id);
    OtherOwnersUntouched(env, s, a, id);
  }

  lemma OtherSendsUntouched(env: Env, s: State, a: Action, id: nat)
    requires Enabled(env, s, a) && Payer(a) != Some(id) && id in Apply(env, s, a).sends
    ensures id in s.sends && Apply(env, s, a).sends[id] == s.sends[id]
  {
    hide Enabled, NextRows;
  }

  lemma OtherOwnersUntouched(env: Env, s: State, a: Action, id: nat)
    requires Enabled(env, s, a) && Payer(a) != Some(id) && id in s.sends
    requires id in Apply(env, s, a).sends && Apply(env, s, a).sends[id] == s.sends[id]
    ensures Owns(Apply(env, s, a), id) <==> Owns(s, id)
    ensures id in Apply(env, s, a).settled ==> id in s.settled
  {
    hide HtlcBound, SenderVerified, MayPay, MayReject, MayFail, Unfunded, NextRows, NextSends;
    hide Committed, ClaimOf, FitsInvoice, FitsSend, View;
  }

  lemma PayerStaysSound(env: Env, s: State, a: Action, id: nat)
    requires Inv(env, s) && Enabled(env, s, a) && Payer(a) == Some(id)
    ensures id in Apply(env, s, a).sends && SendSound(env, Apply(env, s, a), id)
  {
    hide PayoutSound, ClaimSound, SenderVerified, HtlcBound, FitsInvoice, Committed, ClaimOf;
    if id in s.sends {
      assert SendSound(env, s, id);
      assert RowSound(env, s, s.sends[id].hash);
    } else {
      assert OwnerSound(s, a.send.hash);
    }
  }

  lemma StepKeepsSend(env: Env, s: State, a: Action, id: nat)
    requires Inv(env, s) && Enabled(env, s, a) && id in Apply(env, s, a).sends
    ensures SendSound(env, Apply(env, s, a), id)
  {
    hide Enabled, Apply, SendSound, RowSound, OwnerSound, PayoutSound, ClaimSound, Owns, Evolves, Payer;
    if Payer(a) == Some(id) {
      PayerStaysSound(env, s, a, id);
    } else {
      OtherPayersUntouched(env, s, a, id);
      StepEvolves(env, s, a);
      assert SendSound(env, s, id) && RowSound(env, s, s.sends[id].hash);
      SendStaysSound(env, s, Apply(env, s, a), id);
    }
  }

  lemma StepKeepsPayouts(env: Env, s: State, a: Action, t: nat)
    requires Inv(env, s) && Enabled(env, s, a) && t in Apply(env, s, a).payouts
    requires forall h: nat :: RowSound(env, Apply(env, s, a), h) && OwnerSound(Apply(env, s, a), h)
    ensures PayoutSound(env, Apply(env, s, a), t)
  {
    hide ClaimSound, SendSound, MayReject, MayFail, Unfunded, OneSendPerInvoice, Releasable, FitsInvoice, FitsSend;
    if t in s.payouts {
      StepEvolves(env, s, a);
      PayoutStaysSound(env, s, Apply(env, s, a), t);
    }
  }

  lemma StepKeepsClaims(env: Env, s: State, a: Action, c: ClaimCall)
    requires Inv(env, s) && Enabled(env, s, a) && c in Apply(env, s, a).claims
    requires forall h: nat :: RowSound(env, Apply(env, s, a), h) && OwnerSound(Apply(env, s, a), h)
    ensures ClaimSound(Apply(env, s, a), c)
  {
    hide PayoutSound, SendSound;
    if c in s.claims {
      StepEvolves(env, s, a);
      ClaimStaysSound(env, s, Apply(env, s, a), c);
    }
  }

  lemma StepKeepsSettled(env: Env, s: State, a: Action, id: nat)
    requires Inv(env, s) && Enabled(env, s, a) && id in Apply(env, s, a).settled
    ensures id in Apply(env, s, a).sends
  {
    hide HtlcBound, SenderVerified, NextRows, Committed, ClaimOf, FitsInvoice;
    hide FitsSend, View, RowSound, OwnerSound, SendSound;
  }

  lemma StepKeepsOneSend(env: Env, s: State, a: Action)
    requires OneSendPerInvoice(s) && Enabled(env, s, a)
    ensures OneSendPerInvoice(Apply(env, s, a))
  {
    hide HtlcBound, SenderVerified, NextRows, View, Unwelcome, Unfunded, MayFail, FitsInvoice;
  }

  /** So the decision to fail a bound HTLC of a paid-out invoice can only follow
      LDK's own report. */
  lemma DecisionIsSafe(env: Env, s: State, payment: nat)
    requires Inv(env, s) && MayReject(env, s, payment)
    ensures Releasable(env, s, payment)
  {
    hide SendSound, ClaimSound, PayoutSound, OneSendPerInvoice;
    var h := env.paymentHash(payment);
    assert RowSound(env, s, h);
    if Unfunded(s, h) {
      UnfundedIsUnpaid(env, s, h);
    }
  }

  /** While an HTLC is being failed only unlocked steps happen, and they leave
      bindings and answers alone. */
  lemma StepKeepsDecision(env: Env, s: State, a: Action)
    requires Inv(env, s) && Enabled(env, s, a) && Apply(env, s, a).failing.Some?
    ensures Releasable(env, Apply(env, s, a), Apply(env, s, a).failing.value)
  {
    hide RowSound, OwnerSound, PayoutSound, ClaimSound, SendSound, OneSendPerInvoice, HtlcBound;
    hide SenderVerified, MayReject, MayFail, Unfunded, FitsSend, FitsInvoice;
    if a.Reject? {
      DecisionIsSafe(env, s, a.payment);
    }
  }

  lemma StepKeepsInv(env: Env, s: State, a: Action)
    requires Inv(env, s) && Enabled(env, s, a)
    ensures Inv(env, Apply(env, s, a))
  {
    hide RowSound, OwnerSound, PayoutSound, ClaimSound, SendSound, Enabled;
    hide NextRows, NextSends, OneSendPerInvoice, Releasable;
    var t := Apply(env, s, a);
    StepKeepsOneSend(env, s, a);
    if t.failing.Some? {
      StepKeepsDecision(env, s, a);
    }
    forall h: nat ensures RowSound(env, t, h) && OwnerSound(t, h) {
      StepKeepsRow(env, s, a, h);
      StepKeepsOwner(env, s, a, h);
    }
    forall id | id in t.sends ensures SendSound(env, t, id) {
      StepKeepsSend(env, s, a, id);
    }
    forall id | id in t.settled ensures id in t.sends {
      StepKeepsSettled(env, s, a, id);
    }
    forall p | p in t.payouts ensures PayoutSound(env, t, p) {
      StepKeepsPayouts(env, s, a, p);
    }
    forall c | c in t.claims ensures ClaimSound(t, c) {
      StepKeepsClaims(env, s, a, c);
    }
  }

  // ---- Runs ----

  /** Every action of the run was allowed where it happened. */
  ghost predicate Legal(env: Env, run: seq<Action>)
    decreases |run|, 0
  {
    run == [] || (Legal(env, run[..|run| - 1]) && Enabled(env, After(env, run[..|run| - 1]), run[|run| - 1]))
  }

  ghost function After(env: Env, run: seq<Action>): State
    requires Legal(env, run)
    decreases |run|, 1
  {
    if run == [] then EMPTY else Apply(env, After(env, run[..|run| - 1]), run[|run| - 1])
  }

  lemma Extend(env: Env, run: seq<Action>, a: Action)
    requires Legal(env, run) && Enabled(env, After(env, run), a)
    ensures Legal(env, run + [a]) && After(env, run + [a]) == Apply(env, After(env, run), a)
  {
    hide Apply, Enabled;
    assert (run + [a])[..|run|] == run;
  }

  /** In every reachable state of every run of claimable events, local payments,
      sweeps, retries and restarts. */
  lemma {:induction false} EveryRunKeepsInv(env: Env, run: seq<Action>)
    requires Legal(env, run)
    ensures Inv(env, After(env, run))
    decreases |run|
  {
    hide Apply, Enabled;
    if run != [] {
      EveryRunKeepsInv(env, run[..|run| - 1]);
      StepKeepsInv(env, After(env, run[..|run| - 1]), run[|run| - 1]);
    }
  }

  lemma EvolvesThrough(s: State, t: State, u: State)
    requires Evolves(s, t) && Evolves(t, u)
    ensures Evolves(s, u)
  {
    forall h: nat ensures RowEvolves(View(s.rows, h), View(u.rows, h)) {
      assert RowEvolves(View(s.rows, h), View(t.rows, h)) && RowEvolves(View(t.rows, h), View(u.rows, h));
    }
    forall id | id in s.sends ensures id in u.sends && SendEvolves(s.sends[id], u.sends[id]) {
      assert id in t.sends && SendEvolves(s.sends[id], t.sends[id]) && SendEvolves(t.sends[id], u.sends[id]);
    }
  }

  lemma PrefixLegal(env: Env, run: seq<Action>, more: seq<Action>, a: Action)
    requires Legal(env, run + more + [a])
    ensures Legal(env, run + more) && Enabled(env, After(env, run + more), a)
    ensures After(env, run + more + [a]) == Apply(env, After(env, run + more), a)
  {
    hide Apply, Enabled;
    assert (run + more + [a])[..|run + more|] == run + more;
  }

  /** Whatever follows a legal run, bindings, checkpoints, reservations, payouts
      and finished sends stay as they are. */
  lemma {:induction false} EveryRunEvolves(env: Env, run: seq<Action>, more: seq<Action>)
    requires Legal(env, run + more)
    ensures Legal(env, run) && Evolves(After(env, run), After(env, run + more))
    decreases |more|
  {
    hide Apply, Enabled;
    if more == [] {
      assert run + more == run;
    } else {
      var front, last := more[..|more| - 1], more[|more| - 1];
      assert run + more == run + front + [last];
      PrefixLegal(env, run, front, last);
      EveryRunEvolves(env, run, front);
      EveryRunKeepsInv(env, run + front);
      StepEvolves(env, After(env, run + front), last);
      EvolvesThrough(After(env, run), After(env, run + front), After(env, run + more));
    }
  }

  // ---- What the service promises ----

  /** One winner: an invoice that a local payer reserved never has a claimed
      HTLC, in that state or in any later one. */
  lemma ReservedIsNeverClaimed(env: Env, run: seq<Action>, more: seq<Action>, h: nat, c: ClaimCall)
    requires Legal(env, run + more)
    requires Legal(env, run) && h in After(env, run).internal
    requires c in After(env, run + more).claims
    ensures c.hash != h
  {
    hide Apply, Enabled;
    EveryRunEvolves(env, run, more);
    EveryRunKeepsInv(env, run + more);
    assert ClaimSound(After(env, run + more), c);
  }

  /** A local payment that ended FAILED never owned the invoice, so it neither
      settled its sender nor caused the invoice's payout: if that was paid, an
      exact HTLC was bound to it. */
  lemma FailedSendPaidNobody(env: Env, run: seq<Action>, id: nat)
    requires Legal(env, run)
    requires id in After(env, run).sends && After(env, run).sends[id].status == SendFailed
    ensures !Owns(After(env, run), id) && id !in After(env, run).settled
    ensures var s := After(env, run);
      forall t :: t in s.payouts && s.payouts[t].hash == s.sends[id].hash ==> HtlcBound(s, s.sends[id].hash)
  {
    hide Apply, Enabled;
    EveryRunKeepsInv(env, run);
    var s := After(env, run);
    assert SendSound(env, s, id);
    forall t | t in s.payouts && s.payouts[t].hash == s.sends[id].hash ensures HtlcBound(s, s.sends[id].hash) {
      assert PayoutSound(env, s, t);
      assert OwnerSound(s, s.sends[id].hash);
    }
  }

  /** Every claim comes after the durable checkpoint of its invoice, with a
      preimage of its hash, and collects exactly the sats that were paid out. */
  lemma ClaimsCollectThePayout(env: Env, run: seq<Action>, c: ClaimCall)
    requires Legal(env, run) && c in After(env, run).claims
    ensures env.hashOf(c.preimage) == c.hash
    ensures View(After(env, run).rows, c.hash).preimage == Some(c.preimage)
    ensures View(After(env, run).rows, c.hash).payment == Some(c.payment)
    ensures env.transferOf(c.hash) in After(env, run).payouts
    ensures After(env, run).payouts[env.transferOf(c.hash)].hash == c.hash
    ensures c.msat == 1000 * After(env, run).payouts[env.transferOf(c.hash)].sats
  {
    hide Apply, Enabled;
    EveryRunKeepsInv(env, run);
    var s := After(env, run);
    assert ClaimSound(s, c) && RowSound(env, s, c.hash);
    assert PayoutSound(env, s, env.transferOf(c.hash));
  }

  /** With lost replies and restarts there is one payout per invoice, of its
      amount to its receiver, and only for an exact HTLC or a verified sender. */
  lemma OnePayoutPerInvoice(env: Env, run: seq<Action>, t: nat, u: nat)
    requires Legal(env, run) && t in After(env, run).payouts && u in After(env, run).payouts
    requires After(env, run).payouts[t].hash == After(env, run).payouts[u].hash
    ensures t == u && PayoutSound(env, After(env, run), t)
  {
    hide Apply, Enabled;
    EveryRunKeepsInv(env, run);
    assert PayoutSound(env, After(env, run), t) && PayoutSound(env, After(env, run), u);
  }

  /** Once the checkpoint exists, no later step asks the operators for that
      invoice, stores another answer or binds another HTLC. */
  lemma NoCallAfterCheckpoint(env: Env, run: seq<Action>, more: seq<Action>, a: Action, h: nat)
    requires Legal(env, run + more + [a]) && Legal(env, run)
    requires View(After(env, run).rows, h).Checkpoint()
    ensures a != CallSwap(h, true) && a != CallSwap(h, false)
    ensures a.CommitSwap? ==> a.h != h
    ensures Legal(env, run + more)
    ensures View(After(env, run + more).rows, h).transfer == View(After(env, run).rows, h).transfer
    ensures View(After(env, run + more).rows, h).preimage == View(After(env, run).rows, h).preimage
  {
    hide Apply;
    PrefixLegal(env, run, more, a);
    EveryRunEvolves(env, run, more);
    assert RowEvolves(View(After(env, run).rows, h), View(After(env, run + more).rows, h));
  }

  /** A second HTLC can never take over an invoice: the first bound payment and
      its amount stay, and every later claim is for it. */
  lemma BindingIsForever(env: Env, run: seq<Action>, more: seq<Action>, h: nat, c: ClaimCall)
    requires Legal(env, run + more) && Legal(env, run) && View(After(env, run).rows, h).payment.Some?
    ensures View(After(env, run + more).rows, h).payment == View(After(env, run).rows, h).payment
    ensures c in After(env, run + more).claims && c.hash == h ==>
      Some(c.payment) == View(After(env, run).rows, h).payment
  {
    hide Apply, Enabled;
    EveryRunEvolves(env, run, more);
    EveryRunKeepsInv(env, run + more);
    assert RowEvolves(View(After(env, run).rows, h), View(After(env, run + more).rows, h));
    if c in After(env, run + more).claims && c.hash == h {
      assert ClaimSound(After(env, run + more), c);
    }
  }

  /** SUCCEEDED means that the sender's funding was collected with a preimage of
      the invoice's hash and that the invoice's owner was paid. */
  lemma SucceededSendWasSettled(env: Env, run: seq<Action>, id: nat)
    requires Legal(env, run)
    requires id in After(env, run).sends && After(env, run).sends[id].status == SendSucceeded
    ensures Owns(After(env, run), id) && id in After(env, run).settled
    ensures env.hashOf(After(env, run).settled[id]) == After(env, run).sends[id].hash
    ensures env.transferOf(After(env, run).sends[id].hash) in After(env, run).payouts
  {
    hide Apply, Enabled;
    EveryRunKeepsInv(env, run);
    assert SendSound(env, After(env, run), id);
    assert RowSound(env, After(env, run), After(env, run).sends[id].hash);
  }

  /** A receive that reads as HTLC_FAILED holds no HTLC any more: LDK confirmed
      that it failed the bound one, or reported it as failed itself. And a claim
      that is marked was accepted. */
  lemma FailedHtlcWasReleased(env: Env, run: seq<Action>, h: nat)
    requires Legal(env, run)
    ensures var s := After(env, run);
      View(s.rows, h).status == HtlcFailed && View(s.rows, h).payment.Some? ==>
        View(s.rows, h).payment.value in s.released || View(s.rows, h).payment.value in s.lost
    ensures View(After(env, run).rows, h).claimSubmitted ==> h in After(env, run).collected
  {
    hide Apply, Enabled;
    EveryRunKeepsInv(env, run);
    assert RowSound(env, After(env, run), h);
  }

  // ---- Final statuses ----

  /** The one step that can take a completed receive back is the write of
      INVOICE_CREATED that follows the insertion of the request, outside the
      receive lock. */
  lemma CompletedStaysIff(env: Env, s: State, a: Action, h: nat)
    requires Inv(env, s) && Enabled(env, s, a) && View(s.rows, h).status == TransferCompleted
    ensures View(Apply(env, s, a).rows, h).status == TransferCompleted <==> a != MarkIssued(h)
  {
    hide NextSends, FitsInvoice, FitsSend, PayoutSound, ClaimSound, SendSound;
    assert RowSound(env, s, h);
  }

  /** A closed receive: failed, and without a payout on record. */
  predicate Closed(v: Row) {
    v.status == HtlcFailed && v.transfer.None?
  }

  /** No step binds an HTLC to a closed receive or asks the operators to pay it. */
  lemma ClosedIsLeftAlone(env: Env, s: State, a: Action, h: nat)
    requires Enabled(env, s, a) && Closed(View(s.rows, h))
    ensures a.CallSwap? || a.CommitSwap? || a.Bind? ==> a.h != h
  {
    hide MayReject, HtlcBound, SenderVerified, MayPay, MayFail, Unfunded, FitsInvoice, FitsSend;
  }

  /** The same write is the one step that can reopen a closed receive. */
  lemma ClosedStaysIff(env: Env, s: State, a: Action, h: nat)
    requires Inv(env, s) && Enabled(env, s, a) && Closed(View(s.rows, h))
    ensures View(Apply(env, s, a).rows, h) == View(s.rows, h) <==> a != MarkIssued(h)
  {
    hide NextSends, NextLive, NextInternal, NextPayouts, NextClaims, NextFailing, NextSettled;
    hide FitsInvoice, FitsSend, PayoutSound, ClaimSound, SendSound;
    hide MayReject, HtlcBound, SenderVerified, MayPay, OneSendPerInvoice, Releasable;
    assert RowSound(env, s, h) && OwnerSound(s, h);
    if a.FinishSend? {
      SettledHasCheckpoint(env, s, a.id);
    }
  }

  /** A completed or closed receive is of an invoice that was issued. */
  lemma EndedWasIssued(env: Env, run: seq<Action>, h: nat)
    requires Legal(env, run) && Terminal(View(After(env, run).rows, h).status)
    ensures h in After(env, run).invoices
  {
    hide Apply, Enabled;
    EveryRunKeepsInv(env, run);
    assert RowSound(env, After(env, run), h);
  }

  /** Once the issuing request is no longer running (it wrote its status, its
      connection was closed or the process restarted), completion is final. */
  lemma {:induction false} CompletionIsFinal(env: Env, run: seq<Action>, more: seq<Action>, h: nat)
    requires Legal(env, run + more) && Legal(env, run)
    requires h !in After(env, run).live && View(After(env, run).rows, h).status == TransferCompleted
    ensures View(After(env, run + more).rows, h).status == TransferCompleted
    decreases |more|
  {
    hide Apply, Allowed, Inv;
    if more == [] {
      assert run + more == run;
    } else {
      var front, last := more[..|more| - 1], more[|more| - 1];
      assert run + more == run + front + [last];
      PrefixLegal(env, run, front, last);
      CompletionIsFinal(env, run, front, h);
      EndedWasIssued(env, run, h);
      NotIssuedAgain(env, run, front, last, h);
      EveryRunKeepsInv(env, run + front);
      CompletedStaysIff(env, After(env, run + front), last, h);
    }
  }

  /** And so is closing: the row never changes again, and no later step binds an
      HTLC to the invoice or asks the operators to pay it. */
  lemma {:induction false} ClosingIsFinal(env: Env, run: seq<Action>, more: seq<Action>, h: nat)
    requires Legal(env, run + more) && Legal(env, run)
    requires h !in After(env, run).live && Closed(View(After(env, run).rows, h))
    ensures View(After(env, run + more).rows, h) == View(After(env, run).rows, h)
    ensures forall a :: a in more && (a.CallSwap? || a.CommitSwap? || a.Bind?) ==> a.h != h
    decreases |more|
  {
    hide Apply, Allowed, Inv;
    if more == [] {
      assert run + more == run;
    } else {
      var front, last := more[..|more| - 1], more[|more| - 1];
      assert run + more == run + front + [last];
      PrefixLegal(env, run, front, last);
      ClosingIsFinal(env, run, front, h);
      EndedWasIssued(env, run, h);
      NotIssuedAgain(env, run, front, last, h);
      EveryRunKeepsInv(env, run + front);
      ClosedStaysIff(env, After(env, run + front), last, h);
      ClosedIsLeftAlone(env, After(env, run + front), last, h);
      assert more == front + [last];
    }
  }

  lemma NotIssuedAgain(env: Env, run: seq<Action>, front: seq<Action>, a: Action, h: nat)
    requires Legal(env, run + front) && Legal(env, run)
    requires h in After(env, run).invoices && h !in After(env, run).live
    requires Enabled(env, After(env, run + front), a)
    ensures a != MarkIssued(h)
  {
    hide Apply, Inv;
    EveryRunEvolves(env, run, front);
  }

  /** A row that some HTLC or payout reached can be marked as issued as long as
      the issuing request is running. */
  lemma MarkingReopens(env: Env, run: seq<Action>, h: nat)
    requires Legal(env, run) && h in After(env, run).live && Terminal(View(After(env, run).rows, h).status)
    ensures Legal(env, run + [MarkIssued(h)])
    ensures View(After(env, run + [MarkIssued(h)]).rows, h).status == InvoiceCreated
  {
    hide Apply;
    EveryRunKeepsInv(env, run);
    assert RowSound(env, After(env, run), h);
    Extend(env, run, MarkIssued(h));
    MarkedRow(env, After(env, run), h);
  }

  lemma MarkedRow(env: Env, s: State, h: nat)
    requires Enabled(env, s, MarkIssued(h))
    ensures View(Apply(env, s, MarkIssued(h)).rows, h) == View(s.rows, h).(status := InvoiceCreated)
  {
  }

  /** A completed receive stays completed whatever comes if and only if the
      request that issued its invoice is no longer running. */
  lemma CompletionIsFinalIff(env: Env, run: seq<Action>, h: nat)
    requires Legal(env, run) && View(After(env, run).rows, h).status == TransferCompleted
    ensures h !in After(env, run).live <==>
      forall more :: Legal(env, run + more) ==> View(After(env, run + more).rows, h).status == TransferCompleted
  {
    hide Apply, Enabled;
    if h !in After(env, run).live {
      forall more | Legal(env, run + more) ensures View(After(env, run + more).rows, h).status == TransferCompleted {
        CompletionIsFinal(env, run, more, h);
      }
    } else {
      MarkingReopens(env, run, h);
    }
  }

  /** The same for a closed one. */
  lemma ClosingIsFinalIff(env: Env, run: seq<Action>, h: nat)
    requires Legal(env, run) && Closed(View(After(env, run).rows, h))
    ensures h !in After(env, run).live <==>
      forall more :: Legal(env, run + more) ==> Closed(View(After(env, run + more).rows, h))
  {
    hide Apply, Enabled;
    if h !in After(env, run).live {
      forall more | Legal(env, run + more) ensures Closed(View(After(env, run + more).rows, h)) {
        ClosingIsFinal(env, run, more, h);
      }
    } else {
      MarkingReopens(env, run, h);
    }
  }

  /** When LDK is asked to fail the HTLC bound to a paid-out invoice, it had
      reported that HTLC as failed before. */
  lemma PaidOutHtlcIsKept(env: Env, run: seq<Action>, payment: nat, ok: bool)
    requires Legal(env, run + [CallFail(payment, ok)]) && Legal(env, run)
    requires View(After(env, run).rows, env.paymentHash(payment)).Checkpoint()
    requires View(After(env, run).rows, env.paymentHash(payment)).payment == Some(payment)
    ensures payment in After(env, run).lost
  {
    hide Apply;
    assert run + [] + [CallFail(payment, ok)] == run + [CallFail(payment, ok)] && run + [] == run;
    PrefixLegal(env, run, [], CallFail(payment, ok));
    EveryRunKeepsInv(env, run);
    assert OwnerSound(After(env, run), env.paymentHash(payment));
  }

  /** The receiver was paid for the exact HTLC that is bound. */
  predicate PaidForHtlc(env: Env, s: State, h: nat, payment: nat) {
    && HtlcBound(s, h) && View(s.rows, h).payment == Some(payment)
    && env.transferOf(h) in s.payouts && s.payouts[env.transferOf(h)].hash == h
  }

  /** The lock holder may give back the HTLC that an invoice was paid out for if
      and only if the answer to that payout was not stored, or the invoice was
      closed. */
  lemma PaidHtlcMayFailIff(env: Env, run: seq<Action>, h: nat, payment: nat)
    requires Legal(env, run) && PaidForHtlc(env, After(env, run), h, payment) && After(env, run).failing.None?
    ensures Legal(env, run + [Reject(payment)] + [CallFail(payment, true)]) <==>
      !View(After(env, run).rows, h).Checkpoint() || View(After(env, run).rows, h).status == HtlcFailed
  {
    hide Apply, Legal, After, HtlcBound;
    EveryRunKeepsInv(env, run);
    PaidHtlcRejected(env, After(env, run), h, payment);
    if MayReject(env, After(env, run), payment) {
      Extend(env, run, Reject(payment));
      DecidedState(env, After(env, run), payment);
      Extend(env, run + [Reject(payment)], CallFail(payment, true));
    } else if Legal(env, run + [Reject(payment)] + [CallFail(payment, true)]) {
      assert run + [Reject(payment)] + [] + [CallFail(payment, true)]
          == run + [Reject(payment)] + [CallFail(payment, true)];
      PrefixLegal(env, run + [Reject(payment)], [], CallFail(payment, true));
      assert run + [Reject(payment)] + [] == run + [] + [Reject(payment)] && run + [] == run;
      PrefixLegal(env, run, [], Reject(payment));
      assert false;
    }
  }

  lemma PaidHtlcRejected(env: Env, s: State, h: nat, payment: nat)
    requires Inv(env, s) && PaidForHtlc(env, s, h, payment)
    ensures MayReject(env, s, payment) <==> !View(s.rows, h).Checkpoint() || View(s.rows, h).status == HtlcFailed
  {
    hide PayoutSound, ClaimSound, SendSound, OneSendPerInvoice, Releasable, OwnerSound;
    assert RowSound(env, s, h);
  }

  lemma DecidedState(env: Env, s: State, payment: nat)
    requires Enabled(env, s, Reject(payment))
    ensures Apply(env, s, Reject(payment)).failing == Some(payment)
  {
  }

  function LostReplyRun(h: nat, i: Invoice, p: nat): seq<Action> {
    [Insert(h, i)] + [Bind(h, p)] + [CallSwap(h, true)] + [SetStatus(h, TransferCreationFailed)]
    + [Reject(p)] + [CallFail(p, true)] + [EndReject] + [SetStatus(h, HtlcFailed)]
  }

  /** And that does happen: the operators pay the receiver, every reply is lost,
      and the sweep that finds the invoice expired gives the HTLC back. */
  lemma LostReplyLosesTheHtlc(env: Env, h: nat, i: Invoice, p: nat)
    requires env.amountOf(p) == 1000 * i.sats && env.paymentHash(p) == h
    ensures Legal(env, LostReplyRun(h, i, p))
    ensures var s := After(env, LostReplyRun(h, i, p));
      PaidForHtlc(env, s, h, p) && p in s.released && View(s.rows, h).status == HtlcFailed && s.claims == {}
  {
    hide Legal, After;
    BoundRun(env, h, i, p);
    var a := [Insert(h, i)] + [Bind(h, p)];
    Extend(env, a, CallSwap(h, true));
    Extend(env, a + [CallSwap(h, true)], SetStatus(h, TransferCreationFailed));
    var b := a + [CallSwap(h, true)] + [SetStatus(h, TransferCreationFailed)];
    Extend(env, b, Reject(p));
    Extend(env, b + [Reject(p)], CallFail(p, true));
    Extend(env, b + [Reject(p)] + [CallFail(p, true)], EndReject);
    Extend(env, b + [Reject(p)] + [CallFail(p, true)] + [EndReject], SetStatus(h, HtlcFailed));
  }

  // ---- Runs in which the unlocked write comes last ----

  /** The world lets the payment `p` pay the invoice `i` of hash `h` exactly. */
  predicate Pays(env: Env, h: nat, i: Invoice, p: nat, x: nat) {
    env.amountOf(p) == 1000 * i.sats && env.paymentHash(p) == h && env.hashOf(x) == h
  }

  function PaidRun(h: nat, i: Invoice, p: nat, x: nat): seq<Action> {
    [Insert(h, i)] + [Bind(h, p)] + [CallSwap(h, true)] + [CommitSwap(h, x)] + [Finish(h, p)]
  }

  /** An invoice that is paid while its request is still running: completed, and
      then taken back. */
  lemma CompletionCanBeUndone(env: Env, h: nat, i: Invoice, p: nat, x: nat)
    requires Pays(env, h, i, p, x)
    ensures Legal(env, PaidRun(h, i, p, x) + [MarkIssued(h)])
    ensures Legal(env, PaidRun(h, i, p, x)) && View(After(env, PaidRun(h, i, p, x)).rows, h).status == TransferCompleted
    ensures View(After(env, PaidRun(h, i, p, x) + [MarkIssued(h)]).rows, h).status == InvoiceCreated
  {
    hide Legal, After;
    BoundRun(env, h, i, p);
    var a := [Insert(h, i)] + [Bind(h, p)];
    Extend(env, a, CallSwap(h, true));
    var b := a + [CallSwap(h, true)];
    Extend(env, b, CommitSwap(h, x));
    var c := b + [CommitSwap(h, x)];
    Extend(env, c, Finish(h, p));
    MarkingReopens(env, c + [Finish(h, p)], h);
  }

  lemma BoundRun(env: Env, h: nat, i: Invoice, p: nat)
    requires env.paymentHash(p) == h
    ensures Legal(env, [Insert(h, i)] + [Bind(h, p)])
    ensures After(env, [Insert(h, i)] + [Bind(h, p)]) ==
      EMPTY.(invoices := map[h := i], rows := map[h := Bound(NO_ROW, p, env.amountOf(p))], live := {h})
  {
    NothingYet(env);
    Extend(env, [], Insert(h, i));
    assert [] + [Insert(h, i)] == [Insert(h, i)];
    Extend(env, [Insert(h, i)], Bind(h, p));
  }

  lemma NothingYet(env: Env)
    ensures Legal(env, []) && After(env, []) == EMPTY
  {
  }

  function ReopenedRun(h: nat, i: Invoice, p: nat): seq<Action> {
    [Insert(h, i)] + [Bind(h, p)] + [Reject(p)] + [CallFail(p, true)] + [EndReject] + [SetStatus(h, HtlcFailed)]
    + [MarkIssued(h)] + [Bind(h, p)] + [CallSwap(h, true)]
  }

  /** An invoice that is closed while its request is still running, and reopened
      by it: the HTLC that was failed can be bound again and the invoice be paid. */
  lemma ClosingCanBeUndone(env: Env, h: nat, i: Invoice, p: nat)
    requires env.amountOf(p) == 1000 * i.sats && env.paymentHash(p) == h
    ensures Legal(env, ReopenedRun(h, i, p))
    ensures p in After(env, ReopenedRun(h, i, p)).failed
    ensures env.transferOf(h) in After(env, ReopenedRun(h, i, p)).payouts
  {
    hide Legal, After;
    BoundRun(env, h, i, p);
    var a := [Insert(h, i)] + [Bind(h, p)];
    Extend(env, a, Reject(p));
    Extend(env, a + [Reject(p)], CallFail(p, true));
    var b := a + [Reject(p)] + [CallFail(p, true)];
    Extend(env, b, EndReject);
    Extend(env, b + [EndReject], SetStatus(h, HtlcFailed));
    var c := b + [EndReject] + [SetStatus(h, HtlcFailed)];
    Extend(env, c, MarkIssued(h));
    Extend(env, c + [MarkIssued(h)], Bind(h, p));
    Extend(env, c + [MarkIssued(h)] + [Bind(h, p)], CallSwap(h, true));
  }
}
