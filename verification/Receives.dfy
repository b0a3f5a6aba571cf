/** Receiving on BOLT11 invoices (src/ldk.rs): the procedures that run under the
    receive lock, step by step. Tasks that do not take the lock may insert
    requests, mark invoices as issued or be dropped between any two steps. */
module Receives {
  import opened Basics
  import opened ReceiveRun

  /** The operators' answer to a receive swap. */
  datatype SwapReply = SwapReply(transfer: nat, sender: nat, receiver: nat, preimageSwap: bool, sats: u64,
                                 preimage: nat)

  /** The SSP's own identity key. */
  const SSP: nat := 0

  /** Attempts of one operation: the first and one after each delay. */
  const ATTEMPTS: nat := 5

  const I64_MAX: nat := 0x7FFF_FFFF_FFFF_FFFF

  /** Accept a swap only if it pays this invoice, in full and not a sat more. */
  function ValidateReceiveSwap(env: Env, reply: SwapReply, h: nat, i: Invoice): (ok: bool)
    ensures ok <==>
      && reply == SwapReply(env.transferOf(h), SSP, i.receiver, true, i.sats, reply.preimage)
      && env.hashOf(reply.preimage) == h
  {
    if env.hashOf(reply.preimage) != h then false
    else if reply.transfer != env.transferOf(h) || reply.sender != SSP then false
    else if reply.receiver != i.receiver || !reply.preimageSwap then false
    else reply.sats == i.sats
  }

  predicate Failure(status: Status) {
    status == HtlcFailed || status == TransferCreationFailed || status == PreimageRecoveryFailed
  }

  predicate HeldFor(payouts: map<nat, Payout>, t: nat, h: nat) {
    t in payouts && payouts[t].hash == h
  }

  /** What the unlocked tasks can do to a row: mark its invoice as issued. */
  predicate Marked(v: Row, w: Row) {
    w == v || w == v.(status := InvoiceCreated)
  }

  ghost predicate MarkedRows(a: map<nat, Row>, b: map<nat, Row>) {
    forall h: nat :: Marked(View(a, h), View(b, h))
  }

  ghost predicate Grown(s: State, t: State) {
    && (forall h :: h in s.invoices ==> h in t.invoices && t.invoices[h] == s.invoices[h])
    && (forall id :: id in s.sends ==> id in t.sends && t.sends[id] == s.sends[id])
  }

  /** Only unlocked tasks ran between the two states. */
  ghost predicate Calm(s: State, t: State) {
    && Grown(s, t) && MarkedRows(s.rows, t.rows)
    && t.internal == s.internal && t.payouts == s.payouts && t.claims == s.claims
    && t.collected == s.collected && t.failing == s.failing && t.failed == s.failed && t.released == s.released
    && t.lost == s.lost && t.verified == s.verified && t.settled == s.settled
  }

  lemma CalmThrough(s: State, t: State, u: State)
    requires Calm(s, t) && Calm(t, u)
    ensures Calm(s, u)
  {
    forall h: nat ensures Marked(View(s.rows, h), View(u.rows, h)) {
      assert Marked(View(s.rows, h), View(t.rows, h)) && Marked(View(t.rows, h), View(u.rows, h));
    }
  }

  lemma RejectedBy(calls: seq<Action>, payment: nat, ok: bool)
    requires FailCalls(calls, payment, ok)
    ensures Rejection([Reject(payment)] + calls + [EndReject], payment, ok)
  {
  }

  lemma CalmStart(s: State)
    ensures Calm(s, s)
  {
  }

  lemma CalmAttempt(start: State, mid: State, t: State, payment: nat, ok: bool)
    requires Calm(start.(failed := mid.failed, released := mid.released), mid)
    requires Calm(FailAsked(mid, payment, ok), t)
    ensures t.failed == mid.failed + {payment} && t.released == mid.released + if ok then {payment} else {}
    ensures Calm(start.(failed := t.failed, released := t.released), t)
  {
    CalmThrough(start.(failed := t.failed, released := t.released),
      mid.(failed := t.failed, released := t.released), t);
  }

  function FailAsked(s: State, payment: nat, ok: bool): State {
    s.(failed := s.failed + {payment}, released := s.released + if ok then {payment} else {})
  }

  function ClaimAsked(s: State, h: nat, call: ClaimCall, ok: bool): State {
    s.(claims := s.claims + {call}, collected := s.collected + if ok then {h} else {})
  }

  lemma ClaimStillAllowed(s: State, t: State, h: nat)
    requires HtlcBound(s, h) && View(s.rows, h).Checkpoint() && !Terminal(View(s.rows, h).status)
    requires Calm(s.(claims := t.claims, collected := t.collected), t)
    ensures HtlcBound(t, h) && View(t.rows, h).Checkpoint() && !Terminal(View(t.rows, h).status)
    ensures ClaimOf(View(t.rows, h), h) == ClaimOf(View(s.rows, h), h)
  {
    assert Marked(View(s.rows, h), View(t.rows, h));
  }

  lemma CalmClaimed(s: State, t: State, h: nat, call: ClaimCall, ok: bool)
    requires Calm(s, t)
    ensures Calm(ClaimAsked(s, h, call, ok), ClaimAsked(t, h, call, ok))
  {
  }

  lemma CalmClaim(start: State, mid: State, t: State, h: nat, call: ClaimCall, ok: bool)
    requires Calm(start.(claims := mid.claims, collected := mid.collected), mid)
    requires Calm(ClaimAsked(mid, h, call, ok), t)
    ensures t.claims == mid.claims + {call} && t.collected == mid.collected + if ok then {h} else {}
    ensures Calm(start.(claims := t.claims, collected := t.collected), t)
  {
    CalmThrough(start.(claims := t.claims, collected := t.collected),
      mid.(claims := t.claims, collected := t.collected), t);
  }

  lemma CalmPaid(s: State, t: State, payouts: map<nat, Payout>)
    requires Calm(s.(payouts := t.payouts), t)
    ensures Calm(s.(payouts := payouts), t.(payouts := payouts)) && t.invoices.Keys >= s.invoices.Keys
    ensures forall h :: h in s.invoices ==> h in t.invoices && t.invoices[h] == s.invoices[h]
  {
  }

  lemma CalmConclude(s: State, t: State)
    requires Calm(s, t)
    ensures Calm(s.(failing := None), t.(failing := None))
  {
  }

  // ---- The steps of the lock holder ----

  /** What tasks do without the receive lock. */
  predicate Unlocked(a: Action) {
    a.Insert? || a.MarkIssued? || a.DropRequest? || a.Restart? || a.Prepare?
  }

  /** The steps taken under the lock, in order. */
  ghost function Own(run: seq<Action>): seq<Action> {
    if run == [] then []
    else
      var before, last := Own(run[..|run| - 1]), run[|run| - 1];
      if Unlocked(last) then before else before + [last]
  }

  lemma OwnStep(run: seq<Action>, a: Action)
    ensures Own(run + [a]) == if Unlocked(a) then Own(run) else Own(run) + [a]
  {
    assert (run + [a])[..|run|] == run;
  }

  /** One of five calls is answered, and every earlier one refused. */
  ghost predicate Succeeds(replies: nat -> Outcome<()>) {
    exists n: nat :: n < 5 && replies(n).Ok? && forall m: nat | m < n :: replies(m).Err?
  }

  /** The calls so far: the last one ended with `r`, those before it with errors. */
  ghost predicate Counts(replies: nat -> Outcome<()>, n: nat, r: Outcome<()>) {
    && (forall m: nat | m < n - 1 :: replies(m).Err?)
    && (if n == 0 then r.Err? else (r.Ok? <==> replies(n - 1).Ok?) && (r.Err? <==> replies(n - 1).Err?))
  }

  lemma Counted(replies: nat -> Outcome<()>, n: nat, r: Outcome<()>)
    requires Counts(replies, n, r) && n <= 5 && (r.Err? ==> n == 5)
    ensures !r.Crashed? ==> (r.Ok? <==> Succeeds(replies))
  {
  }

  lemma NoCallYet(replies: nat -> Outcome<()>, r: Outcome<()>)
    requires r.Err?
    ensures Counts(replies, 0, r)
  {
  }

  lemma CountsMore(replies: nat -> Outcome<()>, n: nat, r: Outcome<()>, next: Outcome<()>)
    requires Counts(replies, n, r) && r.Err?
    requires (next.Ok? <==> replies(n).Ok?) && (next.Err? <==> replies(n).Err?)
    ensures Counts(replies, n + 1, next)
  {
  }

  /** LDK is asked to fail an HTLC: until it confirms, and five times at most. */
  predicate FailCalls(calls: seq<Action>, payment: nat, ok: bool) {
    && 1 <= |calls| <= 5 && (!ok ==> |calls| == 5)
    && forall k :: 0 <= k < |calls| ==> calls[k] == CallFail(payment, ok && k == |calls| - 1)
  }

  /** The HTLC is turned away: a decision, the calls, and its end. */
  ghost predicate Rejection(steps: seq<Action>, payment: nat, ok: bool) {
    exists calls :: FailCalls(calls, payment, ok) && steps == [Reject(payment)] + calls + [EndReject]
  }

  /** The bound HTLC is failed and, once that is confirmed, the invoice closed. */
  ghost predicate Release(steps: seq<Action>, h: nat, payment: nat, fails: nat -> Outcome<()>) {
    exists turned ::
      && Rejection(turned, payment, Succeeds(fails))
      && steps == turned + if Succeeds(fails) then [SetStatus(h, HtlcFailed)] else []
  }

  /** LDK is asked to claim an HTLC: until it accepts, and five times at most. */
  predicate ClaimCalls(calls: seq<Action>, h: nat, ok: bool) {
    && 1 <= |calls| <= 5 && (!ok ==> |calls| == 5)
    && forall k :: 0 <= k < |calls| ==> calls[k] == CallClaim(h, ok && k == |calls| - 1)
  }

  /** The HTLC is claimed, and the accepted claim marked. */
  ghost predicate Claiming(steps: seq<Action>, h: nat, ok: bool) {
    exists calls :: ClaimCalls(calls, h, ok) && steps == calls + if ok then [MarkClaimed(h)] else []
  }

  /** What the operators answer to one attempt to pay the receiver: the transfer
      that they hold already, the wallet's liquidity, and the reply to the call,
      which may commit and be lost. */
  datatype SwapReplies = SwapReplies(found: Outcome<Option<SwapReply>>, liquidity: Outcome<()>, commits: bool,
                                     reply: Outcome<SwapReply>)

  /** What the operators answer to each attempt, and LDK to each call that fails or
      claims the HTLC. */
  datatype HtlcReplies = HtlcReplies(swaps: nat -> SwapReplies, fails: nat -> Outcome<()>, claims: nat -> Outcome<()>)

  /** An HTLC of the invoice `i` with hash `h`, whether the operators hold its
      payout from an earlier call, and what the outside answers. */
  datatype Ask = Ask(env: Env, h: nat, payment: nat, i: Invoice, held: bool, q: HtlcReplies)

  /** What one attempt hears: a transfer that the operators hold already is taken
      first; without one, the wallet must be able to pay and the operators answer;
      and an answer must be for this invoice. */
  function Heard(env: Env, q: SwapReplies, h: nat, i: Invoice): Outcome<SwapReply> {
    match q.found
    case Ok(Some(swap)) => if ValidateReceiveSwap(env, swap, h, i) then Ok(swap) else Err(Mismatch)
    case Ok(None) =>
      if !q.liquidity.Ok? then q.liquidity.PropagateFailure()
      else if q.reply.Ok? && !ValidateReceiveSwap(env, q.reply.value, h, i) then Err(Mismatch)
      else q.reply
    case _ => q.found.PropagateFailure()
  }

  /** An answer pays the invoice's receiver its amount and carries its preimage. */
  lemma AnswerPaysInvoice(env: Env, q: SwapReplies, h: nat, i: Invoice)
    ensures Heard(env, q, h, i).Ok? ==>
      var swap := Heard(env, q, h, i).value;
      && swap.transfer == env.transferOf(h) && swap.receiver == i.receiver && swap.sats == i.sats
      && env.hashOf(swap.preimage) == h
    ensures q.found == Ok(None) && !q.liquidity.Ok? ==> !Heard(env, q, h, i).Ok? && Call(env, q, h, i) == []
  {
  }

  /** The call that the attempt makes, if it gets that far. */
  function Call(env: Env, q: SwapReplies, h: nat, i: Invoice): seq<Action> {
    if q.found == Ok(None) && q.liquidity.Ok? then
      [CallSwap(h, q.commits || (q.reply.Ok? && ValidateReceiveSwap(env, q.reply.value, h, i)))]
    else []
  }

  function Calls(env: Env, q: nat -> SwapReplies, h: nat, i: Invoice, n: nat): seq<Action> {
    if n == 0 then [] else Calls(env, q, h, i, n - 1) + Call(env, q(n - 1), h, i)
  }

  /** The transfer id of the invoice belongs to another payout. */
  predicate Taken(env: Env, payouts: map<nat, Payout>, h: nat) {
    env.transferOf(h) in payouts && payouts[env.transferOf(h)].hash != h
  }

  /** The attempt heard no valid answer, or one about a transfer that the operators
      do not hold for this invoice. */
  predicate Missed(env: Env, q: SwapReplies, h: nat, i: Invoice, held: bool, payouts: map<nat, Payout>) {
    !Heard(env, q, h, i).Ok? || Taken(env, payouts, h) || (!held && q.found != Ok(None))
  }

  predicate NoAnswer(env: Env, q: nat -> SwapReplies, h: nat, i: Invoice, held: bool, payouts: map<nat, Payout>, n: nat)
  {
    forall k: nat | k < n :: Missed(env, q(k), h, i, held, payouts)
  }

  /** The error that an attempt without an answer reports. */
  function Cause(heard: Outcome<SwapReply>): Error {
    if heard.Err? then heard.error else Unavailable
  }

  /** The `n`-th attempt brought the answer, or five brought none. */
  predicate Swapped(k: Ask, payouts: map<nat, Payout>, n: nat, calls: seq<Action>, r: Outcome<SwapReply>) {
    && (r.Ok? ==>
          && n < 5 && r == Heard(k.env, k.q.swaps(n), k.h, k.i)
          && NoAnswer(k.env, k.q.swaps, k.h, k.i, k.held, payouts, n)
          && calls == Calls(k.env, k.q.swaps, k.h, k.i, n + 1))
    && (r.Err? ==>
          && r.error == Cause(Heard(k.env, k.q.swaps(4), k.h, k.i))
          && NoAnswer(k.env, k.q.swaps, k.h, k.i, k.held, payouts, 5)
          && calls == Calls(k.env, k.q.swaps, k.h, k.i, 5))
  }

  /** The failure is noted; only a definite shortage releases the HTLC. */
  ghost predicate Unpaid(steps: seq<Action>, h: nat, payment: nat, e: Error, fails: nat -> Outcome<()>) {
    && (e == Liquidity ==> exists released ::
          Release(released, h, payment, fails) && steps == [SetStatus(h, TransferCreationFailed)] + released)
    && (e != Liquidity ==> steps == [SetStatus(h, TransferCreationFailed)])
  }

  /** The answer is stored; or the failure is noted. */
  ghost predicate Concluded(k: Ask, swapped: Outcome<SwapReply>, rest: seq<Action>, r: Outcome<()>) {
    match swapped
    case Ok(swap) => r.Ok? && rest == [CommitSwap(k.h, swap.preimage)]
    case Err(e) => r.Err? && r.error == e && Unpaid(rest, k.h, k.payment, e, k.q.fails)
    case Crashed => false
  }

  /** The receiver is paid, in five attempts at most, and that is stored. */
  ghost predicate Funding(k: Ask, payouts: map<nat, Payout>, steps: seq<Action>, r: Outcome<()>) {
    exists n, calls, rest, swapped ::
      Swapped(k, payouts, n, calls, swapped) && Concluded(k, swapped, rest, r) && steps == calls + rest
  }

  /** What is stored of an invoice beside its status and its HTLC. */
  predicate SameAnswer(v: Row, w: Row) {
    w.transfer == v.transfer && w.preimage == v.preimage && w.claimSubmitted == v.claimSubmitted
  }

  ghost predicate FundedFirst(k: Ask, v: Row, payouts: map<nat, Payout>, pays: seq<Action>, paid: Outcome<()>) {
    if v.Checkpoint() then pays == [] && paid.Ok? else Funding(k, payouts, pays, paid)
  }

  ghost predicate ClaimedNext(k: Ask, v: Row, rest: seq<Action>, paid: Outcome<()>, r: Outcome<bool>) {
    if !paid.Ok? then rest == [] && r == paid.PropagateFailure()
    else if v.claimSubmitted then rest == [] && r == Ok(true)
    else if v.Checkpoint() && k.env.hashOf(v.preimage.value) != k.h then rest == [] && r == Err(Mismatch)
    else Claiming(rest, k.h, r.Ok?) && !r.Crashed? && (r.Ok? <==> Succeeds(k.q.claims)) && (r.Ok? ==> r.value)
  }

  /** Pay unless the answer is stored, then claim unless that is marked. */
  ghost predicate Paying(k: Ask, v: Row, payouts: map<nat, Payout>, steps: seq<Action>, r: Outcome<bool>) {
    exists pays, rest, paid: Outcome<()> ::
      FundedFirst(k, v, payouts, pays, paid) && ClaimedNext(k, v, rest, paid, r) && steps == pays + rest
  }

  /** Give back a wrong amount; pay and claim an exact one. */
  ghost predicate Bounded(k: Ask, v: Row, actual: u64, payouts: map<nat, Payout>, steps: seq<Action>,
                          r: Outcome<bool>)
  {
    if actual != 1000 * k.i.sats then Release(steps, k.h, k.payment, k.q.fails) && r == Err(Mismatch)
    else Paying(k, v, payouts, steps, r)
  }

  /** An HTLC for an open invoice is bound first, unless its amount cannot be
      stored. */
  ghost predicate Settling(k: Ask, v: Row, actual: u64, payouts: map<nat, Payout>, steps: seq<Action>,
                           r: Outcome<bool>)
  {
    if actual > I64_MAX then steps == [] && r == Err(Rejected)
    else
      && steps != [] && steps[0] == Bind(k.h, k.payment)
      && Bounded(k, v, actual, payouts, steps[1..], r)
  }

  ghost predicate TurnedAway(steps: seq<Action>, payment: nat, fails: nat -> Outcome<()>, known: bool,
                             r: Outcome<bool>)
  {
    Rejection(steps, payment, Succeeds(fails)) && (r.Ok? <==> Succeeds(fails)) && (r.Ok? ==> r.value == known)
  }

  /** What happens to a claimable HTLC, in the order in which it is decided. */
  ghost predicate Processing(k: Ask, s: State, amount: Option<u64>, payouts: map<nat, Payout>, steps: seq<Action>,
                             r: Outcome<bool>)
  {
    var v := View(s.rows, k.h);
    if Unwelcome(k.env, s, k.payment) then
      TurnedAway(steps, k.payment, k.q.fails, k.h in s.internal || k.h in s.invoices, r)
    else if v.status == TransferCompleted then steps == [] && r == Ok(true)
    else if amount.None? || 1000 * k.i.sats > U64_MAX then steps == [] && r == Err(Invalid)
    else Settling(k, v, amount.value, payouts, steps, r)
  }

  /** A listed invoice was closed, or its HTLC was asked to be failed. */
  ghost predicate Expired(s: State, h: nat, steps: seq<Action>, failed: set<nat>) {
    match View(s.rows, h).payment
    case None => SetStatus(h, HtlcFailed) in steps
    case Some(p) => p in failed
  }

  /** The answer collects the payer's funding and ends the payment. */
  predicate Collecting(env: Env, preimage: nat, id: nat, h: nat, reply: Outcome<()>, steps: seq<Action>,
                       r: Outcome<()>)
  {
    if env.hashOf(preimage) != h then steps == [] && r == Err(Mismatch)
    else if reply.Ok? then steps == [SettleSend(id), FinishSend(id)] && r.Ok?
    else (steps == [] || steps == [SettleSend(id)]) && r == reply
  }

  /** What the outside answers while a local payment is carried on: about the
      payer's transfer, to the one attempt to pay, and to the collection. */
  datatype LocalReplies = LocalReplies(verified: Outcome<()>, swap: SwapReplies, collected: Outcome<()>)

  /** A local payment `id` of the invoice `i` with hash `h`. */
  datatype Local = Local(env: Env, id: nat, h: nat, i: Invoice, held: bool, q: LocalReplies)

  /** One attempt, and its answer stored. */
  ghost predicate LocalSwap(k: Local, payouts: map<nat, Payout>, steps: seq<Action>, r: Outcome<()>) {
    var heard := Heard(k.env, k.q.swap, k.h, k.i);
    var call := Call(k.env, k.q.swap, k.h, k.i);
    if r.Ok? then heard.Ok? && steps == call + [CommitSwap(k.h, heard.value.preimage)]
    else
      && Missed(k.env, k.q.swap, k.h, k.i, k.held, payouts) && steps == call
      && r.Err? && r.error == Cause(heard)
  }

  /** The payer is checked, then the receiver paid. */
  ghost predicate LocalFunding(k: Local, payouts: map<nat, Payout>, steps: seq<Action>, r: Outcome<()>) {
    if !k.q.verified.Ok? then steps == [] && r == k.q.verified
    else steps != [] && steps[0] == VerifySend(k.id) && LocalSwap(k, payouts, steps[1..], r)
  }

  ghost predicate FundedLocally(k: Local, v: Row, payouts: map<nat, Payout>, pays: seq<Action>, funded: Outcome<()>) {
    if v.Checkpoint() then pays == [] && funded.Ok? else LocalFunding(k, payouts, pays, funded)
  }

  ghost predicate CollectedNext(k: Local, v: Row, rest: seq<Action>, funded: Outcome<()>, r: Outcome<()>) {
    if !funded.Ok? then rest == [] && r == funded
    else exists preimage: nat :: Collecting(k.env, preimage, k.id, k.h, k.q.collected, rest, r)
           && (v.Checkpoint() ==> v.preimage == Some(preimage))
  }

  ghost predicate LocalPayment(k: Local, v: Row, payouts: map<nat, Payout>, steps: seq<Action>, r: Outcome<()>) {
    exists pays, rest, funded: Outcome<()> :: FundedLocally(k, v, payouts, pays, funded)
      && CollectedNext(k, v, rest, funded, r) && steps == pays + rest
  }

  /** The reservation decides: without it the payment fails, with it the receiver is
      paid before the payer, and the payer before the payment ends. */
  ghost predicate Paid(env: Env, s: State, id: nat, now: int, q: LocalReplies, payouts: map<nat, Payout>,
                       steps: seq<Action>, r: Outcome<()>)
    requires id in s.sends
  {
    var h := s.sends[id].hash;
    if !Owns(s, id) && (h in s.internal || !Reservable(s, id, now)) then
      steps == [FailSend(id)] && r == Err(Rejected)
    else
      && h in s.invoices
      && (!Owns(s, id) ==> steps != [] && steps[0] == ReserveSend(id))
      && LocalPayment(Local(env, id, h, s.invoices[h], HeldFor(s.payouts, env.transferOf(h), h), q), View(s.rows, h),
           payouts, if Owns(s, id) then steps else steps[1..], r)
  }

  const NO_INVOICE := Invoice(0, 0, 0, 0, 0, 0)

  function InvoiceOf(invoices: map<nat, Invoice>, h: nat): Invoice {
    if h in invoices then invoices[h] else NO_INVOICE
  }

  /** Only unlocked tasks ran, and up to `n` attempts at this payout, of which
      none brought an answer. */
  ghost predicate Swapping(env: Env, start: State, t: State, h: nat)
    requires h in start.invoices
  {
    && Calm(start.(payouts := t.payouts), t)
    && (t.payouts == start.payouts || t.payouts == Committed(env, start, h, true))
  }

  ghost predicate Tried(env: Env, start: State, t: State, h: nat, q: nat -> SwapReplies, n: nat, calls: seq<Action>) {
    && h in start.invoices && Swapping(env, start, t, h)
    && NoAnswer(env, q, h, start.invoices[h], HeldFor(start.payouts, env.transferOf(h), h), t.payouts, n)
    && calls == Calls(env, q, h, start.invoices[h], n)
    && !View(start.rows, h).Checkpoint() && !Terminal(View(start.rows, h).status) && MayPay(start, h)
  }

  /** What is left when the attempts end, with or without an answer. */
  ghost predicate Attempted(env: Env, start: State, t: State, h: nat) {
    h in start.invoices && Swapping(env, start, t, h)
  }

  lemma TriedStart(env: Env, s: State, h: nat, q: nat -> SwapReplies)
    requires !View(s.rows, h).Checkpoint() && !Terminal(View(s.rows, h).status) && MayPay(s, h)
    ensures h in s.invoices && Tried(env, s, s, h, q, 0, [])
  {
    CalmStart(s);
  }

  lemma TriedAllows(env: Env, start: State, t: State, h: nat, q: nat -> SwapReplies, n: nat, calls: seq<Action>)
    requires Tried(env, start, t, h, q, n, calls)
    ensures !View(t.rows, h).Checkpoint() && !Terminal(View(t.rows, h).status) && MayPay(t, h)
    ensures h in t.invoices && t.invoices[h] == start.invoices[h]
    ensures HeldFor(start.payouts, env.transferOf(h), h) ==> HeldFor(t.payouts, env.transferOf(h), h)
  {
    hide NoAnswer, Calls;
    SwapStillAllowed(start, t, h);
  }

  /** One more attempt: still only unlocked tasks and this payout. */
  lemma SwapTried(env: Env, start: State, mid: State, t: State, h: nat)
    requires h in start.invoices && h in mid.invoices && mid.invoices[h] == start.invoices[h]
    requires Swapping(env, start, mid, h) && Swapping(env, mid, t, h)
    ensures Swapping(env, start, t, h)
    ensures Taken(env, mid.payouts, h) ==> Taken(env, t.payouts, h)
  {
    CalmPaid(start, mid, t.payouts);
    CalmThrough(start.(payouts := t.payouts), mid.(payouts := t.payouts), t);
    CommitOnce(env, start, mid, h);
  }

  lemma TriedMore(env: Env, start: State, mid: State, t: State, h: nat, q: nat -> SwapReplies, n: nat,
                  calls: seq<Action>, asked: seq<Action>)
    requires Tried(env, start, mid, h, q, n, calls) && h in mid.invoices && mid.invoices[h] == start.invoices[h]
    requires Swapping(env, mid, t, h) && asked == Call(env, q(n), h, start.invoices[h])
    requires HeldFor(start.payouts, env.transferOf(h), h) ==> HeldFor(mid.payouts, env.transferOf(h), h)
    requires Missed(env, q(n), h, start.invoices[h], HeldFor(mid.payouts, env.transferOf(h), h), t.payouts)
    ensures Tried(env, start, t, h, q, n + 1, calls + asked)
  {
    hide Heard, Call, Taken, Swapping, MayPay, HeldFor;
    SwapTried(env, start, mid, t, h);
  }

  lemma AttemptedKeeps(env: Env, s: State, t: State, h: nat)
    requires Attempted(env, s, t, h)
    ensures OnlyReceive(s, h, t) && Marked(View(s.rows, h), View(t.rows, h))
    ensures t.payouts == s.payouts || t.payouts == Committed(env, s, h, true)
    ensures t.failed == s.failed && t.released == s.released && t.internal == s.internal
  {
    hide Committed;
    CalmIsOnlyReceive(s, h, t);
    assert Marked(View(s.rows, h), View(t.rows, h));
  }

  lemma TriedEnds(k: Ask, start: State, t: State, calls: seq<Action>, r: Outcome<SwapReply>)
    requires Tried(k.env, start, t, k.h, k.q.swaps, 5, calls) && k.i == start.invoices[k.h]
    requires k.held == HeldFor(start.payouts, k.env.transferOf(k.h), k.h)
    requires r.Err? && r.error == Cause(Heard(k.env, k.q.swaps(4), k.h, k.i))
    ensures Attempted(k.env, start, t, k.h) && Swapped(k, t.payouts, 5, calls, r)
  {
    hide Heard, Calls, Missed, MayPay;
  }

  lemma TriedLast(k: Ask, start: State, mid: State, t: State, n: nat, calls: seq<Action>, asked: seq<Action>,
                  r: Outcome<SwapReply>)
    requires Tried(k.env, start, mid, k.h, k.q.swaps, n, calls) && k.i == start.invoices[k.h]
    requires k.held == HeldFor(start.payouts, k.env.transferOf(k.h), k.h)
    requires k.h in mid.invoices && mid.invoices[k.h] == start.invoices[k.h]
    requires Swapping(k.env, mid, t, k.h) && asked == Call(k.env, k.q.swaps(n), k.h, k.i) && n < 5
    ensures Attempted(k.env, start, t, k.h)
    ensures r.Ok? && r == Heard(k.env, k.q.swaps(n), k.h, k.i) ==> Swapped(k, t.payouts, n, calls + asked, r)
  {
    hide Heard, Call, Taken, Swapping, MayPay, HeldFor;
    SwapTried(k.env, start, mid, t, k.h);
    forall j: nat | j < n ensures Missed(k.env, k.q.swaps(j), k.h, k.i, k.held, t.payouts) {
      assert Missed(k.env, k.q.swaps(j), k.h, k.i, k.held, mid.payouts);
    }
  }

  lemma NotSwapped(k: Ask, payouts: map<nat, Payout>, n: nat, calls: seq<Action>, r: Outcome<SwapReply>)
    ensures r.Crashed? ==> Swapped(k, payouts, n, calls, r)
  {
  }

  lemma FundingBy(k: Ask, payouts: map<nat, Payout>, n: nat, calls: seq<Action>, swapped: Outcome<SwapReply>,
                  rest: seq<Action>, r: Outcome<()>)
    requires Swapped(k, payouts, n, calls, swapped) && Concluded(k, swapped, rest, r)
    ensures Funding(k, payouts, calls + rest, r)
  {
  }

  lemma NotedOnly(h: nat, payment: nat, e: Error, fails: nat -> Outcome<()>)
    ensures e != Liquidity ==> Unpaid([SetStatus(h, TransferCreationFailed)], h, payment, e, fails)
  {
  }

  lemma ReleasedToo(released: seq<Action>, h: nat, payment: nat, fails: nat -> Outcome<()>)
    requires Release(released, h, payment, fails)
    ensures Unpaid([SetStatus(h, TransferCreationFailed)] + released, h, payment, Liquidity, fails)
  {
  }

  lemma PayingBy(k: Ask, v: Row, payouts: map<nat, Payout>, pays: seq<Action>, rest: seq<Action>, paid: Outcome<()>,
                 r: Outcome<bool>)
    requires FundedFirst(k, v, payouts, pays, paid) && ClaimedNext(k, v, rest, paid, r)
    ensures Paying(k, v, payouts, pays + rest, r)
  {
  }

  lemma VerifiedFirst(k: Local, payouts: map<nat, Payout>, rest: seq<Action>, r: Outcome<()>)
    requires k.q.verified.Ok? && LocalSwap(k, payouts, rest, r)
    ensures LocalFunding(k, payouts, [VerifySend(k.id)] + rest, r)
  {
    assert ([VerifySend(k.id)] + rest)[1..] == rest;
  }

  lemma Unverified(k: Local, payouts: map<nat, Payout>)
    requires !k.q.verified.Ok?
    ensures LocalFunding(k, payouts, [], k.q.verified)
  {
  }

  lemma LocalPaymentBy(k: Local, v: Row, payouts: map<nat, Payout>, pays: seq<Action>, rest: seq<Action>,
                       funded: Outcome<()>, r: Outcome<()>)
    requires FundedLocally(k, v, payouts, pays, funded) && CollectedNext(k, v, rest, funded, r)
    ensures LocalPayment(k, v, payouts, pays + rest, r)
  {
  }

  lemma PayingAlike(k: Ask, v: Row, w: Row, payouts: map<nat, Payout>, steps: seq<Action>, r: Outcome<bool>)
    requires Paying(k, v, payouts, steps, r) && SameAnswer(v, w)
    ensures Paying(k, w, payouts, steps, r)
  {
    var pays, rest, paid: Outcome<()> :|
      FundedFirst(k, v, payouts, pays, paid) && ClaimedNext(k, v, rest, paid, r) && steps == pays + rest;
    assert FundedFirst(k, w, payouts, pays, paid) && ClaimedNext(k, w, rest, paid, r);
  }

  lemma SettlingRefused(k: Ask, v: Row, actual: u64, payouts: map<nat, Payout>, r: Outcome<bool>)
    requires actual > I64_MAX && r == Err(Rejected)
    ensures Settling(k, v, actual, payouts, [], r)
  {
  }

  lemma SettlingBy(k: Ask, w: Row, v: Row, actual: u64, payouts: map<nat, Payout>, rest: seq<Action>, r: Outcome<bool>)
    requires actual <= I64_MAX && Bounded(k, w, actual, payouts, rest, r) && SameAnswer(v, w)
    ensures Settling(k, v, actual, payouts, [Bind(k.h, k.payment)] + rest, r)
  {
    hide Release, Paying;
    assert ([Bind(k.h, k.payment)] + rest)[1..] == rest;
    if actual == 1000 * k.i.sats {
      PayingAlike(k, w, v, payouts, rest, r);
    }
  }

  lemma SettlingAlike(k: Ask, v: Row, w: Row, actual: u64, payouts: map<nat, Payout>, steps: seq<Action>,
                      r: Outcome<bool>)
    requires Settling(k, v, actual, payouts, steps, r) && SameAnswer(v, w)
    ensures Settling(k, w, actual, payouts, steps, r)
  {
    hide Paying, Release;
    if actual <= I64_MAX && actual == 1000 * k.i.sats {
      PayingAlike(k, v, w, payouts, steps[1..], r);
    }
  }

  class ReceiveService {
    const env: Env
    // lightning_receives, receive_payments, internal_payments, local lightning_sends
    var invoices: map<nat, Invoice>
    var rows: map<nat, Row>
    var internal: map<nat, nat>
    var sends: map<nat, Send>
    // The invoices whose issuing request is still being handled.
    var live: set<nat>
    // The transfers that the operators hold, by transfer id.
    var payouts: map<nat, Payout>
    ghost var claims: set<ClaimCall>
    ghost var collected: set<nat>
    // The HTLC that the holder of the lock is failing, those it asked LDK to
    // fail, and those that LDK reported as failed.
    ghost var failing: Option<nat>
    ghost var failed: set<nat>
    ghost var released: set<nat>
    ghost var lost: set<nat>
    ghost var verified: set<nat>
    ghost var settled: map<nat, nat>
    ghost var run: seq<Action>

    ghost function Now(): State
      reads this
    {
      State(invoices, rows, internal, sends, live, payouts, claims, collected, failing, failed, released, lost,
            verified, settled)
    }

    /** The tables and the world are where a legal run of steps leads. */
    ghost predicate Traced()
      reads this
    {
      Legal(env, run) && After(env, run) == Now()
    }

    ghost predicate Valid()
      reads this
    {
      Traced() && failing.None?
    }

    ghost function Mine(): seq<Action>
      reads this
    {
      Own(run)
    }

    ghost function LocalFor(id: nat, q: LocalReplies): Local
      requires id in sends
      reads this
    {
      Local(env, id, sends[id].hash, InvoiceOf(invoices, sends[id].hash),
            HeldFor(payouts, env.transferOf(sends[id].hash), sends[id].hash), q)
    }

    ghost function AskFor(h: nat, payment: nat, q: HtlcReplies): Ask
      reads this
    {
      Ask(env, h, payment, InvoiceOf(invoices, h), HeldFor(payouts, env.transferOf(h), h), q)
    }

    constructor (env: Env)
      ensures Valid() && run == [] && this.env == env
    {
      this.env := env;
      invoices, rows, internal, sends, live, payouts := map[], map[], map[], map[], {}, map[];
      claims, collected, failing, failed, released, lost := {}, {}, None, {}, {}, {};
      verified, settled, run := {}, map[], [];
    }

    ghost method Did(a: Action, before: State)
      requires Legal(env, run) && After(env, run) == before && Enabled(env, before, a) && Now() == Apply(env, before, a)
      modifies this`run
      ensures Traced() && run == old(run) + [a]
      ensures Mine() == if Unlocked(a) then old(Mine()) else old(Mine()) + [a]
    {
      hide Own;
      Extend(env, run, a);
      OwnStep(run, a);
      run := run + [a];
    }

    // ---- Tasks that do not take the lock ----

    method Others()
      requires Traced()
      modifies this`invoices, this`rows, this`sends, this`live, this`run
      ensures Traced() && old(run) <= run && Calm(old(Now()), Now()) && Mine() == old(Mine())
    {
      hide After, Legal, Own;
      var steps: seq<bool> := *;
      for i := 0 to |steps|
        invariant Traced() && old(run) <= run && Calm(old(Now()), Now()) && Mine() == old(Mine())
      {
        ghost var mid := Now();
        OtherStep();
        CalmThrough(old(Now()), mid, Now());
      }
    }

    method OtherStep()
      requires Traced()
      modifies this`invoices, this`rows, this`sends, this`live, this`run
      ensures Traced() && old(run) <= run && Calm(old(Now()), Now()) && Mine() == old(Mine())
    {
      hide After, Legal, Own;
      var marks: bool := *;
      var drops: bool := *;
      var h: nat := *;
      var inserts: bool := *;
      var i: Invoice := *;
      var id: nat := *;
      var send: Send := *;
      if marks {
        if h in invoices && h in live {
          SetIssued(h);
        }
      } else if drops {
        ghost var before := Now();
        live := live - {h};
        Did(DropRequest(h), before);
      } else if inserts {
        if FitsInvoice(EMPTY.(invoices := invoices), h, i) {
          InsertRequest(h, i);
        }
      } else if FitsSend(EMPTY.(sends := sends), id, send) && send.status == SendPrepared {
        PrepareSend(id, send);
      }
    }

    /** A request stores its invoice, and has its status still to write. */
    method InsertRequest(h: nat, i: Invoice)
      requires Traced() && FitsInvoice(Now(), h, i)
      modifies this`invoices, this`live, this`run
      ensures Traced() && run == old(run) + [Insert(h, i)] && Mine() == old(Mine())
      ensures invoices == old(invoices)[h := i] && live == old(live) + {h}
    {
      hide After, Legal, Own;
      ghost var before := Now();
      invoices, live := invoices[h := i], live + {h};
      Did(Insert(h, i), before);
    }

    method PrepareSend(id: nat, send: Send)
      requires Traced() && FitsSend(Now(), id, send) && send.status == SendPrepared
      modifies this`sends, this`run
      ensures Traced() && run == old(run) + [Prepare(id, send)] && Mine() == old(Mine())
      ensures sends == old(sends)[id := send]
    {
      hide After, Legal, Own;
      ghost var before := Now();
      sends := sends[id := send];
      Did(Prepare(id, send), before);
    }

    /** The request that issued the invoice writes its status without the lock. */
    method SetIssued(h: nat)
      requires Traced() && h in invoices && h in live
      modifies this`rows, this`live, this`run
      ensures Traced() && run == old(run) + [MarkIssued(h)] && Mine() == old(Mine())
      ensures rows == old(rows)[h := View(old(rows), h).(status := InvoiceCreated)] && live == old(live) - {h}
    {
      hide After, Legal, Own;
      ghost var before := Now();
      rows := rows[h := View(rows, h).(status := InvoiceCreated)];
      live := live - {h};
      Did(MarkIssued(h), before);
    }

    /** The process starts again, perhaps in the middle of failing an HTLC: what
        was committed stays, and no request is being handled any more. */
    method Restart()
      requires Traced()
      modifies this`live, this`failing, this`run
      ensures Valid() && run == old(run) + [Action.Restart] && live == {}
    {
      hide After, Legal, Own;
      ghost var before := Now();
      live, failing := {}, None;
      Did(Action.Restart, before);
    }

    // ---- One commit ----

    method MarkReceiveClaimable(h: nat, payment: nat, msat: u64) returns (r: Outcome<()>)
      requires Valid() && h in invoices && h !in internal && !Terminal(View(rows, h).status)
      requires env.paymentHash(payment) == h && msat == env.amountOf(payment)
      modifies this`rows, this`run
      ensures Valid() && old(run) <= run
      ensures OnlyReceive(old(Now()), h, Now())
      ensures rows == old(rows) || rows == old(rows)[h := Bound(View(old(rows), h), payment, msat)]
      ensures r.Ok? ==> rows == old(rows)[h := Bound(View(old(rows), h), payment, msat)]
      ensures r.Ok? ==> Mine() == old(Mine()) + [Bind(h, payment)]
      ensures r.Err? ==> run == old(run) && r == Err(Rejected)
      ensures r.Err? <==>
        !r.Crashed? && (msat >= 0x8000_0000_0000_0000 || !(View(old(rows), h).payment in {None, Some(payment)}))
      ensures r.Err? ==> rows == old(rows)
      ensures rows != old(rows) ==> View(old(rows), h).payment in {None, Some(payment)}
    {
      hide After, Legal, Own;
      var dies: bool := *;
      var committed: bool := *;
      if dies && !committed {
        return Crashed;
      }
      if msat > I64_MAX || (View(rows, h).payment.Some? && View(rows, h).payment != Some(payment)) {
        return if dies then Crashed else Err(Rejected);
      }
      Holds(h);
      ghost var before := Now();
      rows := rows[h := Bound(View(rows, h), payment, msat)];
      Did(Bind(h, payment), before);
      r := if dies then Crashed else Ok(());
    }

    /** The operator's answer becomes durable in one commit. */
    method CommitLightningReceiveSwap(h: nat, preimage: nat) returns (r: Outcome<()>)
      requires Valid() && !View(rows, h).Checkpoint() && !Terminal(View(rows, h).status) && MayPay(Now(), h)
      requires HeldFor(payouts, env.transferOf(h), h) && env.hashOf(preimage) == h
      modifies this`rows, this`run
      ensures Valid() && old(run) <= run
      ensures OnlyReceive(old(Now()), h, Now())
      ensures rows == old(rows) || rows == old(rows)[h := NextRow(env, CommitSwap(h, preimage), h, View(old(rows), h))]
      ensures r.Ok? ==> View(rows, h) == NextRow(env, CommitSwap(h, preimage), h, View(old(rows), h))
      ensures r.Ok? ==> Mine() == old(Mine()) + [CommitSwap(h, preimage)]
      ensures r.Ok? || r.Crashed?
    {
      hide After, Legal, Own;
      var dies: bool := *;
      var committed: bool := *;
      if dies && !committed {
        return Crashed;
      }
      ghost var before := Now();
      rows := rows[h := View(rows, h).(
        status := PreimageRecovered, transfer := Some(env.transferOf(h)), preimage := Some(preimage))];
      Did(CommitSwap(h, preimage), before);
      r := if dies then Crashed else Ok(());
    }

    method MarkReceiveClaimSubmitted(h: nat) returns (r: Outcome<()>)
      requires Valid() && HtlcBound(Now(), h) && View(rows, h).Checkpoint() && !Terminal(View(rows, h).status)
      requires h in collected && exists c :: c in claims && c.hash == h
      modifies this`rows, this`run
      ensures Valid() && old(run) <= run
      ensures OnlyReceive(old(Now()), h, Now())
      ensures rows == old(rows) || rows == old(rows)[h := NextRow(env, MarkClaimed(h), h, View(old(rows), h))]
      ensures if r.Ok? then View(rows, h) == NextRow(env, MarkClaimed(h), h, View(old(rows), h)) else r.Crashed?
      ensures r.Ok? ==> Mine() == old(Mine()) + [MarkClaimed(h)]
    {
      hide After, Legal, Own;
      var dies: bool := *;
      var committed: bool := *;
      if dies && !committed {
        return Crashed;
      }
      ghost var before := Now();
      rows := rows[h := View(rows, h).(status := PreimageRecovered, claimSubmitted := true)];
      Did(MarkClaimed(h), before);
      r := if dies then Crashed else Ok(());
    }

    method SetReceiveStatus(h: nat, status: Status) returns (r: Outcome<()>)
      requires Valid() && Unfunded(Now(), h) && Failure(status)
      requires status == HtlcFailed && View(rows, h).payment.Some? ==> View(rows, h).payment.value in released
      modifies this`rows, this`run
      ensures Valid() && old(run) <= run
      ensures OnlyReceive(old(Now()), h, Now())
      ensures rows == old(rows) || rows == old(rows)[h := View(old(rows), h).(status := status)]
      ensures if r.Ok? then View(rows, h) == View(old(rows), h).(status := status) else r.Crashed?
      ensures Mine() == old(Mine()) || Mine() == old(Mine()) + [SetStatus(h, status)]
      ensures r.Ok? ==> Mine() == old(Mine()) + [SetStatus(h, status)]
    {
      hide After, Legal, Own;
      var dies: bool := *;
      var committed: bool := *;
      if dies && !committed {
        return Crashed;
      }
      ghost var before := Now();
      rows := rows[h := View(rows, h).(status := status)];
      Did(SetStatus(h, status), before);
      r := if dies then Crashed else Ok(());
    }

    // ---- Outside calls ----

    /** LDK fails the HTLC of this payment id, whatever became of the replies.
        The decision was made under the lock that is still held. */
    method FailReceive(payment: nat, fails: nat -> Outcome<()>) returns (r: Outcome<()>, ghost steps: seq<Action>)
      requires Valid() && MayReject(env, Now(), payment)
      modifies this`invoices, this`rows, this`sends, this`live, this`failing, this`failed, this`released, this`run
      ensures Valid() && old(run) <= run
      ensures Calm(old(Now()).(failed := failed, released := released), Now())
      ensures failed == old(failed) + {payment}
      ensures released == old(released) + if r.Ok? then {payment} else {}
      ensures !r.Crashed? ==> Mine() == old(Mine()) + steps && Rejection(steps, payment, r.Ok?)
      ensures !r.Crashed? ==> (r.Ok? <==> Succeeds(fails))
    {
      hide After, Legal, Own, MayReject, Calm, FailCalls, Rejection, Succeeds;
      ghost var start := Now().(failing := Some(payment));
      Decide(payment);
      CalmStart(start);
      ghost var calls: seq<Action>;
      r, calls := AskToFail(payment, fails);
      ghost var asked := Now();
      Conclude();
      CalmConclude(start.(failed := failed, released := released), asked);
      steps := [Reject(payment)] + calls + [EndReject];
      if !r.Crashed? {
        RejectedBy(calls, payment, r.Ok?);
      }
    }

    /** Five calls at most, until LDK confirms. */
    method AskToFail(payment: nat, fails: nat -> Outcome<()>) returns (r: Outcome<()>, ghost calls: seq<Action>)
      requires Traced() && failing == Some(payment)
      modifies this`invoices, this`rows, this`sends, this`live, this`failed, this`released, this`run
      ensures Traced() && old(run) <= run && failing == Some(payment)
      ensures Calm(old(Now()).(failed := failed, released := released), Now())
      ensures failed == old(failed) + {payment}
      ensures released == old(released) + if r.Ok? then {payment} else {}
      ensures Mine() == old(Mine()) + calls
      ensures !r.Crashed? ==> FailCalls(calls, payment, r.Ok?) && (r.Ok? <==> Succeeds(fails))
    {
      hide After, Legal, Own, Calm, FailAsked, Counts, Succeeds;
      ghost var start := Now();
      CalmStart(start);
      var attempt := 0;
      calls := [];
      r := Err(Unavailable);
      NoCallYet(fails, r);
      while attempt < ATTEMPTS && r.Err?
        invariant Traced() && old(run) <= run && attempt == |calls| <= ATTEMPTS && failing == Some(payment)
        invariant attempt == 0 ==> r.Err?
        invariant forall k :: 0 <= k < |calls| ==> calls[k] == CallFail(payment, r.Ok? && k == |calls| - 1)
        invariant Mine() == old(Mine()) + calls
        invariant failed == if attempt == 0 then old(failed) else old(failed) + {payment}
        invariant released == old(released) + if r.Ok? then {payment} else {}
        invariant Counts(fails, attempt, r)
        invariant Calm(start.(failed := failed, released := released), Now())
      {
        ghost var mid := Now();
        ghost var last := r;
        r := AttemptFail(payment, fails(attempt));
        CountsMore(fails, attempt, last, r);
        CalmAttempt(start, mid, Now(), payment, r.Ok?);
        calls := calls + [CallFail(payment, r.Ok?)];
        attempt := attempt + 1;
      }
      Counted(fails, attempt, r);
    }

    ghost method Decide(payment: nat)
      requires Valid() && MayReject(env, Now(), payment)
      modifies this`failing, this`run
      ensures Traced() && old(run) <= run && Now() == old(Now()).(failing := Some(payment))
      ensures Mine() == old(Mine()) + [Reject(payment)]
    {
      hide After, Legal, Own;
      var before := Now();
      failing := Some(payment);
      Did(Reject(payment), before);
    }

    ghost method Conclude()
      requires Traced()
      modifies this`failing, this`run
      ensures Valid() && old(run) <= run && Now() == old(Now()).(failing := None)
      ensures Mine() == old(Mine()) + [EndReject]
    {
      hide After, Legal, Own;
      var before := Now();
      failing := None;
      Did(EndReject, before);
    }

    method AttemptFail(payment: nat, reply: Outcome<()>) returns (r: Outcome<()>)
      requires Traced() && failing == Some(payment)
      modifies this`invoices, this`rows, this`sends, this`live, this`failed, this`released, this`run
      ensures Traced() && old(run) <= run && failing == Some(payment)
      ensures Calm(FailAsked(old(Now()), payment, r.Ok?), Now())
      ensures Mine() == old(Mine()) + [CallFail(payment, r.Ok?)]
      ensures (r.Ok? <==> reply.Ok?) && (r.Err? <==> reply.Err?)
    {
      hide After, Legal, Own;
      Others();
      ghost var waited := Now();
      r := reply;
      failed := failed + {payment};
      released := released + if r.Ok? then {payment} else {};
      Did(CallFail(payment, r.Ok?), waited);
      ghost var asked := Now();
      Others();
      CalmThrough(FailAsked(old(Now()), payment, r.Ok?), asked, Now());
    }

    /** Pay the receiver and redeem the preimage in one operator call. A transfer
        committed under this invoice's id by an earlier call is found again. */
    method SwapForLightningReceive(h: nat, q: SwapReplies) returns (r: Outcome<SwapReply>, ghost steps: seq<Action>)
      requires Valid() && !View(rows, h).Checkpoint() && !Terminal(View(rows, h).status) && MayPay(Now(), h)
      modifies this`payouts, this`run
      ensures Valid() && old(run) <= run
      ensures payouts == old(payouts) || payouts == Committed(env, old(Now()), h, true)
      ensures r.Ok? ==> HeldFor(payouts, env.transferOf(h), h) && r.value.transfer == env.transferOf(h)
      ensures r.Ok? ==> env.hashOf(r.value.preimage) == h && r.value.sats == invoices[h].sats
      ensures r.Ok? ==> r == Heard(env, q, h, invoices[h])
      ensures r.Err? ==> Missed(env, q, h, invoices[h], HeldFor(old(payouts), env.transferOf(h), h), payouts)
      ensures r.Err? ==> r.error == Cause(Heard(env, q, h, invoices[h]))
      ensures r.Crashed? ==> Heard(env, q, h, invoices[h]).Crashed?
      ensures Mine() == old(Mine()) + steps && steps == Call(env, q, h, invoices[h])
      ensures payouts == if steps == [] then old(payouts) else Committed(env, old(Now()), h, steps[0].commits)
    {
      hide After, Legal, Own;
      steps := [];
      var i := invoices[h];
      if !q.found.Ok? {
        return q.found.PropagateFailure(), [];
      }
      match q.found.value {
        case Some(swap) =>
          if !ValidateReceiveSwap(env, swap, h, i) {
            return Err(Mismatch), [];
          }
          // The operators only report transfers that they hold.
          return if HeldFor(payouts, env.transferOf(h), h) then Ok(swap) else Err(Unavailable), [];
        case None =>
      }
      if !q.liquidity.Ok? {
        return q.liquidity.PropagateFailure(), [];
      }
      var valid := q.reply.Ok? && ValidateReceiveSwap(env, q.reply.value, h, i);
      AskOperators(h, q.commits || valid);
      steps := [CallSwap(h, q.commits || valid)];
      if !q.reply.Ok? {
        r := q.reply;
      } else if !valid {
        r := Err(Mismatch);
      } else {
        r := if HeldFor(payouts, env.transferOf(h), h) then q.reply else Err(Unavailable);
      }
    }

    /** The operators commit the transfer, or do not. */
    method AskOperators(h: nat, commits: bool)
      requires Valid() && !View(rows, h).Checkpoint() && !Terminal(View(rows, h).status) && MayPay(Now(), h)
      modifies this`payouts, this`run
      ensures Valid() && old(run) <= run && h in invoices
      ensures payouts == Committed(env, old(Now()), h, commits)
      ensures Mine() == old(Mine()) + [CallSwap(h, commits)]
    {
      hide After, Legal, Own;
      ghost var before := Now();
      if commits && env.transferOf(h) !in payouts {
        payouts := payouts[env.transferOf(h) := Payout(h, invoices[h].receiver, invoices[h].sats)];
      }
      Did(CallSwap(h, commits), before);
    }

    /** One attempt, and what the unlocked tasks do while it is waited for. */
    method AttemptSwap(h: nat, q: SwapReplies) returns (r: Outcome<SwapReply>, ghost steps: seq<Action>)
      requires Valid() && !View(rows, h).Checkpoint() && !Terminal(View(rows, h).status) && MayPay(Now(), h)
      modifies this`invoices, this`rows, this`sends, this`live, this`payouts, this`run
      ensures Valid() && old(run) <= run
      ensures Swapping(env, old(Now()), Now(), h)
      ensures r.Ok? ==> HeldFor(payouts, env.transferOf(h), h) && r.value.transfer == env.transferOf(h)
      ensures r.Ok? ==> env.hashOf(r.value.preimage) == h
      ensures r.Ok? ==> r == Heard(env, q, h, old(invoices)[h])
      ensures r.Err? ==> Missed(env, q, h, old(invoices)[h], HeldFor(old(payouts), env.transferOf(h), h), payouts)
      ensures r.Err? ==> r.error == Cause(Heard(env, q, h, old(invoices)[h]))
      ensures Mine() == old(Mine()) + steps && steps == Call(env, q, h, old(invoices)[h])
    {
      hide After, Legal, Own, Committed, Heard, Call, Missed, Calm;
      r, steps := SwapForLightningReceive(h, q);
      Others();
    }

    /** The swap is tried five times; a lost reply is followed by another attempt. */
    method SwapReceive(h: nat, q: nat -> SwapReplies, ghost k: Ask)
      returns (r: Outcome<SwapReply>, ghost n: nat, ghost steps: seq<Action>)
      requires Valid() && !View(rows, h).Checkpoint() && !Terminal(View(rows, h).status) && MayPay(Now(), h)
      requires k == Ask(env, h, k.payment, invoices[h], HeldFor(payouts, env.transferOf(h), h), k.q) && k.q.swaps == q
      modifies this`invoices, this`rows, this`sends, this`live, this`payouts, this`run
      ensures Valid() && old(run) <= run
      ensures Attempted(env, old(Now()), Now(), h)
      ensures r.Ok? ==> HeldFor(payouts, env.transferOf(h), h) && r.value.transfer == env.transferOf(h)
      ensures r.Ok? ==> env.hashOf(r.value.preimage) == h
      ensures Swapped(k, payouts, n, steps, r)
      ensures Mine() == old(Mine()) + steps
    {
      hide After, Legal, Own, Committed, Heard, Call, Calls, Missed, HeldFor, Taken, MayPay, NoAnswer, Tried;
      hide Attempted, Swapping, Swapped, Cause, View, Terminal;
      ghost var start := Now();
      TriedStart(env, start, h, q);
      r := Err(Unavailable);
      n, steps := 5, [];
      for attempt := 0 to ATTEMPTS
        invariant Valid() && old(run) <= run && r.Err?
        invariant Tried(env, start, Now(), h, q, attempt, steps)
        invariant attempt > 0 ==> r.error == Cause(Heard(env, q(attempt - 1), h, k.i))
        invariant Mine() == old(Mine()) + steps
      {
        ghost var mid := Now();
        TriedAllows(env, start, mid, h, q, attempt, steps);
        ghost var asked: seq<Action>;
        r, asked := AttemptSwap(h, q(attempt));
        TriedLast(k, start, mid, Now(), attempt, steps, asked, r);
        if r.Err? {
          TriedMore(env, start, mid, Now(), h, q, attempt, steps, asked);
        }
        steps := steps + asked;
        if !r.Err? {
          n := attempt;
          NotSwapped(k, payouts, n, steps, r);
          return;
        }
      }
      TriedEnds(k, start, Now(), steps, r);
    }

    /** LDK claims the bound HTLC with the stored preimage. */
    method ClaimReceive(h: nat, claiming: nat -> Outcome<()>) returns (r: Outcome<()>, ghost calls: seq<Action>)
      requires Valid() && HtlcBound(Now(), h) && View(rows, h).Checkpoint() && !Terminal(View(rows, h).status)
      modifies this`invoices, this`rows, this`sends, this`live, this`claims, this`collected, this`run
      ensures Valid() && old(run) <= run
      ensures claims == old(claims) + {ClaimOf(View(old(rows), h), h)}
      ensures collected == old(collected) + if r.Ok? then {h} else {}
      ensures Calm(old(Now()).(claims := claims, collected := collected), Now())
      ensures !r.Crashed? ==> Mine() == old(Mine()) + calls && ClaimCalls(calls, h, r.Ok?)
      ensures !r.Crashed? ==> (r.Ok? <==> Succeeds(claiming))
    {
      hide After, Legal, Own, Calm, HtlcBound, ClaimOf, View, Terminal, ClaimAsked, Counts, Succeeds;
      ghost var start := Now();
      HasInvoice(start, h);
      ghost var call := ClaimOf(View(rows, h), h);
      CalmStart(start);
      var attempt := 0;
      calls := [];
      r := Err(Unavailable);
      NoCallYet(claiming, r);
      while attempt < ATTEMPTS && r.Err?
        invariant Valid() && old(run) <= run && attempt == |calls| <= ATTEMPTS
        invariant attempt == 0 ==> r.Err?
        invariant forall k :: 0 <= k < |calls| ==> calls[k] == CallClaim(h, r.Ok? && k == |calls| - 1)
        invariant Mine() == old(Mine()) + calls
        invariant claims == if attempt == 0 then old(claims) else old(claims) + {call}
        invariant collected == old(collected) + if r.Ok? then {h} else {}
        invariant Counts(claiming, attempt, r)
        invariant Calm(start.(claims := claims, collected := collected), Now())
      {
        ghost var mid := Now();
        ghost var last := r;
        ClaimStillAllowed(start, mid, h);
        r := AttemptClaim(h, claiming(attempt));
        CountsMore(claiming, attempt, last, r);
        CalmClaim(start, mid, Now(), h, call, r.Ok?);
        calls := calls + [CallClaim(h, r.Ok?)];
        attempt := attempt + 1;
      }
      Counted(claiming, attempt, r);
    }

    method AttemptClaim(h: nat, reply: Outcome<()>) returns (r: Outcome<()>)
      requires Valid() && HtlcBound(Now(), h) && View(rows, h).Checkpoint() && !Terminal(View(rows, h).status)
      modifies this`invoices, this`rows, this`sends, this`live, this`claims, this`collected, this`run
      ensures Valid() && old(run) <= run
      ensures Calm(ClaimAsked(old(Now()), h, ClaimOf(View(old(rows), h), h), r.Ok?), Now())
      ensures Mine() == old(Mine()) + [CallClaim(h, r.Ok?)]
      ensures (r.Ok? <==> reply.Ok?) && (r.Err? <==> reply.Err?)
    {
      hide After, Legal, Own, Calm, HtlcBound, ClaimOf, ClaimAsked, View, Terminal;
      ghost var start := Now();
      HasInvoice(start, h);
      Others();
      ghost var waited := Now();
      CalmStart(start);
      ClaimStillAllowed(start, waited, h);
      r := AskClaim(h, reply);
      ghost var asked := Now();
      CalmClaimed(start, waited, h, ClaimOf(View(start.rows, h), h), r.Ok?);
      Others();
      CalmThrough(ClaimAsked(start, h, ClaimOf(View(start.rows, h), h), r.Ok?), asked, Now());
    }

    method AskClaim(h: nat, reply: Outcome<()>) returns (r: Outcome<()>)
      requires Valid() && HtlcBound(Now(), h) && View(rows, h).Checkpoint() && !Terminal(View(rows, h).status)
      modifies this`claims, this`collected, this`run
      ensures Valid() && old(run) <= run
      ensures Now() == ClaimAsked(old(Now()), h, ClaimOf(View(rows, h), h), r.Ok?)
      ensures Mine() == old(Mine()) + [CallClaim(h, r.Ok?)]
      ensures (r.Ok? <==> reply.Ok?) && (r.Err? <==> reply.Err?)
    {
      hide After, Legal, Own;
      r := reply;
      ghost var before := Now();
      claims := claims + {ClaimOf(View(rows, h), h)};
      collected := collected + if r.Ok? then {h} else {};
      Did(CallClaim(h, r.Ok?), before);
    }

    // ---- External HTLCs ----

    /** Fail the HTLC and, once LDK confirmed it, close the invoice. */
    method FailUnfundedReceive(h: nat, payment: nat, fails: nat -> Outcome<()>)
      returns (r: Outcome<()>, ghost steps: seq<Action>)
      requires Valid() && Unfunded(Now(), h) && View(rows, h).payment == Some(payment) && env.paymentHash(payment) == h
      modifies this`invoices, this`rows, this`sends, this`live, this`failing, this`failed, this`released, this`run
      ensures Valid() && old(run) <= run && !r.Err?
      ensures OnlyReceive(old(Now()), h, Now()) && payment in failed && old(failed) <= failed
      ensures SameButStatus(View(old(rows), h), View(rows, h))
      ensures View(rows, h).status in {View(old(rows), h).status, InvoiceCreated, HtlcFailed}
      ensures payment !in released && View(old(rows), h).status != HtlcFailed ==> View(rows, h).status != HtlcFailed
      ensures r.Ok? ==> Mine() == old(Mine()) + steps && Release(steps, h, payment, fails)
    {
      hide After, Legal, Own, OnlyReceive, Rejection, Succeeds;
      var failure, turned := FailReceive(payment, fails);
      ghost var mid := Now();
      CalmIsOnlyReceive(old(Now()), h, mid);
      assert Marked(View(old(rows), h), View(rows, h));
      steps := turned;
      r := if failure.Crashed? then Crashed else Ok(());
      if failure.Ok? {
        var saved := SetReceiveStatus(h, HtlcFailed);
        OnlyReceiveThrough(old(Now()), h, mid, Now());
        r := if saved.Crashed? then Crashed else Ok(());
        steps := turned + [SetStatus(h, HtlcFailed)];
      }
    }

    /** Obtain the preimage by paying the receiver, and store both. An error may
        hide a committed transfer, so only a definite shortage fails the HTLC;
        after any other one the HTLC is kept and the failure is noted. */
    method FundReceive(h: nat, payment: nat, q: HtlcReplies) returns (r: Outcome<()>, ghost steps: seq<Action>)
      requires Valid() && HtlcBound(Now(), h) && !View(rows, h).Checkpoint() && !Terminal(View(rows, h).status)
      requires View(rows, h).payment == Some(payment) && env.paymentHash(payment) == h
      modifies this`invoices, this`rows, this`sends, this`live, this`payouts
      modifies this`failing, this`failed, this`released, this`run
      ensures Valid() && old(run) <= run
      ensures OnlyReceive(old(Now()), h, Now())
      ensures payouts == old(payouts) || payouts == Committed(env, old(Now()), h, true)
      ensures r.Ok? ==> View(rows, h).Checkpoint() && View(rows, h).status == PreimageRecovered
      ensures r.Ok? ==> View(rows, h).claimSubmitted == View(old(rows), h).claimSubmitted
      ensures failed != old(failed) ==> r == Err(Liquidity) || r.Crashed?
      ensures r == Err(Liquidity) ==> payment in failed
      ensures r.Err? && r != Err(Liquidity) ==> failed == old(failed) && released == old(released)
      ensures r.Err? && r != Err(Liquidity) ==> View(rows, h).status == TransferCreationFailed
      ensures r == Err(Liquidity) && payment !in released ==> View(rows, h).status != HtlcFailed
      ensures r.Ok? ==> env.hashOf(View(rows, h).preimage.value) == h
      ensures !r.Crashed? ==>
        Mine() == old(Mine()) + steps && Funding(old(AskFor(h, payment, q)), payouts, steps, r)
    {
      hide After, Legal, Own, Committed, OnlyReceive, Funding, Concluded, Swapped, Attempted, HtlcBound, MayPay;
      HasInvoice(Now(), h);
      ghost var k := AskFor(h, payment, q);
      ghost var n: nat;
      ghost var asked: seq<Action>;
      var swapped: Outcome<SwapReply>;
      swapped, n, asked := SwapReceive(h, q.swaps, k);
      ghost var mid := Now();
      AttemptedKeeps(env, old(Now()), mid, h);
      StillBound(old(Now()), h, mid);
      steps := asked;
      if swapped.Crashed? {
        return Crashed, asked;
      }
      ghost var rest: seq<Action>;
      r, rest := ConcludeSwap(h, payment, swapped, q.fails, k);
      OnlyReceiveThrough(old(Now()), h, mid, Now());
      steps := asked + rest;
      if !r.Crashed? {
        FundingBy(k, payouts, n, asked, swapped, rest, r);
      }
    }

    /** What the attempts led to is stored. */
    method ConcludeSwap(h: nat, payment: nat, swapped: Outcome<SwapReply>, fails: nat -> Outcome<()>, ghost k: Ask)
      returns (r: Outcome<()>, ghost rest: seq<Action>)
      requires Valid() && HtlcBound(Now(), h) && !View(rows, h).Checkpoint() && !Terminal(View(rows, h).status)
      requires View(rows, h).payment == Some(payment) && env.paymentHash(payment) == h && !swapped.Crashed?
      requires swapped.Ok? ==> HeldFor(payouts, env.transferOf(h), h) && env.hashOf(swapped.value.preimage) == h
      requires k.h == h && k.payment == payment && k.q.fails == fails
      modifies this`invoices, this`rows, this`sends, this`live, this`failing, this`failed, this`released, this`run
      ensures Valid() && old(run) <= run
      ensures OnlyReceive(old(Now()), h, Now())
      ensures r.Ok? ==> View(rows, h).Checkpoint() && View(rows, h).status == PreimageRecovered
      ensures r.Ok? ==> View(rows, h).claimSubmitted == View(old(rows), h).claimSubmitted
      ensures r.Ok? ==> env.hashOf(View(rows, h).preimage.value) == h
      ensures failed != old(failed) ==> r == Err(Liquidity) || r.Crashed?
      ensures r == Err(Liquidity) ==> payment in failed
      ensures r.Err? && r != Err(Liquidity) ==> failed == old(failed) && released == old(released)
      ensures r.Err? && r != Err(Liquidity) ==> View(rows, h).status == TransferCreationFailed
      ensures r == Err(Liquidity) && payment !in released ==> View(rows, h).status != HtlcFailed
      ensures !r.Crashed? ==> Mine() == old(Mine()) + rest && Concluded(k, swapped, rest, r)
    {
      hide After, Legal, Own, OnlyReceive, Unpaid;
      match swapped {
        case Err(e) => r, rest := CloseUnpaid(h, payment, e, fails);
        case Ok(swap) => r, rest := StoreAnswer(h, swap);
      }
    }

    /** The operators' answer is stored if its preimage is the invoice's. */
    method StoreAnswer(h: nat, swap: SwapReply) returns (r: Outcome<()>, ghost steps: seq<Action>)
      requires Valid() && HtlcBound(Now(), h) && !View(rows, h).Checkpoint() && !Terminal(View(rows, h).status)
      requires HeldFor(payouts, env.transferOf(h), h)
      modifies this`rows, this`run
      ensures Valid() && old(run) <= run
      ensures OnlyReceive(old(Now()), h, Now())
      ensures r.Ok? ==> View(rows, h) == View(old(rows), h).(
        status := PreimageRecovered, transfer := Some(env.transferOf(h)), preimage := Some(swap.preimage))
      ensures r.Ok? ==> env.hashOf(swap.preimage) == h
      ensures r.Err? ==> env.hashOf(swap.preimage) != h
      ensures r.Err? ==> r == Err(Mismatch) && View(rows, h) == View(old(rows), h).(status := PreimageRecoveryFailed)
      ensures r.Ok? ==> Mine() == old(Mine()) + steps && steps == [CommitSwap(h, swap.preimage)]
      ensures r.Err? ==> Mine() == old(Mine()) + steps && steps == [SetStatus(h, PreimageRecoveryFailed)]
    {
      hide After, Legal, Own, OnlyReceive;
      if env.hashOf(swap.preimage) != h {
        r := SetReceiveStatus(h, PreimageRecoveryFailed);
        r := if r.Ok? then Err(Mismatch) else Crashed;
        steps := [SetStatus(h, PreimageRecoveryFailed)];
      } else {
        r := CommitLightningReceiveSwap(h, swap.preimage);
        steps := [CommitSwap(h, swap.preimage)];
      }
    }

    /** No payout is known: note it, and release the HTLC only if none can exist. */
    method CloseUnpaid(h: nat, payment: nat, e: Error, fails: nat -> Outcome<()>)
      returns (r: Outcome<()>, ghost steps: seq<Action>)
      requires Valid() && Unfunded(Now(), h) && View(rows, h).payment == Some(payment) && env.paymentHash(payment) == h
      modifies this`invoices, this`rows, this`sends, this`live, this`failing, this`failed, this`released, this`run
      ensures Valid() && old(run) <= run
      ensures OnlyReceive(old(Now()), h, Now()) && SameButStatus(View(old(rows), h), View(rows, h))
      ensures r == Err(e) || r.Crashed?
      ensures failed != old(failed) ==> e == Liquidity
      ensures r.Err? && e == Liquidity ==> payment in failed
      ensures e != Liquidity ==> failed == old(failed) && released == old(released)
      ensures r.Err? && e != Liquidity ==> View(rows, h).status == TransferCreationFailed
      ensures r.Err? && payment !in released ==> View(rows, h).status != HtlcFailed
      ensures r.Err? ==> Mine() == old(Mine()) + steps && Unpaid(steps, h, payment, e, fails)
    {
      hide After, Legal, Own, OnlyReceive, Release, Unpaid;
      NotedOnly(h, payment, e, fails);
      steps := [SetStatus(h, TransferCreationFailed)];
      var noted := SetReceiveStatus(h, TransferCreationFailed);
      if noted.Crashed? {
        return Crashed, steps;
      }
      r := Err(e);
      if e == Liquidity {
        ghost var mid := Now();
        OnlyKeeps(old(Now()), h, mid);
        var closed, turned := FailUnfundedReceive(h, payment, fails);
        OnlyReceiveThrough(old(Now()), h, mid, Now());
        steps := steps + turned;
        if closed.Crashed? {
          r := Crashed;
        } else {
          ReleasedToo(turned, h, payment, fails);
        }
      }
    }

    method ClaimFunded(h: nat, claiming: nat -> Outcome<()>) returns (r: Outcome<()>, ghost steps: seq<Action>)
      requires Valid() && HtlcBound(Now(), h) && View(rows, h).Checkpoint() && !Terminal(View(rows, h).status)
      modifies this`invoices, this`rows, this`sends, this`live, this`claims, this`collected, this`run
      ensures Valid() && old(run) <= run
      ensures OnlyReceive(old(Now()), h, Now())
      ensures claims == old(claims) + {ClaimOf(View(old(rows), h), h)}
      ensures r.Ok? ==> View(rows, h).claimSubmitted && View(rows, h).status == PreimageRecovered
      ensures !r.Crashed? ==> Mine() == old(Mine()) + steps && Claiming(steps, h, r.Ok?)
      ensures !r.Crashed? ==> (r.Ok? <==> Succeeds(claiming))
    {
      hide After, Legal, Own, OnlyReceive, ClaimCalls, Succeeds;
      ghost var call := ClaimOf(View(rows, h), h);
      var claimed, calls := ClaimReceive(h, claiming);
      r := claimed;
      steps := calls;
      ghost var mid := Now();
      CalmIsOnlyReceive(old(Now()), h, mid);
      assert Marked(View(old(rows), h), View(mid.rows, h));
      if claimed.Ok? {
        StillBound(old(Now()), h, mid);
        assert call in claims && call.hash == h;
        r := MarkReceiveClaimSubmitted(h);
        OnlyReceiveThrough(old(Now()), h, mid, Now());
        steps := calls + [MarkClaimed(h)];
      } else {
        assert steps == calls + [];
      }
    }

    /** Bind the HTLC, then pay, then claim: each step only once the one before
        it is stored. */
    method SettleHtlc(h: nat, payment: nat, actual: u64, expected: u64, q: HtlcReplies)
      returns (r: Outcome<bool>, ghost steps: seq<Action>)
      requires Valid() && h in invoices && h !in internal && !Terminal(View(rows, h).status)
      requires View(rows, h).payment in {None, Some(payment)}
      requires env.paymentHash(payment) == h && actual == env.amountOf(payment) && expected == 1000 * invoices[h].sats
      modifies this`invoices, this`rows, this`sends, this`live, this`payouts
      modifies this`claims, this`collected, this`failing, this`failed, this`released, this`run
      ensures Valid() && old(run) <= run
      ensures OnlyReceive(old(Now()), h, Now())
      ensures r.Ok? ==>
        r.value && View(rows, h).claimSubmitted && View(rows, h).payment == Some(payment) && View(rows, h).Checkpoint()
      ensures actual != expected ==> !r.Ok? && payouts == old(payouts) && claims == old(claims)
      ensures View(old(rows), h).Checkpoint() ==> payouts == old(payouts)
      ensures claims == old(claims) || ClaimedExactly(old(claims), claims, h, payment, Some(actual))
      ensures !r.Crashed? ==> Mine() == old(Mine()) + steps
      ensures !r.Crashed? ==>
        Settling(old(AskFor(h, payment, q)), View(old(rows), h), actual, payouts, steps, r)
    {
      hide After, Legal, Own, Committed, OnlyReceive, Settling, Bounded;
      ghost var k, v := AskFor(h, payment, q), View(rows, h);
      steps := [];
      var bound := MarkReceiveClaimable(h, payment, actual);
      ghost var mid := Now();
      if !bound.Ok? {
        r := bound.PropagateFailure();
        if r.Err? {
          SettlingRefused(k, v, actual, payouts, r);
        }
        return;
      }
      OnlyKeeps(old(Now()), h, mid);
      ghost var rest: seq<Action>;
      r, rest := SettleBound(h, payment, actual, expected, q);
      OnlyReceiveThrough(old(Now()), h, mid, Now());
      steps := [Bind(h, payment)] + rest;
      if !r.Crashed? {
        SettlingBy(k, View(mid.rows, h), v, actual, payouts, rest, r);
      }
    }

    /** A wrong amount is given back; for an exact one the receiver is paid. */
    method SettleBound(h: nat, payment: nat, actual: u64, expected: u64, q: HtlcReplies)
      returns (r: Outcome<bool>, ghost steps: seq<Action>)
      requires Valid() && h in invoices && h !in internal && !Terminal(View(rows, h).status)
      requires View(rows, h).payment == Some(payment) && View(rows, h).claimable == Some(actual)
      requires env.paymentHash(payment) == h && expected == 1000 * invoices[h].sats
      modifies this`invoices, this`rows, this`sends, this`live, this`payouts
      modifies this`claims, this`collected, this`failing, this`failed, this`released, this`run
      ensures Valid() && old(run) <= run
      ensures OnlyReceive(old(Now()), h, Now())
      ensures r.Ok? ==>
        r.value && View(rows, h).claimSubmitted && View(rows, h).payment == Some(payment) && View(rows, h).Checkpoint()
      ensures actual != expected ==> !r.Ok? && payouts == old(payouts) && claims == old(claims)
      ensures View(old(rows), h).Checkpoint() ==> payouts == old(payouts)
      ensures claims == old(claims) || ClaimedExactly(old(claims), claims, h, payment, Some(actual))
      ensures !r.Crashed? ==> Mine() == old(Mine()) + steps
      ensures !r.Crashed? ==>
        Bounded(old(AskFor(h, payment, q)), View(old(rows), h), actual, payouts, steps, r)
    {
      hide After, Legal, Own, OnlyReceive, Release, Paying, ClaimedExactly;
      if actual != expected {
        var closed: Outcome<()>;
        closed, steps := FailUnfundedReceive(h, payment, q.fails);
        r := if closed.Crashed? then Crashed else Err(Mismatch);
      } else {
        r, steps := PayAndClaim(h, payment, q);
      }
      OnlyKeeps(old(Now()), h, Now());
    }

    method PayAndClaim(h: nat, payment: nat, q: HtlcReplies)
      returns (r: Outcome<bool>, ghost steps: seq<Action>)
      requires Valid() && HtlcBound(Now(), h) && View(rows, h).payment == Some(payment)
      requires !Terminal(View(rows, h).status)
      requires env.paymentHash(payment) == h
      modifies this`invoices, this`rows, this`sends, this`live, this`payouts
      modifies this`claims, this`collected, this`failing, this`failed, this`released, this`run
      ensures Valid() && old(run) <= run
      ensures OnlyReceive(old(Now()), h, Now())
      ensures r.Ok? ==> r.value && View(rows, h).claimSubmitted && View(rows, h).Checkpoint()
      ensures View(old(rows), h).Checkpoint() ==> payouts == old(payouts)
      ensures claims == old(claims) || ClaimedExactly(old(claims), claims, h, payment, View(old(rows), h).claimable)
      ensures !r.Crashed? ==>
        Mine() == old(Mine()) + steps
        && Paying(old(AskFor(h, payment, q)), View(old(rows), h), payouts, steps, r)
    {
      hide After, Legal, Own, OnlyReceive, FundedFirst, ClaimedNext, Paying, HtlcBound, ClaimedExactly, View, Terminal;
      HasInvoice(Now(), h);
      var paid, pays := EnsureFunded(h, payment, q);
      ghost var funded := Now();
      ghost var rest: seq<Action>;
      r, rest := EnsureClaimed(h, payment, q, old(AskFor(h, payment, q)), old(View(rows, h)), paid);
      OnlyReceiveThrough(old(Now()), h, funded, Now());
      OnlyKeeps(funded, h, Now());
      steps := pays + rest;
      if !r.Crashed? {
        PayingBy(old(AskFor(h, payment, q)), View(old(rows), h), payouts, pays, rest, paid, r);
      }
    }

    /** Pay the receiver unless the answer is stored. */
    method EnsureFunded(h: nat, payment: nat, q: HtlcReplies)
      returns (paid: Outcome<()>, ghost pays: seq<Action>)
      requires Valid() && HtlcBound(Now(), h) && View(rows, h).payment == Some(payment)
      requires !Terminal(View(rows, h).status) && env.paymentHash(payment) == h
      modifies this`invoices, this`rows, this`sends, this`live, this`payouts
      modifies this`failing, this`failed, this`released, this`run
      ensures Valid() && old(run) <= run && OnlyReceive(old(Now()), h, Now())
      ensures View(old(rows), h).Checkpoint() ==> Now() == old(Now()) && paid.Ok?
      ensures HtlcBound(Now(), h) && invoices[h] == old(invoices)[h]
      ensures View(rows, h).payment == Some(payment) && View(rows, h).claimable == View(old(rows), h).claimable
      ensures paid.Ok? ==> View(rows, h).Checkpoint() && !Terminal(View(rows, h).status)
      ensures paid.Ok? ==> View(rows, h).claimSubmitted == View(old(rows), h).claimSubmitted
      ensures paid.Ok? && !View(old(rows), h).Checkpoint() ==> env.hashOf(View(rows, h).preimage.value) == h
      ensures !paid.Crashed? ==> Mine() == old(Mine()) + pays
      ensures !paid.Crashed? ==>
        FundedFirst(old(AskFor(h, payment, q)), View(old(rows), h), payouts, pays, paid)
    {
      hide After, Legal, Own, Committed, OnlyReceive, Funding;
      pays := [];
      paid := Ok(());
      CalmIsOnlyReceive(old(Now()), h, Now());
      if !View(rows, h).Checkpoint() {
        paid, pays := FundReceive(h, payment, q);
      }
      StillBound(old(Now()), h, Now());
    }

    /** Claim the HTLC unless that is marked. */
    method EnsureClaimed(h: nat, payment: nat, q: HtlcReplies, ghost k: Ask, ghost v: Row, paid: Outcome<()>)
      returns (r: Outcome<bool>, ghost steps: seq<Action>)
      requires Valid() && HtlcBound(Now(), h) && View(rows, h).payment == Some(payment)
      requires paid.Ok? ==> View(rows, h).Checkpoint() && !Terminal(View(rows, h).status)
      requires paid.Ok? ==> View(rows, h).claimSubmitted == v.claimSubmitted
      requires k.env == env && k.h == h && k.q == q
      requires paid.Ok? ==>
        if v.Checkpoint() then View(rows, h).preimage == v.preimage else env.hashOf(View(rows, h).preimage.value) == h
      modifies this`invoices, this`rows, this`sends, this`live, this`claims, this`collected, this`run
      ensures Valid() && old(run) <= run && OnlyReceive(old(Now()), h, Now())
      ensures r.Ok? ==> r.value && View(rows, h).claimSubmitted && View(rows, h).Checkpoint()
      ensures claims == old(claims) || ClaimedExactly(old(claims), claims, h, payment, View(old(rows), h).claimable)
      ensures paid.Crashed? ==> r.Crashed?
      ensures !r.Crashed? ==> Mine() == old(Mine()) + steps
      ensures !r.Crashed? ==>
        ClaimedNext(k, v, steps, paid, r)
    {
      hide After, Legal, Own, OnlyReceive, Claiming;
      CalmIsOnlyReceive(old(Now()), h, Now());
      steps := [];
      if !paid.Ok? {
        return paid.PropagateFailure(), [];
      }
      if View(rows, h).claimSubmitted {
        return Ok(true), [];
      }
      var stored := View(rows, h);
      if env.hashOf(stored.preimage.value) != h {
        return Err(Mismatch), [];
      }
      assert ClaimOf(stored, h) == ClaimCall(h, payment, stored.claimable.value, stored.preimage.value);
      var claimed: Outcome<()>;
      claimed, steps := ClaimFunded(h, q.claims);
      OnlyKeeps(old(Now()), h, Now());
      r := if claimed.Ok? then Ok(true) else claimed.PropagateFailure();
    }

    lemma Holds(h: nat)
      requires Valid()
      ensures RowSound(env, Now(), h) && OwnerSound(Now(), h)
    {
      hide After, Legal, Own;
      EveryRunKeepsInv(env, run);
    }

    /** One claimable HTLC. Ok(true): it was failed, was already completed, or is
        claimed; Ok(false): nobody here issued its invoice. */
    method ProcessStandardReceive(h: nat, payment: nat, amount: Option<u64>, q: HtlcReplies)
      returns (r: Outcome<bool>, ghost steps: seq<Action>)
      requires Valid() && env.paymentHash(payment) == h && (amount.Some? ==> amount.value == env.amountOf(payment))
      modifies this`invoices, this`rows, this`sends, this`live, this`payouts
      modifies this`claims, this`collected, this`failing, this`failed, this`released, this`run
      ensures Valid() && old(run) <= run
      ensures OnlyReceive(old(Now()), h, Now())
      ensures r == Ok(true) ==> Handled(old(Now()), h, payment, Now())
      ensures r == Ok(false) ==> h !in old(invoices) && payment in failed
      ensures MustReject(old(Now()), h, payment) ==>
        payment in failed && Calm(old(Now()).(failed := failed, released := released), Now())
      ensures View(old(rows), h).Checkpoint() ==> payouts == old(payouts)
      ensures WrongAmount(old(invoices), h, amount) ==> payouts == old(payouts) && claims == old(claims)
      ensures claims == old(claims) || ClaimedExactly(old(claims), claims, h, payment, amount)
      ensures !r.Crashed? ==> Mine() == old(Mine()) + steps
      ensures !r.Crashed? ==>
        Processing(old(AskFor(h, payment, q)), old(Now()), amount, payouts, steps, r)
    {
      hide After, Legal, Own, Committed, OnlyReceive, Rejection, Settling;
      steps := [];
      if h in internal {
        r, steps := RejectHtlc(h, payment, q.fails, true);
        return;
      }
      if h !in invoices {
        r, steps := RejectHtlc(h, payment, q.fails, false);
        return;
      }
      var receive := View(rows, h);
      if (receive.payment.Some? && receive.payment != Some(payment)) || receive.status == HtlcFailed
          || (receive.status == TransferCompleted && receive.payment != Some(payment)) {
        r, steps := RejectHtlc(h, payment, q.fails, true);
        return;
      }
      CalmIsOnlyReceive(old(Now()), h, Now());
      if receive.status == TransferCompleted {
        return Ok(true), [];
      }
      var expected := CheckedMul(invoices[h].sats, 1000);
      if expected.None? || amount.None? {
        return Err(Invalid), [];
      }
      Others();
      ghost var mid := Now();
      CalmIsOnlyReceive(old(Now()), h, mid);
      assert Marked(View(old(rows), h), View(rows, h));
      r, steps := SettleHtlc(h, payment, amount.value, expected.value, q);
      OnlyReceiveThrough(old(Now()), h, mid, Now());
      if !r.Crashed? {
        SettlingAlike(old(AskFor(h, payment, q)), View(mid.rows, h), receive, amount.value, payouts, steps, r);
      }
    }

    /** The HTLC's own id is failed; the invoice's state stays as it is. */
    method RejectHtlc(h: nat, payment: nat, fails: nat -> Outcome<()>, known: bool)
      returns (r: Outcome<bool>, ghost steps: seq<Action>)
      requires Valid() && MayReject(env, Now(), payment)
      modifies this`invoices, this`rows, this`sends, this`live, this`failing, this`failed, this`released, this`run
      ensures Valid() && old(run) <= run
      ensures OnlyReceive(old(Now()), h, Now())
      ensures Calm(old(Now()).(failed := failed, released := released), Now())
      ensures payment in failed
      ensures !r.Crashed? ==> Mine() == old(Mine()) + steps && TurnedAway(steps, payment, fails, known, r)
    {
      hide After, Legal, Own, OnlyReceive, Rejection, Succeeds;
      var failure, turned := FailReceive(payment, fails);
      steps := turned;
      CalmIsOnlyReceive(old(Now()), h, Now());
      r := if failure.Ok? then Ok(known) else failure.PropagateFailure();
    }

    /** LDK reports the HTLC's payment as received for good. */
    method FinishReceivedPayment(h: nat, payment: nat) returns (r: Outcome<bool>)
      requires Valid()
      modifies this`invoices, this`rows, this`sends, this`live, this`run
      ensures Valid() && old(run) <= run
      ensures OnlyReceive(old(Now()), h, Now())
      ensures r == Ok(false) <==> !r.Crashed? && h !in old(internal) && h !in old(invoices)
      ensures r == Ok(true) && h !in internal ==> Mine() == old(Mine()) + [Finish(h, payment)]
      ensures r == Ok(true) ==>
        h in internal || (View(rows, h).status == TransferCompleted && View(rows, h).Checkpoint())
      ensures r.Err? ==> OtherHtlc(View(old(rows), h), payment) || !View(old(rows), h).Checkpoint()
      ensures OtherHtlc(View(old(rows), h), payment) ==>
        MarkedRows(old(rows), rows) && (r == Ok(true) ==> h in internal)
    {
      hide After, Legal, Own, OnlyReceive;
      CalmIsOnlyReceive(old(Now()), h, Now());
      if h in internal {
        return Ok(true);
      }
      if h !in invoices {
        return Ok(false);
      }
      Holds(h);
      var receive := View(rows, h);
      if receive.payment.Some? && receive.payment != Some(payment) {
        return Err(Mismatch);
      }
      if receive.transfer.None? {
        return Err(Pending);
      }
      Others();
      ghost var mid := Now();
      CalmIsOnlyReceive(old(Now()), h, mid);
      assert Marked(View(old(rows), h), View(mid.rows, h));
      var saved := SetCompleted(h, payment);
      OnlyReceiveThrough(old(Now()), h, mid, Now());
      r := if saved.Ok? then Ok(true) else saved.PropagateFailure();
    }

    method SetCompleted(h: nat, payment: nat) returns (r: Outcome<()>)
      requires Valid() && h in invoices && h !in internal && View(rows, h).Checkpoint()
      requires View(rows, h).payment in {None, Some(payment)}
      modifies this`rows, this`run
      ensures Valid() && old(run) <= run
      ensures OnlyReceive(old(Now()), h, Now())
      ensures if r.Ok? then View(rows, h) == View(old(rows), h).(status := TransferCompleted) else r.Crashed?
      ensures r.Ok? ==> Mine() == old(Mine()) + [Finish(h, payment)]
    {
      hide After, Legal, Own;
      var dies: bool := *;
      var committed: bool := *;
      if dies && !committed {
        return Crashed;
      }
      ghost var before := Now();
      rows := rows[h := View(rows, h).(status := TransferCompleted)];
      Did(Finish(h, payment), before);
      r := if dies then Crashed else Ok(());
    }

    /** LDK reports the payment as failed: close its own invoice, never one that
        is completed, reserved by a local payer, or bound to another HTLC. */
    method FailExternalReceive(h: nat, payment: nat) returns (r: Outcome<()>)
      requires Valid() && env.paymentHash(payment) == h
      modifies this`rows, this`lost, this`run
      ensures Valid() && old(run) <= run
      ensures OnlyReceive(old(Now()), h, Now())
      ensures rows != old(rows) ==> MayFail(old(Now()), h, payment)
      ensures r.Ok? ==>
        Mine() == old(Mine()) + if MayFail(old(Now()), h, payment) then [FailExternal(h, payment)] else []
      ensures rows != old(rows) ==> rows == old(rows)[h := View(old(rows), h).(status := HtlcFailed)]
      ensures if r.Ok? then MayFail(old(Now()), h, payment) ==> View(rows, h).status == HtlcFailed else r.Crashed?
    {
      hide After, Legal, Own, OnlyReceive, MayFail;
      OnlyReceiveStart(Now(), h);
      var dies: bool := *;
      var committed: bool := *;
      if dies && !committed {
        return Crashed;
      }
      var unpaid := h in rows && rows[h].payment in {None, Some(payment)} && rows[h].status != TransferCompleted;
      FailsIff(Now(), h, payment);
      if unpaid && h !in internal {
        CloseExternal(h, payment);
      }
      r := if dies then Crashed else Ok(());
    }

    method CloseExternal(h: nat, payment: nat)
      requires Valid() && MayFail(Now(), h, payment) && env.paymentHash(payment) == h
      modifies this`rows, this`lost, this`run
      ensures Valid() && run == old(run) + [FailExternal(h, payment)]
      ensures rows == old(rows)[h := View(old(rows), h).(status := HtlcFailed)]
      ensures OnlyReceive(old(Now()), h, Now()) && Mine() == old(Mine()) + [FailExternal(h, payment)]
    {
      hide After, Legal, Own, OnlyReceive, MayReject, HtlcBound, SenderVerified;
      ghost var before := Now();
      rows := rows[h := rows[h].(status := HtlcFailed)];
      lost := lost + {payment};
      Did(FailExternal(h, payment), before);
      WroteRow(before, Now(), h);
    }

    // ---- Expiry ----

    /** Close the expired invoices of a list that may be stale by now: those that
        the recheck lets through are closed, or their HTLC is asked to be failed. */
    method ExpirySweep(expired: seq<nat>, fails: nat -> (nat -> Outcome<()>))
      returns (r: Outcome<()>, ghost steps: seq<Action>)
      requires Valid()
      modifies this`invoices, this`rows, this`sends, this`live, this`failing, this`failed, this`released, this`run
      ensures Valid() && old(run) <= run && !r.Err?
      ensures internal == old(internal) && Grown(old(Now()), Now())
      ensures AllSwept(old(Now()), rows, expired)
      ensures r.Ok? ==> Mine() == old(Mine()) + steps && AllExpired(old(Now()), expired, steps, failed)
    {
      hide After, Legal, Own, Expired, AllSwept, AllExpired, OnlyReceive, Calm, Grown, MayExpire, SameButStatus, View;
      ghost var start := Now();
      SweepStart(start);
      assert expired[..0] == [];
      steps := [];
      for i := 0 to |expired|
        invariant Valid() && old(run) <= run && old(failed) <= failed
        invariant internal == start.internal && Grown(start, Now())
        invariant AllSwept(start, rows, expired[..i])
        invariant Mine() == old(Mine()) + steps && AllExpired(start, expired[..i], steps, failed)
      {
        ghost var mid, before, asked := Now(), steps, failed;
        ghost var closes: seq<Action>;
        ghost var quiet: State;
        r, closes, quiet := SweepOne(expired[i], fails(i));
        steps := steps + closes;
        GrownThrough(start, mid, quiet, Now(), expired[i]);
        SweepContinues(start, mid, quiet, Now(), expired[i], expired[..i], expired[..i + 1]);
        if r.Crashed? {
          SweptMore(start, rows, expired[..i + 1], expired);
          return;
        }
        if MayExpire(start, expired[i]) && expired[i] !in expired[..i] {
          NotYetSwept(start, mid, quiet, expired[i], expired[..i]);
          ExpiredNow(start, expired[i], before, closes, failed);
        }
        ExpiredMore(start, expired, i, before, steps, asked, failed);
      }
      assert expired[..|expired|] == expired;
      r := Ok(());
    }

    /** One listed invoice, after whatever the unlocked tasks did. */
    method SweepOne(h: nat, fails: nat -> Outcome<()>)
      returns (r: Outcome<()>, ghost steps: seq<Action>, ghost quiet: State)
      requires Valid()
      modifies this`invoices, this`rows, this`sends, this`live, this`failing, this`failed, this`released, this`run
      ensures Valid() && old(run) <= run && !r.Err? && old(failed) <= failed
      ensures Calm(old(Now()), quiet) && OnlyReceive(quiet, h, Now())
      ensures SameButStatus(View(quiet.rows, h), View(rows, h))
      ensures View(rows, h).status in {View(quiet.rows, h).status, InvoiceCreated, HtlcFailed}
      ensures !MayExpire(quiet, h) ==> rows == quiet.rows
      ensures r.Ok? && MayExpire(quiet, h) && View(quiet.rows, h).payment.None? ==> steps == [SetStatus(h, HtlcFailed)]
      ensures MayExpire(quiet, h) && View(quiet.rows, h).payment.Some? ==> View(quiet.rows, h).payment.value in failed
      ensures r.Ok? ==> Mine() == old(Mine()) + steps
    {
      hide After, Legal, Own, OnlyReceive, Release, MayExpire, Calm;
      Others();
      CalmFails(old(Now()), Now());
      quiet := Now();
      r, steps := ExpireReceive(h, fails);
    }

    /** Recheck under the lock; an HTLC that is bound must be failed first. */
    method ExpireReceive(h: nat, fails: nat -> Outcome<()>) returns (r: Outcome<()>, ghost steps: seq<Action>)
      requires Valid()
      modifies this`invoices, this`rows, this`sends, this`live, this`failing, this`failed, this`released, this`run
      ensures Valid() && old(run) <= run && !r.Err? && old(failed) <= failed
      ensures OnlyReceive(old(Now()), h, Now())
      ensures SameButStatus(View(old(rows), h), View(rows, h))
      ensures View(rows, h).status in {View(old(rows), h).status, InvoiceCreated, HtlcFailed}
      ensures !MayExpire(old(Now()), h) ==> rows == old(rows) && steps == [] && r.Ok?
      ensures r.Ok? && MayExpire(old(Now()), h) && View(old(rows), h).payment.None? ==>
        View(rows, h).status == HtlcFailed && steps == [SetStatus(h, HtlcFailed)]
      ensures MayExpire(old(Now()), h) && View(old(rows), h).payment.Some? ==>
        && View(old(rows), h).payment.value in failed
        && (r.Ok? ==> Release(steps, h, View(old(rows), h).payment.value, fails))
        && (View(old(rows), h).payment.value !in released ==> View(rows, h).status != HtlcFailed)
      ensures r.Ok? ==> Mine() == old(Mine()) + steps
    {
      hide After, Legal, Own, OnlyReceive, Release;
      CalmIsOnlyReceive(old(Now()), h, Now());
      steps := [];
      if h !in invoices || h in internal || View(rows, h).transfer.Some? || Terminal(View(rows, h).status) {
        return Ok(()), [];
      }
      Holds(h);
      if View(rows, h).payment.Some? {
        r, steps := FailUnfundedReceive(h, View(rows, h).payment.value, fails);
        return;
      }
      r := SetReceiveStatus(h, HtlcFailed);
      steps := [SetStatus(h, HtlcFailed)];
    }

    // ---- Local payers ----

    /** One owner per invoice: a fresh reservation, or the payer's own again. */
    method ReserveInternalSend(id: nat, now: int) returns (r: Outcome<()>)
      requires Valid() && id in sends && !sends[id].Terminal()
      modifies this`internal, this`sends, this`run
      ensures Valid() && old(run) <= run
      ensures OnlySender(old(Now()), id, Now()) && !sends[id].Terminal()
      ensures Owns(old(Now()), id) ==> internal == old(internal) && sends == old(sends)
      ensures r.Ok? ==> Owns(Now(), id) && (Owns(old(Now()), id) || Reservable(old(Now()), id, now))
      ensures r.Ok? && !Owns(old(Now()), id) ==>
        invoices[sends[id].hash].expiresAt > now && sends[id].status == SendSettling
      ensures r.Ok? ==> Mine() == old(Mine()) + if Owns(old(Now()), id) then [] else [ReserveSend(id)]
      ensures r.Err? ==> run == old(run) && r == Err(Rejected)
      ensures sends[id].hash == old(sends[id]).hash && invoices == old(invoices) && rows == old(rows)
      ensures r.Err? ==>
        !Owns(old(Now()), id) && (old(sends[id]).hash in old(internal) || !Reservable(old(Now()), id, now))
      ensures r.Err? ==> sends == old(sends) && internal == old(internal)
    {
      hide After, Legal, Own, OnlySender;
      SenderStarts(Now(), id);
      var dies: bool := *;
      var committed: bool := *;
      if dies && !committed {
        return Crashed;
      }
      var send := sends[id];
      if send.hash in internal {
        return if dies then Crashed else if internal[send.hash] == id then Ok(()) else Err(Rejected);
      }
      if !Reservable(EMPTY.(invoices := invoices, rows := rows, sends := sends), id, now) {
        return if dies then Crashed else Err(Rejected);
      }
      TakeInvoice(id, now);
      r := if dies then Crashed else Ok(());
    }

    method TakeInvoice(id: nat, now: int)
      requires Valid() && Reservable(Now(), id, now) && !sends[id].Terminal() && sends[id].hash !in internal
      modifies this`internal, this`sends, this`run
      ensures Valid() && run == old(run) + [ReserveSend(id)] && Mine() == old(Mine()) + [ReserveSend(id)]
      ensures internal == old(internal)[old(sends[id]).hash := id]
      ensures sends == old(sends)[id := old(sends[id]).(status := SendSettling)]
      ensures OnlySender(old(Now()), id, Now())
    {
      hide After, Legal, Own, OnlySender;
      ghost var before := Now();
      internal := internal[sends[id].hash := id];
      sends := sends[id := sends[id].(status := SendSettling)];
      Did(ReserveSend(id), before);
      TookInvoice(before, id, Now());
    }

    method FailInternalSend(id: nat) returns (r: Outcome<()>)
      requires Valid() && id in sends && !sends[id].Terminal() && !Owns(Now(), id)
      modifies this`sends, this`run
      ensures Valid() && old(run) <= run
      ensures OnlySender(old(Now()), id, Now())
      ensures sends == old(sends) || sends == old(sends)[id := old(sends[id]).(status := SendFailed)]
      ensures if r.Ok? then sends[id].status == SendFailed else r.Crashed?
      ensures r.Ok? ==> Mine() == old(Mine()) + [FailSend(id)]
    {
      hide After, Legal, Own;
      var dies: bool := *;
      var committed: bool := *;
      if dies && !committed {
        return Crashed;
      }
      ghost var before := Now();
      sends := sends[id := sends[id].(status := SendFailed)];
      Did(FailSend(id), before);
      r := if dies then Crashed else Ok(());
    }

    /** The send, the invoice and its transfer complete in one commit. */
    method FinishInternalSend(id: nat) returns (r: Outcome<()>)
      requires Valid() && Owns(Now(), id) && !sends[id].Terminal() && id in settled
      modifies this`sends, this`rows, this`run
      ensures Valid() && old(run) <= run
      ensures OnlySender(old(Now()), id, Now())
      ensures r.Ok? ==> sends[id].status == SendSucceeded && View(rows, sends[id].hash).status == TransferCompleted
      ensures !r.Err? && !(sends == old(sends) && rows == old(rows)) ==> sends[id].status == SendSucceeded
      ensures !r.Err? && (r.Ok? ==> Mine() == old(Mine()) + [FinishSend(id)])
    {
      hide After, Legal, Own, OnlySender, MayReject, MayPay, Unfunded, MayFail, Reservable;
      SenderStarts(Now(), id);
      var dies: bool := *;
      var committed: bool := *;
      if dies && !committed {
        return Crashed;
      }
      var h := sends[id].hash;
      ghost var before := Now();
      rows := rows[h := View(rows, h).(status := TransferCompleted)];
      sends := sends[id := sends[id].(status := SendSucceeded)];
      Did(FinishSend(id), before);
      FinishedPayment(before, id, Now());
      r := if dies then Crashed else Ok(());
    }

    /** The payer's conditional transfer of exactly the invoice amount exists. */
    method VerifySender(id: nat, reply: Outcome<()>)
      requires Valid() && Owns(Now(), id) && !sends[id].Terminal()
      modifies this`verified, this`run
      ensures Valid() && old(run) <= run
      ensures OnlySender(old(Now()), id, Now())
      ensures reply.Ok? ==> id in verified
      ensures Mine() == old(Mine()) + if reply.Ok? then [VerifySend(id)] else []
    {
      hide After, Legal, Own;
      if reply.Ok? {
        ghost var before := Now();
        verified := verified + {id};
        Did(VerifySend(id), before);
      }
    }

    /** Collect the payer's funding; it may be collected and the reply be lost. */
    method SettleSender(id: nat, preimage: nat, reply: Outcome<()>) returns (ghost steps: seq<Action>)
      requires Valid() && Owns(Now(), id) && !sends[id].Terminal()
      requires View(rows, sends[id].hash).Checkpoint() && View(rows, sends[id].hash).preimage == Some(preimage)
      modifies this`settled, this`run
      ensures Valid() && old(run) <= run
      ensures OnlySender(old(Now()), id, Now())
      ensures reply.Ok? ==> id in settled && settled[id] == preimage
      ensures Mine() == old(Mine()) + steps
      ensures steps == [SettleSend(id)] || (steps == [] && !reply.Ok?)
    {
      hide After, Legal, Own;
      steps := [];
      var collects: bool := *;
      if collects || reply.Ok? {
        if id in settled {
          HoldsSettled(id);
        }
        ghost var before := Now();
        settled := settled[id := preimage];
        Did(SettleSend(id), before);
        steps := [SettleSend(id)];
      }
    }

    /** Pay a local invoice from its payer's funding. The invoice is reserved
        before any operator call, so a refused payment never paid anybody. */
    method ProcessInternalSend(id: nat, now: int, q: LocalReplies)
      returns (r: Outcome<()>, ghost steps: seq<Action>)
      requires Valid() && id in sends
      modifies this`invoices, this`rows, this`internal, this`sends, this`live
      modifies this`payouts, this`verified, this`settled, this`run
      ensures Valid() && old(run) <= run
      ensures OnlySender(old(Now()), id, Now())
      ensures old(sends[id]).Terminal() ==> r == Ok(()) && run == old(run)
      ensures r.Ok? && !old(sends[id]).Terminal() ==>
        sends[id].status == SendSucceeded && Owns(Now(), id) && id in settled
      ensures !old(sends[id]).Terminal() && sends[id].status == SendFailed ==>
        !Owns(old(Now()), id) && internal == old(internal) && payouts == old(payouts) && settled == old(settled)
      ensures View(old(rows), old(sends[id]).hash).Checkpoint() ==> payouts == old(payouts)
      ensures !r.Crashed? ==> Mine() == old(Mine()) + steps
      ensures !old(sends[id]).Terminal() && !r.Crashed? ==> Paid(env, old(Now()), id, now, q, payouts, steps, r)
    {
      hide After, Legal, Own, OnlySender, LocalPayment;
      SenderStarts(old(Now()), id);
      steps := [];
      if sends[id].Terminal() {
        return Ok(()), [];
      }
      var reserved := ReserveInternalSend(id, now);
      ghost var mid := Now();
      if reserved.Err? {
        var failure := FailInternalSend(id);
        OnlySenderThrough(old(Now()), id, mid, Now());
        if failure.Ok? {
          return reserved, [FailSend(id)];
        }
        return Crashed, [];
      }
      if reserved.Crashed? {
        return Crashed, [];
      }
      ghost var pays: seq<Action>;
      r, pays := PayReserved(id, q);
      steps := (if Owns(old(Now()), id) then [] else [ReserveSend(id)]) + pays;
      assert Owns(old(Now()), id) ==> steps == pays;
      assert !Owns(old(Now()), id) ==> steps[1..] == pays;
      OnlySenderThrough(old(Now()), id, mid, Now());
      SenderRow(old(Now()), id, mid);
    }

    method PayReserved(id: nat, q: LocalReplies)
      returns (r: Outcome<()>, ghost steps: seq<Action>)
      requires Valid() && Owns(Now(), id) && !sends[id].Terminal()
      modifies this`invoices, this`rows, this`sends, this`live, this`payouts, this`verified, this`settled, this`run
      ensures Valid() && old(run) <= run
      ensures OnlySender(old(Now()), id, Now()) && Owns(Now(), id)
      ensures r.Ok? ==> sends[id].status == SendSucceeded && id in settled
      ensures sends[id].status != SendFailed
      ensures View(old(rows), old(sends[id]).hash).Checkpoint() ==> payouts == old(payouts)
      ensures sends[id].hash == old(sends[id]).hash && sends[id].hash in old(invoices)
      ensures !r.Crashed? ==> Mine() == old(Mine()) + steps
      ensures !r.Crashed? ==>
        LocalPayment(old(LocalFor(id, q)), View(old(rows), sends[id].hash), payouts, steps, r)
    {
      hide After, Legal, Own, OnlySender, LocalFunding, LocalPayment, Collecting;
      ghost var v := View(rows, sends[id].hash);
      SenderStarts(old(Now()), id);
      HoldsOwner(id);
      var h := sends[id].hash;
      ghost var pays: seq<Action> := [];
      var funded: Outcome<()> := Ok(());
      if !View(rows, h).Checkpoint() {
        funded, pays := FundLocally(id, q);
      }
      ghost var mid := Now();
      SenderRow(old(Now()), id, mid);
      ghost var rest: seq<Action> := [];
      if !funded.Ok? {
        r := funded;
      } else {
        r, rest := CollectAndFinish(id, q.collected);
        OnlySenderThrough(old(Now()), id, mid, Now());
        SenderRow(mid, id, Now());
      }
      steps := pays + rest;
      if !r.Crashed? {
        LocalPaymentBy(old(LocalFor(id, q)), v, payouts, pays, rest, funded, r);
      }
    }

    /** The answer is stored: collect the payer's funding with it, and finish. */
    method CollectAndFinish(id: nat, reply: Outcome<()>) returns (r: Outcome<()>, ghost steps: seq<Action>)
      requires Valid() && Owns(Now(), id) && !sends[id].Terminal() && View(rows, sends[id].hash).Checkpoint()
      modifies this`sends, this`rows, this`settled, this`run
      ensures Valid() && old(run) <= run
      ensures OnlySender(old(Now()), id, Now()) && Owns(Now(), id)
      ensures r.Ok? ==> sends[id].status == SendSucceeded && id in settled
      ensures sends[id].status != SendFailed && sends[id].hash == old(sends[id]).hash
      ensures !r.Crashed? ==> Mine() == old(Mine()) + steps
      ensures !r.Crashed? ==> Collecting(env, View(old(rows), old(sends[id]).hash).preimage.value, id,
        old(sends[id]).hash, reply, steps, r)
    {
      hide After, Legal, Own, OnlySender;
      SenderStarts(old(Now()), id);
      steps := [];
      var h := sends[id].hash;
      var preimage := View(rows, h).preimage.value;
      if env.hashOf(preimage) != h {
        return Err(Mismatch), [];
      }
      steps := SettleSender(id, preimage, reply);
      ghost var after := Now();
      SenderRow(old(Now()), id, after);
      r := reply;
      if reply.Ok? {
        r := FinishInternalSend(id);
        OnlySenderThrough(old(Now()), id, after, Now());
        SenderRow(after, id, Now());
        steps := steps + [FinishSend(id)];
      }
    }

    /** Check the payer's funding, then pay the receiver and store the answer. */
    method FundLocally(id: nat, q: LocalReplies)
      returns (r: Outcome<()>, ghost steps: seq<Action>)
      requires Valid() && Owns(Now(), id) && !sends[id].Terminal() && !View(rows, sends[id].hash).Checkpoint()
      modifies this`invoices, this`rows, this`sends, this`live, this`payouts, this`verified, this`run
      ensures Valid() && old(run) <= run
      ensures OnlySender(old(Now()), id, Now()) && Owns(Now(), id)
      ensures sends[id] == old(sends[id]) && settled == old(settled)
      ensures r.Ok? ==> View(rows, sends[id].hash).Checkpoint()
      ensures sends[id].hash in old(invoices) && (!r.Crashed? ==> Mine() == old(Mine()) + steps)
      ensures !r.Crashed? ==>
        LocalFunding(old(LocalFor(id, q)), payouts, steps, r)
    {
      hide After, Legal, Own, OnlySender, Committed, LocalFunding, LocalSwap;
      var h := sends[id].hash;
      ghost var k := LocalFor(id, q);
      SenderStarts(old(Now()), id);
      HoldsOwner(id);
      VerifySender(id, q.verified);
      ghost var mid := Now();
      if !q.verified.Ok? {
        Unverified(k, payouts);
        return q.verified, [];
      }
      ghost var rest: seq<Action>;
      r, rest := PayLocally(id, q);
      steps := [VerifySend(id)] + rest;
      OnlySenderThrough(old(Now()), id, mid, Now());
      if !r.Crashed? {
        VerifiedFirst(k, payouts, rest, r);
      }
    }

    /** One attempt to pay the receiver of a verified payment, and its answer. */
    method PayLocally(id: nat, q: LocalReplies) returns (r: Outcome<()>, ghost steps: seq<Action>)
      requires Valid() && Owns(Now(), id) && !sends[id].Terminal() && !View(rows, sends[id].hash).Checkpoint()
      requires id in verified
      modifies this`invoices, this`rows, this`sends, this`live, this`payouts, this`run
      ensures Valid() && old(run) <= run
      ensures OnlySender(old(Now()), id, Now()) && Owns(Now(), id)
      ensures sends[id] == old(sends[id])
      ensures r.Ok? ==> View(rows, sends[id].hash).Checkpoint()
      ensures sends[id].hash in old(invoices) && (!r.Crashed? ==> Mine() == old(Mine()) + steps)
      ensures !r.Crashed? ==>
        LocalSwap(old(LocalFor(id, q)), payouts, steps, r)
    {
      hide After, Legal, Own, OnlySender, Committed, Heard, Call, Missed;
      var h := sends[id].hash;
      HoldsOwner(id);
      Holds(h);
      var swapped, asked := AttemptSwap(h, q.swap);
      ghost var after := Now();
      PaidThenCalm(old(Now()), id, old(Now()).(payouts := payouts), after);
      if !swapped.Ok? {
        r := swapped.PropagateFailure();
        steps := asked;
        return;
      }
      assert Marked(View(old(rows), h), View(rows, h));
      r := CommitLightningReceiveSwap(h, swapped.value.preimage);
      ReceiveIsOnlySender(after, id, Now());
      OnlySenderThrough(old(Now()), id, after, Now());
      steps := asked + [CommitSwap(h, swapped.value.preimage)];
    }

    lemma HoldsOwner(id: nat)
      requires Valid() && Owns(Now(), id)
      ensures sends[id].hash in invoices && sends[id].sats == invoices[sends[id].hash].sats
    {
      hide After, Legal, Own;
      EveryRunKeepsInv(env, run);
      assert SendSound(env, Now(), id);
    }

    lemma HoldsSettled(id: nat)
      requires Valid() && id in settled
      ensures id in sends && View(rows, sends[id].hash).preimage == Some(settled[id])
    {
      hide After, Legal, Own;
      EveryRunKeepsInv(env, run);
      SettledOnce(env, Now(), id);
    }
  }

  lemma SenderStarts(s: State, id: nat)
    requires id in s.sends
    ensures OnlySender(s, id, s)
  {
  }

  lemma TookInvoice(s: State, id: nat, t: State)
    requires id in s.sends && !s.sends[id].Terminal() && s.sends[id].hash !in s.internal
    requires t.sends == s.sends[id := s.sends[id].(status := SendSettling)] && t.rows == s.rows
    requires t.internal == s.internal[s.sends[id].hash := id] && t.invoices == s.invoices
    requires t.claims == s.claims && t.failed == s.failed
    ensures OnlySender(s, id, t)
  {
  }

  lemma FinishedPayment(s: State, id: nat, t: State)
    requires id in s.sends && !s.sends[id].Terminal() && t.invoices == s.invoices && t.internal == s.internal
    requires t.sends == s.sends[id := s.sends[id].(status := SendSucceeded)]
    requires t.rows == s.rows[s.sends[id].hash := View(s.rows, s.sends[id].hash).(status := TransferCompleted)]
    requires t.claims == s.claims && t.failed == s.failed
    ensures OnlySender(s, id, t)
  {
  }

  lemma OnlySenderThrough(s: State, id: nat, t: State, u: State)
    requires OnlySender(s, id, t) && OnlySender(t, id, u)
    ensures OnlySender(s, id, u)
  {
    var h := s.sends[id].hash;
    forall o: nat | o != h ensures Marked(View(s.rows, o), View(u.rows, o)) {
      assert Marked(View(s.rows, o), View(t.rows, o)) && Marked(View(t.rows, o), View(u.rows, o));
    }
  }

  lemma SenderRow(s: State, id: nat, t: State)
    requires OnlySender(s, id, t)
    ensures RowEvolves(View(s.rows, s.sends[id].hash), View(t.rows, s.sends[id].hash))
    ensures id in t.sends && SendEvolves(s.sends[id], t.sends[id])
  {
  }

  lemma CalmIsOnlySender(s: State, id: nat, t: State)
    requires Calm(s, t) && id in s.sends
    ensures OnlySender(s, id, t)
  {
    assert Marked(View(s.rows, s.sends[id].hash), View(t.rows, s.sends[id].hash));
  }

  lemma PaidIsOnlySender(s: State, id: nat, t: State)
    requires id in s.sends && t == s.(payouts := t.payouts)
    ensures OnlySender(s, id, t)
  {
  }

  lemma PaidThenCalm(start: State, id: nat, paid: State, after: State)
    requires id in start.sends && paid == start.(payouts := paid.payouts) && Calm(paid, after)
    ensures OnlySender(start, id, after)
  {
    PaidIsOnlySender(start, id, paid);
    CalmIsOnlySender(paid, id, after);
    OnlySenderThrough(start, id, paid, after);
  }

  lemma ReceiveIsOnlySender(s: State, id: nat, t: State)
    requires id in s.sends && OnlyReceive(s, s.sends[id].hash, t) && t == s.(rows := t.rows)
    ensures OnlySender(s, id, t)
  {
  }

  predicate MayExpire(s: State, h: nat) {
    && h in s.invoices && h !in s.internal && View(s.rows, h).transfer.None?
    && !Terminal(View(s.rows, h).status)
  }

  /** A sweep closes listed invoices only, and none that is reserved, paid out
      or completed. */
  ghost predicate Swept(s: State, h: nat, row: Row, expired: seq<nat>) {
    var v := View(s.rows, h);
    && SameButStatus(v, row)
    && (row.status == v.status || row.status == InvoiceCreated || (row.status == HtlcFailed && h in expired))
    && (h !in expired || h in s.internal || v.transfer.Some? ==> Marked(v, row))
  }

  ghost predicate AllSwept(s: State, rows: map<nat, Row>, expired: seq<nat>) {
    forall h: nat :: Swept(s, h, View(rows, h), expired)
  }

  /** Every listed receive that was still open is closed, or its HTLC was failed. */
  ghost predicate AllExpired(s: State, expired: seq<nat>, steps: seq<Action>, failed: set<nat>) {
    forall h :: h in expired && MayExpire(s, h) ==> Expired(s, h, steps, failed)
  }

  lemma SweepContinues(s: State, mid: State, quiet: State, t: State, h: nat, early: seq<nat>, late: seq<nat>)
    requires h in late && forall x :: x in early ==> x in late
    requires s.internal == mid.internal == quiet.internal == t.internal
    requires AllSwept(s, mid.rows, early)
    requires Calm(mid, quiet) && OnlyReceive(quiet, h, t)
    requires SameButStatus(View(quiet.rows, h), View(t.rows, h))
    requires View(t.rows, h).status in {View(quiet.rows, h).status, InvoiceCreated, HtlcFailed}
    requires !MayExpire(quiet, h) ==> t.rows == quiet.rows
    ensures AllSwept(s, t.rows, late)
  {
    forall o: nat ensures Swept(s, o, View(t.rows, o), late) {
      assert Swept(s, o, View(mid.rows, o), early);
      assert Marked(View(mid.rows, o), View(quiet.rows, o));
    }
  }

  lemma GrownThrough(s: State, mid: State, quiet: State, t: State, h: nat)
    requires Grown(s, mid) && mid.internal == s.internal && Calm(mid, quiet) && OnlyReceive(quiet, h, t)
    ensures Grown(s, t) && t.internal == s.internal && quiet.internal == s.internal
  {
  }

  lemma CalmFails(s: State, t: State)
    requires Calm(s, t)
    ensures t.failed == s.failed && t.internal == s.internal
  {
  }

  lemma SweepStart(s: State)
    ensures Grown(s, s) && AllSwept(s, s.rows, []) && AllExpired(s, [], [], s.failed)
  {
  }

  lemma SweptMore(s: State, rows: map<nat, Row>, early: seq<nat>, late: seq<nat>)
    requires AllSwept(s, rows, early) && forall x :: x in early ==> x in late
    ensures AllSwept(s, rows, late)
  {
    forall o: nat ensures Swept(s, o, View(rows, o), late) {
      assert Swept(s, o, View(rows, o), early);
    }
  }

  /** A receive that the sweep has not reached is as open as it was. */
  lemma NotYetSwept(s: State, mid: State, quiet: State, h: nat, early: seq<nat>)
    requires h !in early && MayExpire(s, h) && AllSwept(s, mid.rows, early)
    requires Calm(mid, quiet) && Grown(s, mid) && mid.internal == s.internal
    ensures MayExpire(quiet, h) && View(quiet.rows, h).payment == View(s.rows, h).payment
  {
    assert Swept(s, h, View(mid.rows, h), early);
    assert Marked(View(mid.rows, h), View(quiet.rows, h));
  }

  lemma ExpiredStays(s: State, h: nat, before: seq<Action>, after: seq<Action>, asked: set<nat>, failed: set<nat>)
    requires Expired(s, h, before, asked) && before <= after && asked <= failed
    ensures Expired(s, h, after, failed)
  {
  }

  lemma ExpiredMore(s: State, expired: seq<nat>, i: nat, before: seq<Action>, after: seq<Action>, asked: set<nat>,
                    failed: set<nat>)
    requires i < |expired| && before <= after && asked <= failed
    requires AllExpired(s, expired[..i], before, asked)
    requires MayExpire(s, expired[i]) && expired[i] !in expired[..i] ==> Expired(s, expired[i], after, failed)
    ensures AllExpired(s, expired[..i + 1], after, failed)
  {
    hide Expired, MayExpire;
    forall h | h in expired[..i + 1] && MayExpire(s, h) ensures Expired(s, h, after, failed) {
      if h in expired[..i] {
        ExpiredStays(s, h, before, after, asked, failed);
      }
    }
  }

  lemma ExpiredNow(s: State, h: nat, before: seq<Action>, closes: seq<Action>, failed: set<nat>)
    requires View(s.rows, h).payment.None? ==> closes == [SetStatus(h, HtlcFailed)]
    requires View(s.rows, h).payment.Some? ==> View(s.rows, h).payment.value in failed
    ensures Expired(s, h, before + closes, failed)
  {
  }

  /** One payer moved on, with its invoice; the other rows are as they were. */
  ghost predicate OnlySender(s: State, id: nat, t: State) {
    && id in s.sends && (forall h :: h in s.invoices ==> h in t.invoices && t.invoices[h] == s.invoices[h])
    && (forall o :: o in s.sends ==> o in t.sends && (o != id ==> t.sends[o] == s.sends[o]))
    && SendEvolves(s.sends[id], t.sends[id])
    && (|| t.internal == s.internal
        || (t.internal == s.internal[s.sends[id].hash := id] && s.sends[id].hash !in s.internal))
    && RowsChangedAt(s.rows, s.sends[id].hash, t.rows)
    && RowEvolves(View(s.rows, s.sends[id].hash), View(t.rows, s.sends[id].hash))
    && t.claims == s.claims && t.failed == s.failed
  }

  /** Apart from the row of `h`, rows were at most marked as issued. */
  ghost predicate RowsChangedAt(a: map<nat, Row>, h: nat, b: map<nat, Row>) {
    forall o: nat :: o != h ==> Marked(View(a, o), View(b, o))
  }

  predicate SameButStatus(v: Row, w: Row) {
    w == v.(status := w.status)
  }

  /** Apart from the receive of `h`, only unlocked tasks left traces. */
  ghost predicate OnlyReceive(s: State, h: nat, t: State) {
    && Grown(s, t) && t.internal == s.internal && t.verified == s.verified && t.settled == s.settled
    && RowsChangedAt(s.rows, h, t.rows) && RowEvolves(View(s.rows, h), View(t.rows, h))
  }

  lemma OnlyReceiveStart(s: State, h: nat)
    ensures OnlyReceive(s, h, s)
  {
  }

  lemma FailsIff(s: State, h: nat, payment: nat)
    ensures MayFail(s, h, payment) <==>
      h in s.rows && s.rows[h].payment in {None, Some(payment)} && s.rows[h].status != TransferCompleted
      && h !in s.internal
  {
  }

  lemma WroteRow(s: State, t: State, h: nat)
    requires t.invoices == s.invoices && t.sends == s.sends && t.internal == s.internal
    requires t.verified == s.verified && t.settled == s.settled && h in t.rows && t.rows == s.rows[h := t.rows[h]]
    requires RowEvolves(View(s.rows, h), t.rows[h])
    ensures OnlyReceive(s, h, t)
  {
  }

  lemma OnlyReceiveThrough(s: State, h: nat, t: State, u: State)
    requires OnlyReceive(s, h, t) && OnlyReceive(t, h, u)
    ensures OnlyReceive(s, h, u)
  {
    forall o: nat | o != h ensures Marked(View(s.rows, o), View(u.rows, o)) {
      assert Marked(View(s.rows, o), View(t.rows, o)) && Marked(View(t.rows, o), View(u.rows, o));
    }
  }

  lemma OnlyKeeps(s: State, h: nat, t: State)
    requires OnlyReceive(s, h, t)
    ensures RowEvolves(View(s.rows, h), View(t.rows, h)) && t.internal == s.internal
    ensures h in s.invoices ==> h in t.invoices && t.invoices[h] == s.invoices[h]
  {
  }

  lemma HasInvoice(s: State, h: nat)
    requires HtlcBound(s, h)
    ensures h in s.invoices && MayPay(s, h) && View(s.rows, h).payment.Some? && View(s.rows, h).claimable.Some?
  {
  }

  lemma StillBound(s: State, h: nat, t: State)
    requires OnlyReceive(s, h, t) && HtlcBound(s, h)
    ensures HtlcBound(t, h) && t.invoices[h] == s.invoices[h]
    ensures RowEvolves(View(s.rows, h), View(t.rows, h))
  {
  }

  lemma CalmIsOnlyReceive(s: State, h: nat, t: State)
    requires Grown(s, t) && MarkedRows(s.rows, t.rows)
    requires t.internal == s.internal && t.verified == s.verified && t.settled == s.settled
    ensures OnlyReceive(s, h, t)
  {
    assert Marked(View(s.rows, h), View(t.rows, h));
  }

  predicate OtherHtlc(row: Row, payment: nat) {
    row.payment.Some? && row.payment != Some(payment)
  }

  /** HTLCs that must not touch the invoice: a local payer owns it, another HTLC
      is bound to it, or it was closed. */
  predicate MustReject(s: State, h: nat, payment: nat) {
    h in s.internal || h !in s.invoices || OtherHtlc(View(s.rows, h), payment) || View(s.rows, h).status == HtlcFailed
  }

  predicate WrongAmount(invoices: map<nat, Invoice>, h: nat, amount: Option<u64>) {
    h in invoices ==> amount.None? || amount.value != 1000 * invoices[h].sats
  }

  /** How a claimable HTLC ends up handled. */
  predicate Handled(s: State, h: nat, payment: nat, t: State) {
    || payment in t.failed
    || (View(s.rows, h).status == TransferCompleted && View(s.rows, h).payment == Some(payment))
    || (View(t.rows, h).claimSubmitted && View(t.rows, h).payment == Some(payment) && View(t.rows, h).Checkpoint())
  }

  /** One claim more, for this HTLC and its whole amount. */
  ghost predicate ClaimedExactly(a: set<ClaimCall>, b: set<ClaimCall>, h: nat, payment: nat, amount: Option<u64>) {
    amount.Some? && exists p: nat :: b == a + {ClaimCall(h, payment, amount.value, p)}
  }

  lemma SwapStillAllowed(s: State, t: State, h: nat)
    requires !View(s.rows, h).Checkpoint() && !Terminal(View(s.rows, h).status)
    requires MayPay(s, h) && Calm(s.(payouts := t.payouts), t)
    ensures !View(t.rows, h).Checkpoint() && !Terminal(View(t.rows, h).status)
    ensures MayPay(t, h) && t.invoices[h] == s.invoices[h]
  {
    assert Marked(View(s.rows, h), View(t.rows, h));
  }

  /** Asking again commits nothing new. */
  lemma CommitOnce(env: Env, s: State, t: State, h: nat)
    requires h in s.invoices && h in t.invoices && t.invoices[h] == s.invoices[h]
    requires t.payouts == s.payouts || t.payouts == Committed(env, s, h, true)
    ensures Committed(env, t, h, true) == Committed(env, s, h, true)
  {
  }
}
