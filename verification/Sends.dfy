/** Paying Lightning invoices and offers (src/ldk.rs, src/lightning_store.rs):
    the procedures of one task. Every other task may act between any two of its
    steps, on the same intent too, because no lock is taken. */
module Sends {
  import opened Basics
  import opened SendRun

  /** The steps of one task, in order. */
  ghost function Own(run: seq<Action>, t: nat): seq<Action> {
    if run == [] then []
    else
      var before, last := Own(run[..|run| - 1], t), run[|run| - 1];
      if ActsAs(last, t) then before + [last] else before
  }

  lemma OwnStep(run: seq<Action>, a: Action, t: nat)
    ensures Own(run + [a], t) == if ActsAs(a, t) then Own(run, t) + [a] else Own(run, t)
  {
    assert (run + [a])[..|run|] == run;
  }

  /** What a task did between two moments. */
  predicate Took(before: seq<Action>, after: seq<Action>, steps: seq<Action>) {
    after == before + steps
  }

  /** What the outside answers while one intent is carried on: to two lookups at
      most, to a submission, to the collection of the funding and to its refund. */
  datatype Replies = Replies(first: Outcome<()>, second: Outcome<()>, submitted: Outcome<nat>,
                             collected: Outcome<()>, refunded: Outcome<()>)

  /** LDK has no payment under this id, and files invoices under their hash. */
  predicate Storable(payments: map<nat, Payment>, send: Send, payment: nat) {
    payment !in payments && (send.kind == Bolt11 ==> payment == send.ident)
  }

  /** The answer names a payment that LDK cannot have stored for this intent. */
  predicate Refused(s: State, id: nat, reply: Outcome<nat>) {
    id in s.sends && reply.Ok? && !Storable(s.payments, s.sends[id], reply.value)
  }

  /** One call to LDK to pay, and what was heard of it. */
  predicate Called(call: Action, t: nat, reply: Outcome<nat>, refused: bool) {
    && call.CallSubmit? && call.t == t
    && (call.ok ==> reply == Ok(call.payment)) && (!call.ok && reply.Ok? ==> refused)
  }

  /** One submission to LDK and what came of it: an answer is bound, a lost or
      refused one is only noted. */
  predicate Submission(steps: seq<Action>, t: nat, bound: Option<nat>, reply: Outcome<nat>, refused: bool,
                       r: Outcome<()>)
  {
    && steps != [] && Called(steps[0], t, reply, refused)
    && (steps[0].ok ==> Answered(steps[1..], t, steps[0].payment, bound, r))
    && (!steps[0].ok ==> steps[1..] == [] && !r.Err? && (r.Crashed? <==> reply.Crashed?))
  }

  /** LDK's answer to a submission is bound, or refused by the row. */
  predicate Answered(steps: seq<Action>, t: nat, payment: nat, bound: Option<nat>, r: Outcome<()>) {
    steps == [SendRun.Bind(t)] && !r.Crashed? && (r.Ok? ==> bound == Some(payment))
  }

  /** A lookup and what came of it: a found payment is bound. */
  predicate Found(steps: seq<Action>, t: nat, bound: Option<nat>, answered: Outcome<()>, r: Outcome<Option<nat>>) {
    if !answered.Ok? then steps == [] && !r.Ok?
    else
      && steps != [] && steps[0].Lookup? && steps[0].t == t && !r.Crashed?
      && match steps[0].found
         case None => steps[1..] == [] && r == Ok(None)
         case Some(p) => steps[1..] == [SendRun.Bind(t)] && (r.Ok? ==> r.value == Some(p) && bound == Some(p))
  }

  /** An invoice is submitted once more; only an error leads to a second lookup. */
  ghost predicate Retried(steps: seq<Action>, t: nat, bound: Option<nat>, reply: Outcome<nat>, refused: bool,
                          answered: Outcome<()>, r: Outcome<()>)
  {
    && steps != [] && Called(steps[0], t, reply, refused)
    && (steps[0].ok ==> Answered(steps[1..], t, steps[0].payment, bound, r))
    && (!steps[0].ok && steps[1..] == [] ==> !r.Ok?)
    && (reply.Crashed? ==> steps[1..] == [] && r.Crashed?)
    && (!steps[0].ok && !reply.Crashed? ==>
          exists found: Outcome<Option<nat>> :: Found(steps[1..], t, bound, answered, found) && SameKind(found, r))
  }

  /** Recovery past the checkpoint, from a row as it was read: one lookup; then the
      found payment is bound and observed, or an unbound invoice submitted again. */
  ghost predicate Recovery(steps: seq<Action>, t: nat, id: nat, snap: Send, bound: Option<nat>, q: Replies,
                           refused: bool, r: Outcome<()>)
  {
    && steps != [] && steps[0] == Start(t, ToLookup(id, snap, false))
    && if !q.first.Ok? then |steps| == 1 && !r.Ok?
       else
         && |steps| >= 2 && steps[1].Lookup? && steps[1].t == t
         && match steps[1].found
            case None =>
              if Resubmittable(snap) then Retried(steps[2..], t, bound, q.submitted, refused, q.second, r)
              else |steps| == 2 && r == Ok(())
            case Some(p) =>
              && |steps| >= 3 && steps[2] == SendRun.Bind(t)
              && (if r.Err? then |steps| == 3 else bound == Some(p) && Observation(steps[3..], t, p))
  }

  predicate FollowedFound(steps: seq<Action>, t: nat, payment: nat, r: Outcome<()>) {
    !r.Err? && Observation(steps, t, payment)
  }

  ghost predicate Followed(steps: seq<Action>, t: nat, snap: Send, bound: Option<nat>, found: Outcome<Option<nat>>,
                           q: Replies, refused: bool, r: Outcome<()>)
  {
    match found
    case Ok(Some(p)) => FollowedFound(steps, t, p, r)
    case Ok(None) =>
      if Resubmittable(snap) then Retried(steps, t, bound, q.submitted, refused, q.second, r)
      else steps == [] && r == Ok(())
    case _ => steps == [] && SameKind(found, r)
  }

  /** A lookup and what it led to are a recovery. */
  lemma RecoveredBy(looks: seq<Action>, rest: seq<Action>, t: nat, id: nat, snap: Send, early: Option<nat>,
                    bound: Option<nat>, q: Replies, refused: bool, found: Outcome<Option<nat>>, r: Outcome<()>)
    requires Found(looks, t, early, q.first, found) && Followed(rest, t, snap, bound, found, q, refused, r)
    requires early.Some? ==> bound == early
    ensures Recovery([Start(t, ToLookup(id, snap, false))] + looks + rest, t, id, snap, bound, q, refused, r)
  {
    hide Retried, Observation;
    var steps := [Start(t, ToLookup(id, snap, false))] + looks + rest;
    if q.first.Ok? {
      assert steps[1] == looks[0];
      assert steps[1 + |looks|..] == rest;
    } else {
      assert steps == [Start(t, ToLookup(id, snap, false))];
    }
  }

  /** Funding is collected and the row marked, or collecting fails. */
  predicate Settlement(steps: seq<Action>, t: nat, ok: bool) {
    if ok then |steps| == 2 && steps[0].Collect? && steps[0].t == t && steps[0].ok && steps[1] == Mark(t)
    else steps == [] || (|steps| == 1 && steps[0].Collect? && steps[0].t == t && !steps[0].ok)
  }

  /** An invoice is marked at once, an offer only after its refund. */
  predicate GivingUp(steps: seq<Action>, t: nat, id: nat, kind: Kind, ok: bool) {
    && |steps| >= 2 && steps[0] == SendRun.Fail(t, id)
    && match kind
       case Bolt11 => ok && steps[1..] == [Mark(t)]
       case Bolt12 =>
         && |steps| >= 3 && steps[1] == MarkRefunding(t)
         && steps[2].CallRefund? && steps[2].t == t && steps[2].ok == ok
         && steps[3..] == if ok then [Mark(t)] else []
  }

  /** The row is marked SETTLING by a step of its own. */
  predicate Noted(steps: seq<Action>, t: nat, payment: nat) {
    var mark := [Start(t, ToMark(payment, Status.Settling)), Mark(t)];
    steps == mark || steps == [Drop(t)] + mark
  }

  /** A paid payment is settled, or a failure to settle is noted. */
  ghost predicate PaidObserved(steps: seq<Action>, t: nat, payment: nat, r: Outcome<()>) {
    && steps != [] && steps[0] == Start(t, ToCollect(payment))
    && if !r.Err? then Settlement(steps[1..], t, r.Ok?)
       else exists k :: 1 <= k <= |steps| && Settlement(steps[1..k], t, false) && Noted(steps[k..], t, payment)
  }

  lemma PaidObservedBy(rest: seq<Action>, noted: seq<Action>, t: nat, payment: nat, r: Outcome<()>)
    requires Settlement(rest, t, r.Ok?) && if r.Err? then Noted(noted, t, payment) else noted == []
    ensures PaidObserved([Start(t, ToCollect(payment))] + rest + noted, t, payment, r)
    ensures forall a :: a in [Start(t, ToCollect(payment))] + rest + noted ==> !a.CallSubmit?
  {
    var steps := [Start(t, ToCollect(payment))] + rest + noted;
    assert steps[1..1 + |rest|] == rest && steps[1 + |rest|..] == noted;
    assert r.Ok? || r.Crashed? ==> steps[1..] == rest;
  }

  lemma GivingUpBy(t: nat, id: nat, kind: Kind, back: seq<Action>, steps: seq<Action>, ok: bool)
    requires kind == Bolt11 ==> back == [] && ok
    requires kind == Bolt12 ==> |back| == 2 && back[0] == MarkRefunding(t)
    requires kind == Bolt12 ==> back[1].CallRefund? && back[1].t == t && back[1].ok == ok
    requires steps == [SendRun.Fail(t, id)] + back + if ok then [Mark(t)] else []
    ensures GivingUp(steps, t, id, kind, ok)
  {
  }

  /** A payment is looked at: nothing to do, or one outcome is acted on. */
  predicate Observation(steps: seq<Action>, t: nat, payment: nat) {
    && (steps == [] || steps[0] == Start(t, ToCollect(payment)) || steps[0] == Start(t, ToFail(payment)))
    && forall k :: 0 <= k < |steps| ==> !steps[k].CallSubmit?
  }

  /** Binding ends an uncertain submission as PENDING and keeps any other status. */
  predicate Promoted(before: Status, after: Status) {
    after == if before == Prepared || before == Submitting then Status.Pending else before
  }

  predicate SameKind(a: Outcome<Option<nat>>, b: Outcome<()>) {
    (a.Ok? <==> b.Ok?) && (a.Err? <==> b.Err?)
  }

  class SendService {
    const hashOf: nat -> nat
    // lightning_sends, and the tasks that hold one of its rows
    var sends: map<nat, Send>
    var tasks: map<nat, Task>
    // LDK's payments and the operators' transfers
    var payments: map<nat, Payment>
    var submits: multiset<nat>
    var collections: map<nat, Collection>
    var refunds: map<nat, Refund>
    ghost var run: seq<Action>

    function Now(): State
      reads this
    {
      State(sends, tasks, payments, submits, collections, refunds)
    }

    ghost predicate Valid()
      reads this
    {
      Legal(hashOf, run) && After(hashOf, run) == Now()
    }

    constructor (hashOf: nat -> nat)
      ensures Valid() && run == [] && this.hashOf == hashOf
    {
      this.hashOf := hashOf;
      sends, tasks, payments, submits, collections, refunds := map[], map[], map[], multiset{}, map[], map[];
      run := [];
    }

    ghost function Mine(t: nat): seq<Action>
      reads this
    {
      Own(run, t)
    }

    /** One step of the run, taken by anybody. */
    method Act(a: Action)
      requires Valid() && Enabled(hashOf, Now(), a)
      modifies this
      ensures Valid() && run == old(run) + [a] && Now() == Apply(hashOf, old(Now()), a)
      ensures Evolves(old(Now()), Now())
      ensures forall t :: Mine(t) == if ActsAs(a, t) then old(Mine(t)) + [a] else old(Mine(t))
    {
      hide After, Legal, Apply, Enabled, Own;
      forall t: nat ensures Own(run + [a], t) == if ActsAs(a, t) then Own(run, t) + [a] else Own(run, t) {
        OwnStep(run, a, t);
      }
      EveryRunKeepsInv(hashOf, run);
      StepEvolves(hashOf, Now(), a);
      Extend(hashOf, run, a);
      var next := Apply(hashOf, Now(), a);
      sends, tasks, payments := next.sends, next.tasks, next.payments;
      submits, collections, refunds := next.submits, next.collections, next.refunds;
      run := run + [a];
    }

    /** The other tasks run while `t` awaits something. */
    method Others(t: nat)
      requires Valid()
      modifies this
      ensures Valid() && old(run) <= run && Mine(t) == old(Mine(t))
      ensures Evolves(old(Now()), Now())
      ensures t in tasks <==> t in old(tasks)
      ensures t in tasks ==> tasks[t] == old(tasks[t])
    {
      hide After, Legal, Apply, Enabled, Evolves, Own;
      var steps: seq<Action> := *;
      Still(Now());
      for i := 0 to |steps|
        invariant Valid() && old(run) <= run && Mine(t) == old(Mine(t))
        invariant Evolves(old(Now()), Now())
        invariant t in tasks <==> t in old(tasks)
        invariant t in tasks ==> tasks[t] == old(tasks[t])
      {
        var a := steps[i];
        if !ActsAs(a, t) && !a.Crash? && Enabled(hashOf, Now(), a) {
          ghost var mid := Now();
          TasksStay(hashOf, mid, a, t);
          Act(a);
          EvolvesThrough(old(Now()), mid, Now());
        }
      }
    }

    lemma Holds()
      requires Valid()
      ensures Inv(hashOf, Now())
    {
      EveryRunKeepsInv(hashOf, run);
    }

    // ---- One commit ----

    /** A new intent, unless its funding or its invoice is taken. */
    method PrepareLightningSend(id: nat, send: Send) returns (r: Outcome<()>)
      requires Valid() && send.status == Prepared && send.payment.None?
      modifies this
      ensures Valid() && old(run) <= run
      ensures r.Err? <==> !r.Crashed? && !Fits(old(sends), id, send)
      ensures sends == old(sends) || (Fits(old(sends), id, send) && sends == old(sends)[id := send])
      ensures r.Ok? ==> sends == old(sends)[id := send]
      ensures r.Err? ==> Now() == old(Now())
    {
      hide After, Legal;
      var dies: bool := *;
      var committed: bool := *;
      if dies && !committed {
        return Crashed;
      }
      if !Fits(sends, id, send) {
        return if dies then Crashed else Err(Rejected);
      }
      Act(Prepare(id, send));
      r := if dies then Crashed else Ok(());
    }

    /** True for the one task that moves the intent past PREPARED. */
    method BeginLightningSubmission(t: nat, id: nat) returns (won: bool)
      requires Valid() && t in tasks && tasks[t] == ToBegin(id)
      modifies this
      ensures Valid() && run == old(run) + [Begin(t)]
      ensures sends == BeginSubmission(old(sends), id) && Evolves(old(Now()), Now())
      ensures won <==> id in old(sends) && old(sends[id]).status == Prepared
      ensures if won then t in tasks && tasks[t] == ToSubmit(id) else t !in tasks
      ensures won ==> sends == old(sends)[id := old(sends[id]).(status := Submitting)]
      ensures !won ==> sends == old(sends)
      ensures Mine(t) == old(Mine(t)) + [Begin(t)]
    {
      hide After, Legal, Evolves, Own;
      won := id in sends && sends[id].status == Prepared;
      Act(Begin(t));
    }

    /** Bind the payment id; an id that is bound already is never replaced. */
    method BindLightningPayment(t: nat, id: nat, payment: nat) returns (r: Outcome<()>)
      requires Valid() && t in tasks && tasks[t] == ToBind(id, payment)
      modifies this
      ensures Valid() && run == old(run) + [SendRun.Bind(t)]
      ensures sends == BindPayment(old(sends), id, payment) && t !in tasks && Evolves(old(Now()), Now())
      ensures r.Ok? ==> id in sends && sends[id].payment == Some(payment)
      ensures r.Ok? ==> id in old(sends) && Promoted(old(sends[id]).status, sends[id].status)
      ensures r.Err? ==> sends == old(sends) && !Bindable(old(sends), id, payment)
      ensures !r.Crashed? && Mine(t) == old(Mine(t)) + [SendRun.Bind(t)]
    {
      hide After, Legal, Evolves, Own;
      var fits := Bindable(sends, id, payment);
      Act(SendRun.Bind(t));
      r := if fits then Ok(()) else Err(Rejected);
    }

    /** Write a status to the bound row, unless that row is finished. */
    method SetPaymentStatus(t: nat, payment: nat, status: Status)
      requires Valid() && t in tasks && tasks[t] == ToMark(payment, status)
      modifies this
      ensures Valid() && run == old(run) + [Mark(t)]
      ensures sends == SetPayment(old(sends), payment, status) && t !in tasks && Evolves(old(Now()), Now())
      ensures Mine(t) == old(Mine(t)) + [Mark(t)]
    {
      hide After, Legal, Evolves, Own;
      Act(Mark(t));
    }

    // ---- Outside calls ----

    /** LDK may store the payment and lose the reply; it never stores a second
        payment for one invoice. */
    method Submit(t: nat, id: nat, reply: Outcome<nat>) returns (r: Outcome<nat>)
      requires Valid() && t in tasks && Submits(Now(), t, id)
      modifies this
      ensures Valid() && |run| == |old(run)| + 1 && old(run) <= run
      ensures var a := run[|run| - 1];
        && a.CallSubmit? && a.t == t && a.ok == r.Ok? && (r.Ok? ==> a.payment == r.value)
        && Mine(t) == old(Mine(t)) + [a]
      ensures r.Ok? ==> r == reply
      ensures r.Crashed? <==> reply.Crashed?
      ensures r.Err? && reply.Ok? ==> Refused(Now(), id, reply)
      ensures Evolves(old(Now()), Now()) && submits == old(submits)[id := old(submits[id]) + 1]
      ensures r.Ok? ==> t in tasks && tasks[t] == ToBind(id, r.value)
      ensures r.Err? && old(tasks[t]).ToResubmit? ==> t in tasks && tasks[t] == ToLookup(id, old(tasks[t]).snap, true)
    {
      hide After, Legal, Evolves, Own;
      var stored: bool := *;
      var payment: nat := *;
      if reply.Ok? {
        payment := reply.value;
      }
      var created := (stored || reply.Ok?) && Storable(payments, sends[id], payment);
      Act(CallSubmit(t, created, payment, created && reply.Ok?));
      if reply.Ok? {
        return if created then reply else Err(Rejected);
      }
      return reply;
    }

    /** The payment that belongs to the row as it was read, if LDK has one and
        answers at all. */
    method LookupPayment(t: nat, id: nat, snap: Send, again: bool, answered: Outcome<()>)
      returns (r: Outcome<Option<nat>>)
      requires Valid() && t in tasks && tasks[t] == ToLookup(id, snap, again)
      modifies this
      ensures Valid() && old(run) <= run && Evolves(old(Now()), Now()) && sends == old(sends)
      ensures if answered.Ok? then r.Ok? else r == answered.PropagateFailure() && run == old(run)
      ensures r.Ok? ==> run == old(run) + [Lookup(t, r.value)] && Mine(t) == old(Mine(t)) + [Lookup(t, r.value)]
      ensures r.Ok? && r.value.Some? ==> t in tasks && tasks[t] == ToBind(id, r.value.value)
      ensures r.Ok? && r.value.None? && Resubmittable(snap) && !again ==> t in tasks && tasks[t] == ToResubmit(id, snap)
      ensures r.Ok? && r.value.None? && !(Resubmittable(snap) && !again) ==> t !in tasks
    {
      hide After, Legal, Evolves, Own;
      Still(Now());
      var _ :- answered;
      var rest := payments.Keys;
      var found: Option<nat> := None;
      while rest != {} && found.None?
        invariant rest <= payments.Keys
        invariant found.Some? ==>
          found.value in payments && ValidateSendPayment(id, snap, found.value, payments[found.value])
        invariant found.None? ==> forall p :: p in payments && p !in rest ==>
          !ValidateSendPayment(id, snap, p, payments[p])
        decreases |rest|
      {
        var p :| p in rest;
        if ValidateSendPayment(id, snap, p, payments[p]) {
          found := Some(p);
        }
        rest := rest - {p};
      }
      Act(Lookup(t, found));
      r := Ok(found);
    }

    method Finish(t: nat)
      requires Valid()
      modifies this
      ensures Valid() && old(run) <= run && Evolves(old(Now()), Now()) && t !in tasks && sends == old(sends)
      ensures Mine(t) == old(Mine(t)) + if t in old(tasks) then [Drop(t)] else []
    {
      hide After, Legal, Evolves, Own;
      Still(Now());
      if t in tasks {
        Act(Drop(t));
      }
    }

    // ---- Procedures ----

    /** Cross the checkpoint, then submit exactly once, then bind the answer. A
        lost reply leaves SUBMITTING behind; nothing is submitted without winning. */
    method SubmitDurableSend(t: nat, id: nat, reply: Outcome<nat>) returns (r: Outcome<()>)
      requires Valid() && t in tasks && tasks[t] == ToBegin(id)
      modifies this
      ensures Valid() && old(run) <= run && Evolves(old(Now()), Now())
      ensures id in old(sends) && old(sends[id]).status == Prepared ==> exists steps ::
        && Took(old(Mine(t)), Mine(t), [Begin(t)] + steps)
        && id in sends && Submission(steps, t, sends[id].payment, reply, Refused(Now(), id, reply), r)
      ensures !(id in old(sends) && old(sends[id]).status == Prepared) ==>
        r == Ok(()) && Took(old(Mine(t)), Mine(t), [Begin(t)])
      ensures id in old(sends) ==> id in sends && sends[id].status != Prepared
    {
      hide After, Legal, Apply, Enabled, Evolves, Own, Submission, Refused;
      var won := BeginLightningSubmission(t, id);
      ghost var began := Now();
      if !won {
        return Ok(());
      }
      Others(t);
      EvolvesThrough(old(Now()), began, Now());
      RowStays(began, Now(), id);
      ghost var waited := Now();
      ghost var steps: seq<Action>;
      r, steps := SubmitAndBind(t, id, reply);
      EvolvesThrough(old(Now()), waited, Now());
      RowStays(waited, Now(), id);
      assert Took(old(Mine(t)), Mine(t), [Begin(t)] + steps);
    }

    method SubmitAndBind(t: nat, id: nat, reply: Outcome<nat>) returns (r: Outcome<()>, ghost steps: seq<Action>)
      requires Valid() && t in tasks && tasks[t] == ToSubmit(id) && id in sends
      modifies this
      ensures Valid() && old(run) <= run && Evolves(old(Now()), Now())
      ensures Mine(t) == old(Mine(t)) + steps && id in sends
      ensures Submission(steps, t, sends[id].payment, reply, Refused(Now(), id, reply), r)
    {
      hide After, Legal, Apply, Enabled, Evolves, Own, Refused;
      var submitted := Submit(t, id, reply);
      ghost var asked := Now();
      steps := [run[|run| - 1]];
      RowStays(old(Now()), asked, id);
      match submitted {
        case Crashed => r := Crashed;
        case Err(e) =>
          // The outcome is unknown; the error is only noted.
          r := Ok(());
        case Ok(payment) =>
          r := BindReply(t, id, payment);
          EvolvesThrough(old(Now()), asked, Now());
          RowStays(asked, Now(), id);
          steps := steps + [SendRun.Bind(t)];
      }
    }

    method BindReply(t: nat, id: nat, payment: nat) returns (r: Outcome<()>)
      requires Valid() && t in tasks && tasks[t] == ToBind(id, payment)
      modifies this
      ensures Valid() && old(run) <= run && Evolves(old(Now()), Now()) && t !in tasks && !r.Crashed?
      ensures Mine(t) == old(Mine(t)) + [SendRun.Bind(t)]
      ensures r.Ok? ==> id in sends && sends[id].payment == Some(payment) && sends[id].status !in {Prepared, Submitting}
      ensures r.Err? ==> !Bindable(sends, id, payment)
    {
      hide After, Legal, Apply, Enabled, Evolves, Own;
      Others(t);
      ghost var waited := Now();
      r := BindLightningPayment(t, id, payment);
      EvolvesThrough(old(Now()), waited, Now());
    }

    /** Submit an invoice again under its own id, after LDK reported no record;
        an error may mean that the first call won, so look once more. */
    method RetryMissingBolt11(t: nat, id: nat, snap: Send, reply: Outcome<nat>, answered: Outcome<()>)
      returns (r: Outcome<()>, ghost steps: seq<Action>)
      requires Valid() && t in tasks && tasks[t] == ToResubmit(id, snap) && id in sends
      modifies this
      ensures Valid() && old(run) <= run && Evolves(old(Now()), Now())
      ensures Mine(t) == old(Mine(t)) + steps && id in sends
      ensures Retried(steps, t, sends[id].payment, reply, Refused(Now(), id, reply), answered, r)
    {
      hide After, Legal, Apply, Enabled, Evolves, Own, Refused;
      var submitted := Submit(t, id, reply);
      ghost var asked := Now();
      ghost var call := run[|run| - 1];
      steps := [call];
      RowStays(old(Now()), asked, id);
      match submitted {
        case Crashed => r := Crashed;
        case Ok(payment) =>
          r := BindReply(t, id, payment);
          steps := steps + [SendRun.Bind(t)];
          EvolvesThrough(old(Now()), asked, Now());
          RowStays(asked, Now(), id);
        case Err(e) =>
          var found, looked := RecoverSubmission(t, id, snap, true, answered);
          r := if found.Ok? then Ok(()) else found.PropagateFailure();
          steps := steps + looked;
          assert steps[1..] == looked && SameKind(found, r);
          EvolvesThrough(old(Now()), asked, Now());
          RefusedStays(asked, Now(), id, reply);
      }
    }

    /** Find the intent's payment and bind it; None leaves the row as it is. */
    method RecoverSubmission(t: nat, id: nat, snap: Send, again: bool, answered: Outcome<()>)
      returns (r: Outcome<Option<nat>>, ghost steps: seq<Action>)
      requires Valid() && t in tasks && tasks[t] == ToLookup(id, snap, again) && id in sends
      modifies this
      ensures Valid() && old(run) <= run && Evolves(old(Now()), Now())
      ensures Mine(t) == old(Mine(t)) + steps && id in sends && Found(steps, t, sends[id].payment, answered, r)
      ensures r.Ok? && r.value.Some? ==> t !in tasks
      ensures r.Ok? && r.value.None? && Resubmittable(snap) && !again ==> t in tasks && tasks[t] == ToResubmit(id, snap)
    {
      hide After, Legal, Apply, Enabled, Evolves, Own;
      Others(t);
      ghost var waited := Now();
      r := LookupPayment(t, id, snap, again, answered);
      ghost var looked := Now();
      EvolvesThrough(old(Now()), waited, looked);
      RowStays(old(Now()), looked, id);
      steps := if r.Ok? then [Lookup(t, r.value)] else [];
      if r.Ok? && r.value.Some? {
        var bound := BindReply(t, id, r.value.value);
        EvolvesThrough(old(Now()), looked, Now());
        RowStays(looked, Now(), id);
        steps := steps + [SendRun.Bind(t)];
        r := if bound.Ok? then r else bound.PropagateFailure();
      }
    }

    /** Recovery of an intent: one that is still PREPARED is submitted, exactly
        once. One past its checkpoint is looked up; what is found is bound and
        observed, and only an unbound invoice of which LDK has no payment is
        submitted again. An offer never is. */
    method RecoverSend(t: nat, id: nat, q: Replies) returns (r: Outcome<()>, ghost steps: seq<Action>)
      requires Valid() && t !in tasks && id in sends
      modifies this
      ensures Valid() && old(run) <= run && Evolves(old(Now()), Now())
      ensures Mine(t) == old(Mine(t)) + steps && id in sends
      ensures Terminal(old(sends[id]).status) ==> r == Ok(()) && run == old(run)
      ensures old(sends[id]).status == Prepared ==>
        && |steps| >= 2 && steps[..2] == [Start(t, ToBegin(id)), Begin(t)]
        && Submission(steps[2..], t, sends[id].payment, q.submitted, Refused(Now(), id, q.submitted), r)
      ensures old(sends[id]).status != Prepared && !Terminal(old(sends[id]).status) ==>
        Recovery(steps, t, id, old(sends[id]), sends[id].payment, q, Refused(Now(), id, q.submitted), r)
    {
      hide After, Legal, Apply, Evolves, Own, Refused;
      Still(Now());
      steps := [];
      var snap := sends[id];
      if Terminal(snap.status) {
        return Ok(()), [];
      }
      if snap.status == Prepared {
        r, steps := RecoverPrepared(t, id, q.submitted);
      } else {
        r, steps := RecoverUncertain(t, id, q);
      }
    }

    method RecoverPrepared(t: nat, id: nat, reply: Outcome<nat>) returns (r: Outcome<()>, ghost steps: seq<Action>)
      requires Valid() && t !in tasks && id in sends && sends[id].status == Prepared
      modifies this
      ensures Valid() && old(run) <= run && Evolves(old(Now()), Now())
      ensures Mine(t) == old(Mine(t)) + steps && id in sends
      ensures |steps| >= 2 && steps[..2] == [Start(t, ToBegin(id)), Begin(t)]
      ensures Submission(steps[2..], t, sends[id].payment, reply, Refused(Now(), id, reply), r)
    {
      hide After, Legal, Apply, Evolves, Own, Submission, Refused;
      Act(Start(t, ToBegin(id)));
      StartedAs(hashOf, old(Now()), t, ToBegin(id));
      ghost var ready := Now();
      ghost var before := Mine(t);
      r := SubmitDurableSend(t, id, reply);
      EvolvesThrough(old(Now()), ready, Now());
      ghost var rest :| Took(before, Mine(t), [Begin(t)] + rest)
        && Submission(rest, t, sends[id].payment, reply, Refused(Now(), id, reply), r);
      steps := [Start(t, ToBegin(id)), Begin(t)] + rest;
      assert steps[2..] == rest;
    }

    method RecoverUncertain(t: nat, id: nat, q: Replies) returns (r: Outcome<()>, ghost steps: seq<Action>)
      requires Valid() && t !in tasks && id in sends
      requires sends[id].status != Prepared && !Terminal(sends[id].status)
      modifies this
      ensures Valid() && old(run) <= run && Evolves(old(Now()), Now())
      ensures Mine(t) == old(Mine(t)) + steps && id in sends
      ensures Recovery(steps, t, id, old(sends[id]), sends[id].payment, q, Refused(Now(), id, q.submitted), r)
    {
      hide After, Legal, Apply, Enabled, Evolves, Own, Resubmittable, Recovery, Found, Followed, Refused;
      var snap := sends[id];
      StartLookup(hashOf, Now(), t, id);
      Act(Start(t, ToLookup(id, snap, false)));
      ghost var started := Now();
      var found, looks := RecoverSubmission(t, id, snap, false, q.first);
      ghost var looked := Now();
      EvolvesThrough(old(Now()), started, looked);
      r, steps := FollowLookup(t, id, snap, found, q);
      EvolvesThrough(old(Now()), looked, Now());
      RowStays(looked, Now(), id);
      RecoveredBy(looks, steps, t, id, snap, looked.sends[id].payment, sends[id].payment, q,
        Refused(Now(), id, q.submitted), found, r);
      steps := [Start(t, ToLookup(id, snap, false))] + looks + steps;
    }

    /** What a lookup leads to: an error ends here, a found payment is observed, and
        a missing invoice is submitted again. */
    method FollowLookup(t: nat, id: nat, snap: Send, found: Outcome<Option<nat>>, q: Replies)
      returns (r: Outcome<()>, ghost steps: seq<Action>)
      requires Valid() && id in sends
      requires found.Ok? && found.value.Some? ==> t !in tasks
      requires found.Ok? && found.value.None? && Resubmittable(snap) ==> t in tasks && tasks[t] == ToResubmit(id, snap)
      modifies this
      ensures Valid() && old(run) <= run && Evolves(old(Now()), Now())
      ensures Mine(t) == old(Mine(t)) + steps && id in sends
      ensures Followed(steps, t, snap, sends[id].payment, found, q, Refused(Now(), id, q.submitted), r)
    {
      hide After, Legal, Apply, Enabled, Evolves, Own, Retried, Observation, Resubmittable, Refused;
      Still(Now());
      steps := [];
      if !found.Ok? {
        r := found.PropagateFailure();
      } else if found.value.Some? {
        r, steps := ObserveFound(t, found.value.value, q.collected, q.refunded);
      } else if !Resubmittable(snap) {
        r := Ok(());
      } else {
        r, steps := RetryMissingBolt11(t, id, snap, q.submitted, q.second);
      }
      RowStays(old(Now()), Now(), id);
    }

    // ---- Outcomes ----

    /** The row bound to a payment, as SQL finds it. */
    method SendForPayment(payment: nat) returns (found: Option<nat>)
      ensures found.Some? ==> found.value in sends && sends[found.value].payment == Some(payment)
      ensures found.None? ==> forall id :: id in sends ==> sends[id].payment != Some(payment)
    {
      var rest := sends.Keys;
      while rest != {}
        invariant rest <= sends.Keys
        invariant forall id :: id in sends && id !in rest ==> sends[id].payment != Some(payment)
      {
        var id :| id in rest;
        if sends[id].payment == Some(payment) {
          return Some(id);
        }
        rest := rest - {id};
      }
      return None;
    }

    /** Collect the sender's funding of a paid invoice, or check an offer's proof;
        the call may collect and lose its reply. */
    method CollectFunding(t: nat, id: nat, payment: nat, reply: Outcome<()>) returns (r: Outcome<()>)
      requires Valid() && t in tasks && tasks[t] == ToCollect(payment)
      requires payment in payments && payments[payment].result.Paid?
      requires id in sends && sends[id].payment == Some(payment)
      requires ValidateSendPayment(id, sends[id], payment, payments[payment])
      modifies this
      ensures Valid() && old(run) <= run && Evolves(old(Now()), Now()) && |run| == |old(run)| + 1
      ensures var a := run[|run| - 1];
        && a.Collect? && a.t == t && a.id == id && a.ok == r.Ok? && Mine(t) == old(Mine(t)) + [a]
      ensures sends == old(sends)
      ensures r.Ok? ==> t in tasks && tasks[t] == ToMark(payment, Succeeded)
      ensures r.Err? ==> t in tasks && tasks[t] == ToMark(payment, Settling)
      ensures r.Ok? && sends[id].kind == Bolt11 ==> Collected(hashOf, Now(), id)
      ensures r.Ok? <==> reply.Ok? && Proven(hashOf, sends[id].kind, old(payments[payment]))
      ensures r.Crashed? ==> reply.Crashed?
    {
      hide After, Legal, Evolves, Own;
      if !Proven(hashOf, sends[id].kind, payments[payment]) {
        Act(Collect(t, id, false, false));
        return Err(Mismatch);
      }
      var settles: bool := *;
      var collects := sends[id].kind == Bolt11 && (settles || reply.Ok?);
      Act(Collect(t, id, collects, reply.Ok?));
      if reply.Ok? && sends[id].funding in collections {
        HoldsCollections(id);
      }
      r := if reply.Err? then Err(Unavailable) else reply;
    }

    lemma HoldsCollections(id: nat)
      requires Valid() && id in sends && sends[id].funding in collections
      ensures CollectionSound(hashOf, Now(), sends[id].funding)
      ensures sends[id].kind == Bolt11 ==> Collected(hashOf, Now(), id)
    {
      hide After, Legal;
      EveryRunKeepsInv(hashOf, run);
      assert CollectionSound(hashOf, Now(), sends[id].funding);
      assert PaymentSound(Now(), collections[sends[id].funding].payment);
    }

    /** LDK says the payment succeeded. Ok means that its intent is SUCCEEDED,
        and for an invoice that the sender's funding is collected. */
    method SettleSucceededPayment(t: nat, payment: nat, reply: Outcome<()>)
      returns (r: Outcome<()>, ghost steps: seq<Action>)
      requires Valid() && t in tasks && tasks[t] == ToCollect(payment)
      requires payment in payments && payments[payment].result.Paid?
      modifies this
      ensures Valid() && old(run) <= run && Evolves(old(Now()), Now())
      ensures Mine(t) == old(Mine(t)) + steps && Settlement(steps, t, r.Ok?)
      ensures r.Ok? ==> SettledFor(hashOf, Now(), payment)
      ensures steps == [] ==> forall id :: id in old(sends) && old(sends[id]).payment == Some(payment) ==>
        !ValidateSendPayment(id, old(sends[id]), payment, old(payments[payment]))
      ensures r.Ok? <==> reply.Ok? && Collectable(hashOf, old(Now()), payment)
      ensures r.Crashed? ==> reply.Crashed?
    {
      hide After, Legal, Apply, Enabled, Evolves, Own, Proven;
      Still(Now());
      steps := [];
      var found := SendForPayment(payment);
      if found.None? {
        return Err(Invalid), [];
      }
      var id := found.value;
      BoundOnce(id, payment);
      if !ValidateSendPayment(id, sends[id], payment, payments[payment]) {
        return Err(Mismatch), [];
      }
      r := CollectFunding(t, id, payment, reply);
      steps := [run[|run| - 1]];
      if r.Ok? {
        ghost var collected := Now();
        MarkSettled(t, id, payment);
        EvolvesThrough(old(Now()), collected, Now());
        steps := steps + [Mark(t)];
      }
    }

    method MarkSettled(t: nat, id: nat, payment: nat)
      requires Valid() && t in tasks && tasks[t] == ToMark(payment, Succeeded)
      requires id in sends && sends[id].payment == Some(payment)
      requires sends[id].kind == Bolt11 ==> Collected(hashOf, Now(), id)
      modifies this
      ensures Valid() && old(run) <= run && Evolves(old(Now()), Now()) && Mine(t) == old(Mine(t)) + [Mark(t)]
      ensures id in sends && sends[id].payment == Some(payment) && Settled(hashOf, Now(), id)
    {
      hide After, Legal, Apply, Enabled, Evolves, Own, Collected;
      Others(t);
      ghost var waited := Now();
      RowStays(old(Now()), waited, id);
      CollectedStays(hashOf, old(Now()), waited, id);
      NotFailed(id, payment);
      SetPaymentStatus(t, payment, Succeeded);
      EvolvesThrough(old(Now()), waited, Now());
      CollectedStays(hashOf, waited, Now(), id);
    }

    /** A payment with a task about to mark it SUCCEEDED cannot have failed. */
    lemma NotFailed(id: nat, payment: nat)
      requires Valid() && id in sends && sends[id].payment == Some(payment)
      requires exists t :: t in tasks && tasks[t] == ToMark(payment, Succeeded)
      ensures sends[id].status != Failed
    {
      hide After, Legal;
      EveryRunKeepsInv(hashOf, run);
      var t :| t in tasks && tasks[t] == ToMark(payment, Succeeded);
      assert TaskSound(Now(), t) && SendSound(Now(), id);
    }

    /** The operators return an offer's funding under an id made from the funding
        transfer, so asking again finds the first refund. */
    method RefundBolt12Send(t: nat, id: nat, payment: nat, reply: Outcome<()>) returns (r: Outcome<()>)
      requires Valid() && t in tasks && tasks[t] == ToRefund(id, payment) && id in sends
      modifies this
      ensures Valid() && old(run) <= run && Evolves(old(Now()), Now()) && |run| == |old(run)| + 1
      ensures var a := run[|run| - 1];
        a.CallRefund? && a.t == t && a.ok == r.Ok? && Mine(t) == old(Mine(t)) + [a]
      ensures r.Ok? ==> t in tasks && tasks[t] == ToMark(payment, Failed)
      ensures r.Ok? ==> old(sends[id]).funding in refunds
      ensures old(sends[id]).funding in old(refunds) ==> refunds == old(refunds)
      ensures (r.Ok? <==> reply.Ok?) && (r.Crashed? <==> reply.Crashed?)
    {
      hide After, Legal, Evolves, Own;
      var commits: bool := *;
      Act(CallRefund(t, commits || reply.Ok?, reply.Ok?));
      r := reply;
    }

    /** LDK says the payment failed. Ok means that its intent, if one is bound, is
        FAILED, and for an offer that its funding is back with its owner. */
    method FailManagedPayment(t: nat, payment: nat, reply: Outcome<()>)
      returns (r: Outcome<()>, ghost steps: seq<Action>)
      requires Valid() && t in tasks && tasks[t] == ToFail(payment)
      requires payment in payments && payments[payment].result.Lost?
      modifies this
      ensures Valid() && old(run) <= run && Evolves(old(Now()), Now())
      ensures r.Ok? ==> forall id :: id in old(sends) && old(sends[id]).payment == Some(payment) ==> GivenUp(Now(), id)
      ensures Mine(t) == old(Mine(t)) + steps && (steps == [] ==> r.Ok?)
      ensures forall id :: id in old(sends) && old(sends[id]).payment == Some(payment) && steps != [] ==>
        GivingUp(steps, t, id, old(sends[id]).kind, r.Ok?)
      ensures forall k :: 0 <= k < |steps| ==> !steps[k].CallSubmit?
      ensures r.Ok? <==> reply.Ok? || !Refundable(old(Now()), payment)
      ensures r.Crashed? ==> reply.Crashed?
    {
      hide After, Legal, Apply, Enabled, Evolves, Own, GivenUp;
      Still(Now());
      steps := [];
      var found := SendForPayment(payment);
      if found.None? {
        return Ok(()), [];
      }
      var id := found.value;
      BoundOnce(id, payment);
      NotSucceeded(id, payment);
      if Terminal(sends[id].status) {
        HoldsGivenUp(id);
        return Ok(()), [];
      }
      r, steps := GiveUp(t, id, payment, reply);
    }

    /** Refund an offer first, then mark the row. */
    method GiveUp(t: nat, id: nat, payment: nat, reply: Outcome<()>)
      returns (r: Outcome<()>, ghost steps: seq<Action>)
      requires Valid() && t in tasks && tasks[t] == ToFail(payment)
      requires payment in payments && payments[payment].result.Lost?
      requires id in sends && sends[id].payment == Some(payment) && !Terminal(sends[id].status)
      modifies this
      ensures Valid() && old(run) <= run && Evolves(old(Now()), Now())
      ensures r.Ok? ==> GivenUp(Now(), id)
      ensures Mine(t) == old(Mine(t)) + steps && GivingUp(steps, t, id, old(sends[id]).kind, r.Ok?)
      ensures (r.Ok? <==> reply.Ok? || old(sends[id]).kind == Bolt11) && (r.Crashed? ==> reply.Crashed?)
    {
      hide After, Legal, Apply, Enabled, Evolves, Own, GivenUp, GivingUp;
      ghost var back: seq<Action>;
      r, back := RefundFirst(t, id, payment, reply);
      steps := [SendRun.Fail(t, id)] + back;
      if r.Ok? {
        ghost var given := Now();
        RowStays(old(Now()), given, id);
        LostStays(old(Now()), given, payment);
        MarkGivenUp(t, id, payment);
        EvolvesThrough(old(Now()), given, Now());
        steps := steps + [Mark(t)];
      }
      GivingUpBy(t, id, old(sends[id]).kind, back, steps, r.Ok?);
    }

    method RefundFirst(t: nat, id: nat, payment: nat, reply: Outcome<()>)
      returns (r: Outcome<()>, ghost back: seq<Action>)
      requires Valid() && t in tasks && tasks[t] == ToFail(payment) && id in sends
      requires sends[id].payment == Some(payment) && !Terminal(sends[id].status)
      modifies this
      ensures Valid() && old(run) <= run && Evolves(old(Now()), Now())
      ensures r.Ok? ==> t in tasks && tasks[t] == ToMark(payment, Failed)
      ensures Mine(t) == old(Mine(t)) + ([SendRun.Fail(t, id)] + back)
      ensures old(sends[id]).kind == Bolt11 ==> back == [] && r.Ok?
      ensures old(sends[id]).kind == Bolt12 ==> |back| == 2 && back[0] == MarkRefunding(t)
      ensures old(sends[id]).kind == Bolt12 ==> back[1].CallRefund? && back[1].t == t && back[1].ok == r.Ok?
      ensures (r.Ok? <==> reply.Ok? || old(sends[id]).kind == Bolt11) && (r.Crashed? ==> reply.Crashed?)
    {
      hide After, Legal, Apply, Enabled, Evolves, Own;
      StepOfFail(hashOf, Now(), t, id);
      Act(SendRun.Fail(t, id));
      ghost var failing := Now();
      back := [];
      r := Ok(());
      if sends[id].kind == Bolt12 {
        r, back := MarkAndRefund(t, id, payment, reply);
        EvolvesThrough(old(Now()), failing, Now());
      }
    }

    method MarkAndRefund(t: nat, id: nat, payment: nat, reply: Outcome<()>)
      returns (r: Outcome<()>, ghost steps: seq<Action>)
      requires Valid() && t in tasks && tasks[t] == ToMarkRefunding(id, payment) && id in sends
      modifies this
      ensures Valid() && old(run) <= run && Evolves(old(Now()), Now())
      ensures r.Ok? ==> t in tasks && tasks[t] == ToMark(payment, Failed)
      ensures Mine(t) == old(Mine(t)) + steps && |steps| == 2 && steps[0] == MarkRefunding(t)
      ensures steps[1].CallRefund? && steps[1].t == t && steps[1].ok == r.Ok?
      ensures (r.Ok? <==> reply.Ok?) && (r.Crashed? <==> reply.Crashed?)
    {
      hide After, Legal, Apply, Enabled, Evolves, Own;
      StepOfMarkRefunding(hashOf, Now(), t);
      Act(MarkRefunding(t));
      ghost var marked := Now();
      Others(t);
      EvolvesThrough(old(Now()), marked, Now());
      RowStays(old(Now()), Now(), id);
      ghost var waited := Now();
      r := RefundBolt12Send(t, id, payment, reply);
      EvolvesThrough(old(Now()), waited, Now());
      steps := [MarkRefunding(t), run[|run| - 1]];
    }

    method MarkGivenUp(t: nat, id: nat, payment: nat)
      requires Valid() && t in tasks && tasks[t] == ToMark(payment, Failed)
      requires id in sends && sends[id].payment == Some(payment)
      requires payment in payments && payments[payment].result.Lost?
      modifies this
      ensures Valid() && old(run) <= run && Evolves(old(Now()), Now()) && Mine(t) == old(Mine(t)) + [Mark(t)]
      ensures GivenUp(Now(), id)
    {
      hide After, Legal, Apply, Enabled, Evolves, Own, GivenUp;
      Others(t);
      ghost var waited := Now();
      RowStays(old(Now()), waited, id);
      LostStays(old(Now()), waited, payment);
      NotSucceeded(id, payment);
      SetPaymentStatus(t, payment, Failed);
      EvolvesThrough(old(Now()), waited, Now());
      HoldsGivenUp(id);
    }

    lemma BoundOnce(id: nat, payment: nat)
      requires Valid() && id in sends && sends[id].payment == Some(payment)
      ensures forall o :: o in sends && sends[o].payment == Some(payment) ==> o == id
    {
      hide After, Legal;
      EveryRunKeepsInv(hashOf, run);
      forall o | o in sends && sends[o].payment == Some(payment) ensures o == id {
        assert SendSound(Now(), o) && SendSound(Now(), id);
      }
    }

    lemma NotSucceeded(id: nat, payment: nat)
      requires Valid() && id in sends && sends[id].payment == Some(payment)
      requires payment in payments && payments[payment].result.Lost?
      ensures sends[id].status != Succeeded
    {
      hide After, Legal;
      EveryRunKeepsInv(hashOf, run);
      assert SendSound(Now(), id);
    }

    lemma HoldsGivenUp(id: nat)
      requires Valid() && id in sends && sends[id].status == Failed
      ensures GivenUp(Now(), id)
    {
      hide After, Legal;
      FailedWasGivenBack(hashOf, run, id);
    }

    lemma SettledIsKnown(payment: nat)
      requires Valid() && SettledFor(hashOf, Now(), payment)
      ensures exists id :: id in sends && sends[id].payment == Some(payment)
      ensures forall id :: id in sends && sends[id].payment == Some(payment) ==> sends[id].status == Succeeded
    {
      hide After, Legal;
      var id :| id in sends && sends[id].payment == Some(payment) && Settled(hashOf, Now(), id);
      BoundOnce(id, payment);
    }

    /** Read a payment from LDK and act on what it says, unless its intent is
        SUCCEEDED already. */
    method ObservePayment(t: nat, payment: nat, collected: Outcome<()>, refunded: Outcome<()>)
      returns (r: Outcome<()>, ghost steps: seq<Action>)
      requires Valid() && t !in tasks
      modifies this
      ensures Valid() && old(run) <= run && Evolves(old(Now()), Now())
      ensures Mine(t) == old(Mine(t)) + steps && Observation(steps, t, payment)
      ensures r.Ok? && payment in old(payments) && old(payments[payment]).result.Paid? ==>
        SettledFor(hashOf, Now(), payment)
      ensures r.Ok? && payment in old(payments) && old(payments[payment]).result.Lost? ==>
        forall id :: id in old(sends) && old(sends[id]).payment == Some(payment) ==> GivenUp(Now(), id)
      ensures payment !in old(payments) || old(payments[payment]).result.Open? ==> r == Ok(()) && run == old(run)
      ensures payment in old(payments) && old(payments[payment]).result.Paid? ==>
        SettledFor(hashOf, old(Now()), payment) ==> r == Ok(()) && run == old(run)
      ensures payment in old(payments) && old(payments[payment]).result.Paid? ==>
        && (SettledFor(hashOf, old(Now()), payment) || PaidObserved(steps, t, payment, r))
        && (steps != [] ==> (r.Ok? <==> collected.Ok? && Collectable(hashOf, old(Now()), payment)))
      ensures payment in old(payments) && old(payments[payment]).result.Lost? ==>
        && steps != [] && steps[0] == Start(t, ToFail(payment))
        && (r.Ok? <==> refunded.Ok? || !Refundable(old(Now()), payment))
    {
      hide After, Legal, Apply, Enabled, Evolves, Own, SettledFor, Collectable, Refundable;
      Still(Now());
      steps := [];
      if payment !in payments || payments[payment].result.Open? {
        return Ok(()), [];
      }
      var known := SendForPayment(payment);
      if SettledFor(hashOf, Now(), payment) {
        SettledIsKnown(payment);
      }
      if payments[payment].result.Paid? && known.Some? && sends[known.value].status == Succeeded {
        HoldsSettled(known.value, payment);
        return Ok(()), [];
      }
      if payments[payment].result.Paid? {
        r, steps := ObservePaid(t, payment, collected);
      } else {
        StartOutcome(hashOf, Now(), t, ToFail(payment));
        Act(Start(t, ToFail(payment)));
        ghost var started := Now();
        RefundableStays(old(Now()), started, payment);
        ghost var rest: seq<Action>;
        r, rest := FailManagedPayment(t, payment, refunded);
        EvolvesThrough(old(Now()), started, Now());
        steps := [Start(t, ToFail(payment))] + rest;
      }
    }

    /** Settle a paid payment; note it when that is not possible yet. */
    method ObservePaid(t: nat, payment: nat, reply: Outcome<()>)
      returns (r: Outcome<()>, ghost steps: seq<Action>)
      requires Valid() && t !in tasks && payment in payments && payments[payment].result.Paid?
      modifies this
      ensures Valid() && old(run) <= run && Evolves(old(Now()), Now())
      ensures r.Ok? ==> SettledFor(hashOf, Now(), payment)
      ensures Mine(t) == old(Mine(t)) + steps && PaidObserved(steps, t, payment, r)
      ensures forall k :: 0 <= k < |steps| ==> !steps[k].CallSubmit?
      ensures r.Ok? <==> reply.Ok? && Collectable(hashOf, old(Now()), payment)
    {
      hide After, Legal, Apply, Enabled, Evolves, Own, SettledFor, Collectable, Settlement, Noted, PaidObserved;
      StartOutcome(hashOf, Now(), t, ToCollect(payment));
      Act(Start(t, ToCollect(payment)));
      ghost var started := Now();
      ghost var rest: seq<Action>;
      CollectableStays(hashOf, old(Now()), started, payment);
      r, rest := SettleSucceededPayment(t, payment, reply);
      ghost var settled := Now();
      EvolvesThrough(old(Now()), started, settled);
      ghost var noted: seq<Action> := [];
      if r.Err? {
        noted := NoteSettling(t, payment);
        EvolvesThrough(old(Now()), settled, Now());
      }
      steps := [Start(t, ToCollect(payment))] + rest + noted;
      PaidObservedBy(rest, noted, t, payment, r);
    }

    lemma HoldsSettled(id: nat, payment: nat)
      requires Valid() && id in sends && sends[id].payment == Some(payment) && sends[id].status == Succeeded
      ensures SettledFor(hashOf, Now(), payment)
    {
      hide After, Legal;
      SucceededWasCollected(hashOf, run, id);
      assert Settled(hashOf, Now(), id);
    }

    /** A found payment is observed; that it is not settled yet is no error. */
    method ObserveFound(t: nat, payment: nat, collected: Outcome<()>, refunded: Outcome<()>)
      returns (r: Outcome<()>, ghost steps: seq<Action>)
      requires Valid() && t !in tasks
      modifies this
      ensures Valid() && old(run) <= run && Evolves(old(Now()), Now())
      ensures Mine(t) == old(Mine(t)) + steps && Observation(steps, t, payment)
      ensures r.Ok? || r.Crashed?
    {
      r, steps := ObservePayment(t, payment, collected, refunded);
      r := if r.Crashed? then Crashed else Ok(());
    }

    /** The payment is paid but not settled yet: say so, and leave it to recovery. */
    method NoteSettling(t: nat, payment: nat) returns (ghost steps: seq<Action>)
      requires Valid()
      modifies this
      ensures Valid() && old(run) <= run && Evolves(old(Now()), Now())
      ensures sends == SetPayment(old(sends), payment, Status.Settling)
      ensures Mine(t) == old(Mine(t)) + steps && Noted(steps, t, payment)
    {
      hide After, Legal, Apply, Enabled, Evolves, Own, SetPayment;
      steps := if t in tasks then [Drop(t)] else [];
      Finish(t);
      ghost var idle := Now();
      StartOutcome(hashOf, idle, t, ToMark(payment, Status.Settling));
      Act(Start(t, ToMark(payment, Status.Settling)));
      ghost var ready := Now();
      EvolvesThrough(old(Now()), idle, ready);
      SetPaymentStatus(t, payment, Status.Settling);
      EvolvesThrough(old(Now()), ready, Now());
      steps := steps + [Start(t, ToMark(payment, Status.Settling)), Mark(t)];
    }
  }

  /** The payment carries the proof that the intent's funding may be kept. */
  predicate Proven(hashOf: nat -> nat, kind: Kind, p: Payment)
    requires p.result.Paid?
  {
    hashOf(p.result.preimage) == if kind == Bolt11 then p.ident else p.result.hash
  }

  /** A bound row accepts the payment and its proof. */
  ghost predicate Collectable(hashOf: nat -> nat, s: State, payment: nat)
    requires payment in s.payments && s.payments[payment].result.Paid?
  {
    exists id :: id in s.sends && s.sends[id].payment == Some(payment)
      && ValidateSendPayment(id, s.sends[id], payment, s.payments[payment])
      && Proven(hashOf, s.sends[id].kind, s.payments[payment])
  }

  /** An offer is bound to the payment, and its funding not given back yet. */
  ghost predicate Refundable(s: State, payment: nat) {
    exists id :: id in s.sends && s.sends[id].payment == Some(payment) && s.sends[id].kind == Bolt12
      && !Terminal(s.sends[id].status)
  }

  lemma CollectableStays(hashOf: nat -> nat, s: State, t: State, payment: nat)
    requires payment in s.payments && s.payments[payment].result.Paid?
    requires t.sends == s.sends && t.payments == s.payments
    ensures Collectable(hashOf, t, payment) <==> Collectable(hashOf, s, payment)
  {
  }

  lemma RefundableStays(s: State, t: State, payment: nat)
    requires t.sends == s.sends
    ensures Refundable(t, payment) <==> Refundable(s, payment)
  {
  }

  /** The intent is final, and an offer's funding is back with its owner. */
  ghost predicate GivenUp(s: State, id: nat) {
    id in s.sends && s.sends[id].status == Failed && (s.sends[id].kind == Bolt12 ==> RefundedWhole(s, id))
  }

  lemma LostStays(s: State, t: State, p: nat)
    requires Evolves(s, t) && p in s.payments && s.payments[p].result.Lost?
    ensures p in t.payments && t.payments[p].result.Lost?
  {
  }

  lemma StepOfFail(hashOf: nat -> nat, s: State, t: nat, id: nat)
    requires t in s.tasks && s.tasks[t].ToFail? && id in s.sends
    requires s.sends[id].payment == Some(s.tasks[t].payment) && !Terminal(s.sends[id].status)
    ensures Enabled(hashOf, s, Fail(t, id)) && Apply(hashOf, s, Fail(t, id)).sends == s.sends
    ensures Apply(hashOf, s, Fail(t, id)).payments == s.payments && t in Apply(hashOf, s, Fail(t, id)).tasks
    ensures Apply(hashOf, s, Fail(t, id)).tasks[t] ==
      if s.sends[id].kind == Bolt12 then ToMarkRefunding(id, s.tasks[t].payment) else ToMark(s.tasks[t].payment, Failed)
  {
  }

  lemma StepOfMarkRefunding(hashOf: nat -> nat, s: State, t: nat)
    requires t in s.tasks && s.tasks[t].ToMarkRefunding?
    ensures Enabled(hashOf, s, MarkRefunding(t)) && t in Apply(hashOf, s, MarkRefunding(t)).tasks
    ensures Apply(hashOf, s, MarkRefunding(t)).tasks[t] == ToRefund(s.tasks[t].id, s.tasks[t].payment)
  {
  }

  lemma StartOutcome(hashOf: nat -> nat, s: State, t: nat, task: Task)
    requires t !in s.tasks && Startable(s, task)
    ensures Enabled(hashOf, s, Start(t, task))
    ensures Apply(hashOf, s, Start(t, task)).payments == s.payments && Apply(hashOf, s, Start(t, task)).sends == s.sends
    ensures Apply(hashOf, s, Start(t, task)).tasks == s.tasks[t := task]
  {
  }

  /** The intent is final, and an invoice's funding was collected for it. */
  ghost predicate Settled(hashOf: nat -> nat, s: State, id: nat)
    requires id in s.sends
  {
    s.sends[id].status == Succeeded && (s.sends[id].kind == Bolt11 ==> Collected(hashOf, s, id))
  }

  ghost predicate SettledFor(hashOf: nat -> nat, s: State, payment: nat) {
    exists id :: id in s.sends && s.sends[id].payment == Some(payment) && Settled(hashOf, s, id)
  }

  lemma CollectedStays(hashOf: nat -> nat, s: State, t: State, id: nat)
    requires Evolves(s, t) && id in s.sends
    ensures id in t.sends && (Collected(hashOf, s, id) ==> Collected(hashOf, t, id))
    ensures t.sends[id].kind == s.sends[id].kind
  {
  }

  lemma StartLookup(hashOf: nat -> nat, s: State, t: nat, id: nat)
    requires t !in s.tasks && id in s.sends && s.sends[id].status != Prepared && !Terminal(s.sends[id].status)
    ensures Enabled(hashOf, s, Start(t, ToLookup(id, s.sends[id], false)))
    ensures Apply(hashOf, s, Start(t, ToLookup(id, s.sends[id], false))).tasks ==
      s.tasks[t := ToLookup(id, s.sends[id], false)]
    ensures Apply(hashOf, s, Start(t, ToLookup(id, s.sends[id], false))).sends == s.sends
  {
  }

  lemma StartedAs(hashOf: nat -> nat, s: State, t: nat, task: Task)
    requires Enabled(hashOf, s, Start(t, task))
    ensures Apply(hashOf, s, Start(t, task)).tasks == s.tasks[t := task]
    ensures Apply(hashOf, s, Start(t, task)).sends == s.sends
  {
  }

  lemma RowStays(s: State, t: State, id: nat)
    requires Evolves(s, t) && id in s.sends
    ensures id in t.sends && SendEvolves(s.sends[id], t.sends[id])
  {
  }

  /** Only an unbound invoice whose submission is uncertain is tried again. */
  predicate Resubmittable(snap: Send) {
    snap.kind == Bolt11 && snap.status == Submitting && snap.payment.None?
  }

  lemma RefusedStays(s: State, t: State, id: nat, reply: Outcome<nat>)
    requires Evolves(s, t) && id in s.sends
    ensures Refused(s, id, reply) ==> Refused(t, id, reply)
  {
  }

  lemma Still(s: State)
    ensures Evolves(s, s)
  {
  }

  lemma TasksStay(hashOf: nat -> nat, s: State, a: Action, t: nat)
    requires Enabled(hashOf, s, a) && !ActsAs(a, t) && !a.Crash?
    ensures t in Apply(hashOf, s, a).tasks <==> t in s.tasks
    ensures t in s.tasks ==> Apply(hashOf, s, a).tasks[t] == s.tasks[t]
  {
    hide Enabled, NextTask, NextSends, NextWorld;
  }
}
