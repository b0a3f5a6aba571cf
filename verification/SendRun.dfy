/** Outbound Lightning payments as one run of interleaved tasks (src/ldk.rs,
    src/lightning_store.rs, src/db.rs). No lock orders them: callers, event
    handlers and the reconciler act on one intent at once, each holding the row
    or the payment it once read, and a restart drops them all. */
module SendRun {
  import opened Basics

  datatype Kind = Bolt11 | Bolt12

  datatype Status = Prepared | Submitting | Pending | Settling | Refunding | Succeeded | Failed

  predicate Terminal(status: Status) {
    status == Succeeded || status == Failed
  }

  /** One intent. `ident` is the invoice's hash or the offer's id. */
  datatype Send = Send(owner: nat, funding: nat, kind: Kind, ident: nat, sats: u64, msat: nat,
                       payment: Option<nat>, status: Status)

  /** LDK reports one terminal outcome for a payment. */
  datatype Result = Open | Paid(hash: nat, preimage: nat) | Lost

  /** A payment as LDK stores it; an offer's carries the intent's id as its note. */
  datatype Payment = Payment(outbound: bool, kind: Kind, ident: nat, note: nat, msat: nat, result: Result)

  /** The sender's conditional funding, collected for one payment. */
  datatype Collection = Collection(payment: nat, preimage: nat)

  /** Prepaid funding returned after one payment failed. */
  datatype Refund = Refund(payment: nat, owner: nat, sats: u64)

  /** Where a task stands, with what it has read so far. */
  datatype Task =
    | ToBegin(id: nat)
    | ToSubmit(id: nat)
    | ToResubmit(id: nat, snap: Send)
    | ToBind(id: nat, payment: nat)
    | ToLookup(id: nat, snap: Send, again: bool)
    | ToCollect(payment: nat)
    | ToFail(payment: nat)
    | ToMarkRefunding(id: nat, payment: nat)
    | ToRefund(id: nat, payment: nat)
    | ToMark(payment: nat, status: Status)

  datatype State = State(
    sends: map<nat, Send>,
    tasks: map<nat, Task>,
    payments: map<nat, Payment>,
    submits: multiset<nat>,
    collections: map<nat, Collection>,
    refunds: map<nat, Refund>)

  datatype Action =
    | Prepare(id: nat, send: Send)
    | Start(t: nat, task: Task)
    | Begin(t: nat)
    | CallSubmit(t: nat, created: bool, payment: nat, ok: bool)
    | Lookup(t: nat, found: Option<nat>)
    | Bind(t: nat)
    | Collect(t: nat, id: nat, collects: bool, ok: bool)
    | Fail(t: nat, id: nat)
    | MarkRefunding(t: nat)
    | CallRefund(t: nat, commits: bool, ok: bool)
    | Mark(t: nat)
    | Resolve(payment: nat, result: Result)
    | Drop(t: nat)
    | Crash

  const EMPTY := State(map[], map[], map[], multiset{}, map[], map[])

  /** Does this LDK payment belong to the intent, as the given row describes it? */
  predicate ValidateSendPayment(id: nat, send: Send, payment: nat, p: Payment) {
    && p.outbound && p.msat == send.msat
    && p.kind == send.kind && p.ident == send.ident
    && (send.kind == Bolt11 || send.payment == Some(payment) || p.note == id)
  }

  // ---- Table updates ----

  /** Unique request and funding; one intent per invoice hash. */
  predicate Fits(sends: map<nat, Send>, id: nat, send: Send) {
    && id !in sends
    && forall o :: o in sends ==>
         && sends[o].funding != send.funding
         && !(sends[o].kind == Bolt11 && send.kind == Bolt11 && sends[o].ident == send.ident)
  }

  /** The one-way checkpoint: only PREPARED becomes SUBMITTING. */
  function BeginSubmission(sends: map<nat, Send>, id: nat): map<nat, Send> {
    if id in sends && sends[id].status == Prepared then sends[id := sends[id].(status := Submitting)] else sends
  }

  predicate Bindable(sends: map<nat, Send>, id: nat, payment: nat) {
    && id in sends && (sends[id].payment == None || sends[id].payment == Some(payment))
    && forall o :: o in sends && o != id ==> sends[o].payment != Some(payment)
  }

  function BindPayment(sends: map<nat, Send>, id: nat, payment: nat): map<nat, Send> {
    if Bindable(sends, id, payment) then
      var s := sends[id];
      sends[id := s.(payment := Some(payment),
                     status := if s.status == Submitting || s.status == Prepared then Status.Pending else s.status)]
    else sends
  }

  /** Every row bound to the payment, unless it is finished. */
  function SetPayment(sends: map<nat, Send>, payment: nat, status: Status): map<nat, Send> {
    map id | id in sends ::
      if sends[id].payment == Some(payment) && !Terminal(sends[id].status) then sends[id].(status := status)
      else sends[id]
  }

  // ---- Steps ----

  /** What a new task may hold: a row as it is now, or what LDK says now. */
  predicate Startable(s: State, task: Task) {
    match task {
      case ToBegin(id) => id in s.sends && s.sends[id].status == Prepared
      case ToLookup(id, snap, again) =>
        id in s.sends && snap == s.sends[id] && snap.status != Prepared && !Terminal(snap.status) && !again
      case ToCollect(p) => p in s.payments && s.payments[p].result.Paid?
      case ToFail(p) => p in s.payments && s.payments[p].result.Lost?
      case ToMark(p, status) => status == Status.Pending || status == Settling
      case _ => false
    }
  }

  /** Worker `t` is at a submission, of intent `id`. */
  predicate Submits(s: State, t: nat, id: nat) {
    t in s.tasks && id in s.sends && match s.tasks[t] {
      case ToSubmit(i) => i == id
      case ToResubmit(i, snap) => i == id
      case _ => false
    }
  }

  predicate EnabledSubmit(s: State, t: nat, created: bool, payment: nat, ok: bool) {
    && t in s.tasks && (s.tasks[t].ToSubmit? || s.tasks[t].ToResubmit?) && s.tasks[t].id in s.sends
    && (ok ==> created)
    && (created ==> payment !in s.payments)
    && (created && s.sends[s.tasks[t].id].kind == Bolt11 ==> payment == s.sends[s.tasks[t].id].ident)
  }

  predicate EnabledLookup(s: State, t: nat, found: Option<nat>) {
    && t in s.tasks && s.tasks[t].ToLookup?
    && match found {
         case Some(p) => p in s.payments && ValidateSendPayment(s.tasks[t].id, s.tasks[t].snap, p, s.payments[p])
         case None =>
           forall p :: p in s.payments ==> !ValidateSendPayment(s.tasks[t].id, s.tasks[t].snap, p, s.payments[p])
       }
  }

  predicate EnabledCollect(hashOf: nat -> nat, s: State, t: nat, id: nat, collects: bool, ok: bool) {
    && t in s.tasks && s.tasks[t].ToCollect? && s.tasks[t].payment in s.payments
    && var p := s.payments[s.tasks[t].payment];
    && p.result.Paid? && id in s.sends && s.sends[id].payment == Some(s.tasks[t].payment)
    && ValidateSendPayment(id, s.sends[id], s.tasks[t].payment, p)
    && (s.sends[id].kind == Bolt11 ==>
          && (collects ==> hashOf(p.result.preimage) == p.ident)
          && (ok ==> hashOf(p.result.preimage) == p.ident && (collects || s.sends[id].funding in s.collections)))
    && (s.sends[id].kind == Bolt12 ==> !collects && (ok ==> hashOf(p.result.preimage) == p.result.hash))
  }

  predicate EnabledRefund(s: State, t: nat, commits: bool, ok: bool) {
    && t in s.tasks && s.tasks[t].ToRefund? && s.tasks[t].id in s.sends
    && (ok ==> commits || s.sends[s.tasks[t].id].funding in s.refunds)
  }

  predicate Enabled(hashOf: nat -> nat, s: State, a: Action) {
    match a {
      case Prepare(id, send) => Fits(s.sends, id, send) && send.status == Prepared && send.payment == None
      case Start(t, task) => t !in s.tasks && Startable(s, task)
      case Begin(t) => t in s.tasks && s.tasks[t].ToBegin?
      case CallSubmit(t, created, payment, ok) => EnabledSubmit(s, t, created, payment, ok)
      case Lookup(t, found) => EnabledLookup(s, t, found)
      case Bind(t) => t in s.tasks && s.tasks[t].ToBind?
      case Collect(t, id, collects, ok) => EnabledCollect(hashOf, s, t, id, collects, ok)
      case Fail(t, id) =>
        && t in s.tasks && s.tasks[t].ToFail? && id in s.sends
        && s.sends[id].payment == Some(s.tasks[t].payment) && !Terminal(s.sends[id].status)
      case MarkRefunding(t) => t in s.tasks && s.tasks[t].ToMarkRefunding?
      case CallRefund(t, commits, ok) => EnabledRefund(s, t, commits, ok)
      case Mark(t) => t in s.tasks && s.tasks[t].ToMark?
      case Resolve(p, result) => p in s.payments && s.payments[p].result == Open && result != Open
      case Drop(t) => t in s.tasks
      case Crash => true
    }
  }

  function NextSends(hashOf: nat -> nat, s: State, a: Action): map<nat, Send>
    requires Enabled(hashOf, s, a)
  {
    match a {
      case Prepare(id, send) => s.sends[id := send]
      case Begin(t) => BeginSubmission(s.sends, s.tasks[t].id)
      case Bind(t) => BindPayment(s.sends, s.tasks[t].id, s.tasks[t].payment)
      case MarkRefunding(t) => SetPayment(s.sends, s.tasks[t].payment, Refunding)
      case Mark(t) => SetPayment(s.sends, s.tasks[t].payment, s.tasks[t].status)
      case _ => s.sends
    }
  }

  /** What the acting task does next; None when it is done. */
  function NextTask(hashOf: nat -> nat, s: State, a: Action): Option<Task>
    requires Enabled(hashOf, s, a)
  {
    match a {
      case Start(t, task) => Some(task)
      case Begin(t) =>
        var id := s.tasks[t].id;
        if id in s.sends && s.sends[id].status == Prepared then Some(ToSubmit(id)) else None
      case CallSubmit(t, created, payment, ok) =>
        if ok then Some(ToBind(s.tasks[t].id, payment))
        else if s.tasks[t].ToResubmit? then Some(ToLookup(s.tasks[t].id, s.tasks[t].snap, true))
        else None
      case Lookup(t, found) =>
        var id, snap := s.tasks[t].id, s.tasks[t].snap;
        if found.Some? then Some(ToBind(id, found.value))
        else if snap.kind == Bolt11 && snap.status == Submitting && snap.payment.None? && !s.tasks[t].again
        then Some(ToResubmit(id, snap))
        else None
      case Collect(t, id, collects, ok) => Some(ToMark(s.tasks[t].payment, if ok then Succeeded else Settling))
      case Fail(t, id) =>
        if s.sends[id].kind == Bolt12 then Some(ToMarkRefunding(id, s.tasks[t].payment))
        else Some(ToMark(s.tasks[t].payment, Failed))
      case MarkRefunding(t) => Some(ToRefund(s.tasks[t].id, s.tasks[t].payment))
      case CallRefund(t, commits, ok) => if ok then Some(ToMark(s.tasks[t].payment, Failed)) else None
      case _ => None
    }
  }

  function NextTasks(hashOf: nat -> nat, s: State, a: Action): map<nat, Task>
    requires Enabled(hashOf, s, a)
  {
    if a.Crash? then map[]
    else if a.Prepare? || a.Resolve? then s.tasks
    else match NextTask(hashOf, s, a)
      case Some(task) => s.tasks[a.t := task]
      case None => s.tasks - {a.t}
  }

  function NewPayment(send: Send, id: nat): Payment {
    Payment(true, send.kind, send.ident, id, send.msat, Open)
  }

  /** The world outside: LDK's payments and the operators' transfers. */
  function NextWorld(hashOf: nat -> nat, s: State, a: Action): State
    requires Enabled(hashOf, s, a)
  {
    match a {
      case CallSubmit(t, created, payment, ok) =>
        var id := s.tasks[t].id;
        s.(submits := s.submits[id := s.submits[id] + 1],
           payments := if created then s.payments[payment := NewPayment(s.sends[id], id)] else s.payments)
      case Collect(t, id, collects, ok) =>
        var p := s.tasks[t].payment;
        if collects && s.sends[id].funding !in s.collections
        then s.(collections := s.collections[s.sends[id].funding := Collection(p, s.payments[p].result.preimage)])
        else s
      case CallRefund(t, commits, ok) =>
        var send := s.sends[s.tasks[t].id];
        if commits && send.funding !in s.refunds
        then s.(refunds := s.refunds[send.funding := Refund(s.tasks[t].payment, send.owner, send.sats)])
        else s
      case Resolve(p, result) => s.(payments := s.payments[p := s.payments[p].(result := result)])
      case _ => s
    }
  }

  function Apply(hashOf: nat -> nat, s: State, a: Action): State
    requires Enabled(hashOf, s, a)
  {
    NextWorld(hashOf, s, a).(sends := NextSends(hashOf, s, a), tasks := NextTasks(hashOf, s, a))
  }

  // ---- How states follow each other ----

  /** How one intent changes: a payment is bound once and a finished intent stays
      exactly as it is. */
  predicate SendEvolves(a: Send, b: Send) {
    && b == a.(payment := b.payment, status := b.status)
    && (a.payment.Some? ==> b.payment == a.payment)
    && (Terminal(a.status) ==> b.status == a.status)
    && (a.status != Prepared ==> b.status != Prepared)
  }

  predicate PaymentEvolves(p: Payment, q: Payment) {
    q == p.(result := q.result) && (p.result != Open ==> q == p)
  }

  ghost predicate SendsEvolve(s: State, t: State) {
    forall id :: id in s.sends ==> id in t.sends && SendEvolves(s.sends[id], t.sends[id])
  }

  ghost predicate WorldEvolves(s: State, t: State) {
    && (forall p :: p in s.payments ==> p in t.payments && PaymentEvolves(s.payments[p], t.payments[p]))
    && (forall f :: f in s.collections ==> f in t.collections && t.collections[f] == s.collections[f])
    && (forall f :: f in s.refunds ==> f in t.refunds && t.refunds[f] == s.refunds[f])
    && s.submits <= t.submits
  }

  ghost predicate Evolves(s: State, t: State) {
    SendsEvolve(s, t) && WorldEvolves(s, t)
  }

  // ---- What holds in every state ----

  ghost predicate Distinct(s: State) {
    forall a, b :: a in s.sends && b in s.sends && a != b ==>
      && s.sends[a].funding != s.sends[b].funding
      && !(s.sends[a].kind == Bolt11 && s.sends[b].kind == Bolt11 && s.sends[a].ident == s.sends[b].ident)
  }

  /** A payment is the one payment of the intent that submitted it. */
  ghost predicate PaymentSound(s: State, p: nat)
    requires p in s.payments
  {
    var pay := s.payments[p];
    && pay.note in s.sends && s.sends[pay.note].status != Prepared && s.submits[pay.note] >= 1
    && pay == NewPayment(s.sends[pay.note], pay.note).(result := pay.result)
    && (pay.kind == Bolt11 ==> p == pay.ident)
  }

  ghost predicate OnePerIntent(s: State) {
    forall p, q :: p in s.payments && q in s.payments && s.payments[p].note == s.payments[q].note ==> p == q
  }

  /** Collected funding belongs to a paid invoice, by a preimage of its hash. */
  ghost predicate CollectionSound(hashOf: nat -> nat, s: State, f: nat)
    requires f in s.collections
  {
    var p := s.collections[f].payment;
    && p in s.payments && s.payments[p].result.Paid? && s.payments[p].note in s.sends
    && s.sends[s.payments[p].note].funding == f && s.payments[p].kind == Bolt11
    && hashOf(s.collections[f].preimage) == s.payments[p].ident
  }

  /** Refunded funding belongs to a failed offer payment, whole, to its owner. */
  ghost predicate RefundSound(s: State, f: nat)
    requires f in s.refunds
  {
    var p := s.refunds[f].payment;
    && p in s.payments && s.payments[p].result.Lost? && s.payments[p].note in s.sends
    && var send := s.sends[s.payments[p].note];
    && send.funding == f && send.kind == Bolt12 && s.refunds[f] == Refund(p, send.owner, send.sats)
  }

  /** What allows marking a payment's intent as SUCCEEDED. */
  ghost predicate PaidFor(s: State, p: nat) {
    && p in s.payments && s.payments[p].result.Paid? && s.payments[p].note in s.sends
    && (s.payments[p].kind == Bolt11 ==> s.sends[s.payments[p].note].funding in s.collections)
  }

  /** What allows marking a payment's intent as FAILED. */
  ghost predicate GivenBack(s: State, p: nat) {
    && p in s.payments && s.payments[p].result.Lost? && s.payments[p].note in s.sends
    && (s.payments[p].kind == Bolt12 ==> s.sends[s.payments[p].note].funding in s.refunds)
  }

  ghost predicate SendSound(s: State, id: nat)
    requires id in s.sends
  {
    BindingSound(s, id) && OutcomeSound(s, id)
  }

  /** A bound payment is the intent's own; an offer is submitted at most once. */
  ghost predicate BindingSound(s: State, id: nat)
    requires id in s.sends
  {
    var send := s.sends[id];
    && (send.payment.Some? ==> send.payment.value in s.payments && s.payments[send.payment.value].note == id)
    && (send.status == Prepared ==> send.payment.None? && s.submits[id] == 0)
    && (send.kind == Bolt12 ==> s.submits[id] <= 1)
  }

  ghost predicate OutcomeSound(s: State, id: nat)
    requires id in s.sends
  {
    var send := s.sends[id];
    && (send.status == Succeeded ==> send.payment.Some? && PaidFor(s, send.payment.value))
    && (send.status == Failed ==> send.payment.Some? && GivenBack(s, send.payment.value))
  }

  ghost predicate TaskSound(s: State, t: nat)
    requires t in s.tasks
  {
    MayHold(s, s.tasks[t])
  }

  /** What a task at this point knows, whatever happened since it got there. */
  ghost predicate MayHold(s: State, task: Task) {
    match task {
      case ToBegin(id) => id in s.sends
      case ToSubmit(id) =>
        id in s.sends && s.sends[id].status != Prepared && (s.sends[id].kind == Bolt12 ==> s.submits[id] == 0)
      case ToResubmit(id, snap) => HoldsRow(s, id, snap) && snap.kind == Bolt11
      case ToBind(id, p) =>
        id in s.sends && s.sends[id].status != Prepared && p in s.payments && s.payments[p].note == id
      case ToLookup(id, snap, again) => HoldsRow(s, id, snap)
      case ToCollect(p) => p in s.payments && s.payments[p].result.Paid?
      case ToFail(p) => p in s.payments && s.payments[p].result.Lost?
      case ToMarkRefunding(id, p) => FailedOffer(s, id, p)
      case ToRefund(id, p) => FailedOffer(s, id, p)
      case ToMark(p, status) =>
        && status != Prepared
        && (status == Succeeded ==> PaidFor(s, p))
        && (status == Failed ==> GivenBack(s, p))
    }
  }

  /** The row was read after its submission, maybe long ago. */
  ghost predicate HoldsRow(s: State, id: nat, snap: Send) {
    id in s.sends && SendEvolves(snap, s.sends[id]) && snap.status != Prepared
  }

  ghost predicate FailedOffer(s: State, id: nat, p: nat) {
    && id in s.sends && s.sends[id].kind == Bolt12
    && p in s.payments && s.payments[p].result.Lost? && s.payments[p].note == id
  }

  /** The checkpoint lets one task through, and only its winner submits first. */
  ghost predicate OneSubmitter(s: State) {
    forall a, b :: a in s.tasks && b in s.tasks && s.tasks[a].ToSubmit? && s.tasks[b] == s.tasks[a] ==> a == b
  }

  ghost predicate Inv(hashOf: nat -> nat, s: State) {
    && Distinct(s) && OnePerIntent(s) && OneSubmitter(s)
    && (forall id :: id in s.submits ==> id in s.sends)
    && (forall p :: p in s.payments ==> PaymentSound(s, p))
    && (forall f :: f in s.collections ==> CollectionSound(hashOf, s, f))
    && (forall f :: f in s.refunds ==> RefundSound(s, f))
    && (forall id :: id in s.sends ==> SendSound(s, id))
    && (forall t :: t in s.tasks ==> TaskSound(s, t))
  }

  // ---- Evidence is never taken back ----

  lemma EvidenceStays(s: State, t: State, p: nat)
    requires Evolves(s, t)
    ensures PaidFor(s, p) ==> PaidFor(t, p)
    ensures GivenBack(s, p) ==> GivenBack(t, p)
  {
  }

  lemma CollectionStays(hashOf: nat -> nat, s: State, t: State, f: nat)
    requires f in s.collections && CollectionSound(hashOf, s, f) && Evolves(s, t)
    ensures CollectionSound(hashOf, t, f)
  {
  }

  lemma RefundStays(s: State, t: State, f: nat)
    requires f in s.refunds && RefundSound(s, f) && Evolves(s, t)
    ensures RefundSound(t, f)
  {
  }

  lemma KnowledgeStays(s: State, t: State, task: Task)
    requires MayHold(s, task) && Evolves(s, t)
    requires task.ToSubmit? && s.sends[task.id].kind == Bolt12 ==> t.submits[task.id] == 0
    ensures MayHold(t, task)
  {
    if task.ToMark? {
      EvidenceStays(s, t, task.payment);
    }
  }

  // ---- Steps keep it ----

  lemma StepEvolves(hashOf: nat -> nat, s: State, a: Action)
    requires Inv(hashOf, s) && Enabled(hashOf, s, a)
    ensures Evolves(s, Apply(hashOf, s, a))
  {
    hide PaymentSound, CollectionSound, RefundSound, SendSound, Enabled, Apply;
    assert a.Mark? ==> a.t in s.tasks && TaskSound(s, a.t) by {
      if a.Mark? { MarkHasTask(hashOf, s, a.t); }
    }
    StepSendsEvolve(hashOf, s, a);
    StepWorldEvolves(hashOf, s, a);
  }

  lemma MarkHasTask(hashOf: nat -> nat, s: State, t: nat)
    requires Enabled(hashOf, s, Mark(t))
    ensures t in s.tasks && s.tasks[t].ToMark?
  {
  }

  lemma StepSendsEvolve(hashOf: nat -> nat, s: State, a: Action)
    requires Enabled(hashOf, s, a) && (a.Mark? ==> a.t in s.tasks && TaskSound(s, a.t))
    ensures SendsEvolve(s, Apply(hashOf, s, a))
  {
    hide NextWorld, NextTasks, EnabledSubmit, EnabledLookup, EnabledCollect;
    hide EnabledRefund, Startable, PaidFor, GivenBack;
  }

  lemma StepWorldEvolves(hashOf: nat -> nat, s: State, a: Action)
    requires Enabled(hashOf, s, a)
    ensures WorldEvolves(s, Apply(hashOf, s, a))
  {
    hide NextSends, NextTasks, EnabledLookup, Startable, Fits;
  }

  lemma StepKeepsDistinct(hashOf: nat -> nat, s: State, a: Action)
    requires Distinct(s) && Enabled(hashOf, s, a) && Evolves(s, Apply(hashOf, s, a))
    ensures Distinct(Apply(hashOf, s, a))
  {
    hide NextWorld, NextTasks, EnabledSubmit, EnabledLookup, EnabledCollect, EnabledRefund, Startable, WorldEvolves;
  }

  lemma NewPaymentSound(hashOf: nat -> nat, s: State, a: Action)
    requires Inv(hashOf, s) && Enabled(hashOf, s, a) && a.CallSubmit? && a.created
    ensures PaymentSound(Apply(hashOf, s, a), a.payment)
    ensures forall p :: p in s.payments ==> s.payments[p].note != s.tasks[a.t].id
  {
    hide SendSound, CollectionSound, RefundSound, NextTasks;
    assert TaskSound(s, a.t);
    forall p | p in s.payments ensures s.payments[p].note != s.tasks[a.t].id {
      assert PaymentSound(s, p);
    }
  }

  lemma PaymentStays(s: State, t: State, p: nat)
    requires p in s.payments && PaymentSound(s, p) && Evolves(s, t)
    ensures PaymentSound(t, p)
  {
    var note := s.payments[p].note;
    assert t.submits[note] >= s.submits[note];
  }

  /** Payments appear only through a submission. */
  lemma PaymentsAppear(hashOf: nat -> nat, s: State, a: Action, p: nat)
    requires Enabled(hashOf, s, a) && p in Apply(hashOf, s, a).payments && p !in s.payments
    ensures a.CallSubmit? && a.created && a.payment == p && Apply(hashOf, s, a).payments[p].note == s.tasks[a.t].id
  {
    hide NextSends, NextTasks, EnabledLookup, EnabledCollect, EnabledRefund, Startable, Fits;
  }

  lemma StepKeepsPayments(hashOf: nat -> nat, s: State, a: Action)
    requires Inv(hashOf, s) && Enabled(hashOf, s, a)
    ensures OnePerIntent(Apply(hashOf, s, a))
    ensures forall p :: p in Apply(hashOf, s, a).payments ==> PaymentSound(Apply(hashOf, s, a), p)
  {
    hide Apply, Enabled, PaymentSound, SendSound, TaskSound, CollectionSound, RefundSound;
    StepEvolves(hashOf, s, a);
    var t := Apply(hashOf, s, a);
    forall p | p in t.payments ensures PaymentSound(t, p) {
      if p in s.payments {
        PaymentStays(s, t, p);
      } else {
        PaymentsAppear(hashOf, s, a, p);
        NewPaymentSound(hashOf, s, a);
      }
    }
    forall p, q | p in t.payments && q in t.payments && t.payments[p].note == t.payments[q].note ensures p == q {
      if p !in s.payments {
        PaymentsAppear(hashOf, s, a, p);
        NewPaymentSound(hashOf, s, a);
      }
      if q !in s.payments {
        PaymentsAppear(hashOf, s, a, q);
        NewPaymentSound(hashOf, s, a);
      }
    }
  }

  lemma NewCollectionSound(hashOf: nat -> nat, s: State, a: Action, f: nat)
    requires Inv(hashOf, s) && Enabled(hashOf, s, a) && Evolves(s, Apply(hashOf, s, a))
    requires f in Apply(hashOf, s, a).collections && f !in s.collections
    ensures CollectionSound(hashOf, Apply(hashOf, s, a), f)
  {
    hide PaymentSound, RefundSound, TaskSound, NextTasks, NextSends;
    hide EnabledSubmit, EnabledLookup, EnabledRefund, Startable, Fits;
    assert a.Collect? && SendSound(s, a.id);
  }

  lemma NewRefundSound(hashOf: nat -> nat, s: State, a: Action, f: nat)
    requires Inv(hashOf, s) && Enabled(hashOf, s, a) && Evolves(s, Apply(hashOf, s, a))
    requires f in Apply(hashOf, s, a).refunds && f !in s.refunds
    ensures RefundSound(Apply(hashOf, s, a), f)
  {
    hide PaymentSound, CollectionSound, SendSound, NextTasks, NextSends;
    hide EnabledSubmit, EnabledLookup, EnabledCollect, Startable, Fits;
    assert a.CallRefund? && TaskSound(s, a.t);
  }

  lemma StepKeepsTransfers(hashOf: nat -> nat, s: State, a: Action)
    requires Inv(hashOf, s) && Enabled(hashOf, s, a)
    ensures forall f :: f in Apply(hashOf, s, a).collections ==> CollectionSound(hashOf, Apply(hashOf, s, a), f)
    ensures forall f :: f in Apply(hashOf, s, a).refunds ==> RefundSound(Apply(hashOf, s, a), f)
  {
    hide Apply, Enabled, PaymentSound, SendSound, TaskSound, CollectionSound, RefundSound;
    StepEvolves(hashOf, s, a);
    var t := Apply(hashOf, s, a);
    forall f | f in t.collections ensures CollectionSound(hashOf, t, f) {
      if f in s.collections {
        CollectionStays(hashOf, s, t, f);
      } else {
        NewCollectionSound(hashOf, s, a, f);
      }
    }
    forall f | f in t.refunds ensures RefundSound(t, f) {
      if f in s.refunds {
        RefundStays(s, t, f);
      } else {
        NewRefundSound(hashOf, s, a, f);
      }
    }
  }

  // A row changes only as one of these.
  predicate RowStep(s: State, a: Action, v: Send, w: Send, id: nat) {
    || w == v
    || (a.Begin? && v.status == Prepared && w == v.(status := Submitting))
    || (a.Bind? && a.t in s.tasks && s.tasks[a.t].ToBind? && s.tasks[a.t].id == id
        && w == v.(payment := Some(s.tasks[a.t].payment), status := w.status)
        && (w.status == v.status || w.status == Status.Pending))
    || (a.MarkRefunding? && w == v.(status := Refunding) && v.payment.Some?)
    || (a.Mark? && a.t in s.tasks && s.tasks[a.t].ToMark? && v.payment == Some(s.tasks[a.t].payment)
        && w == v.(status := s.tasks[a.t].status))
  }

  lemma RowsStep(hashOf: nat -> nat, s: State, a: Action, id: nat)
    requires Enabled(hashOf, s, a) && id in s.sends
    ensures id in Apply(hashOf, s, a).sends && RowStep(s, a, s.sends[id], Apply(hashOf, s, a).sends[id], id)
  {
    hide NextWorld, NextTasks, EnabledSubmit, EnabledLookup, EnabledCollect, EnabledRefund, Startable;
  }

  /** Submissions of an intent, and their count. */
  lemma SubmitsStep(hashOf: nat -> nat, s: State, a: Action, id: nat)
    requires Inv(hashOf, s) && Enabled(hashOf, s, a) && id in s.sends
    ensures s.sends[id].status == Prepared ==> Apply(hashOf, s, a).submits[id] == s.submits[id]
    ensures s.sends[id].kind == Bolt12 && s.submits[id] <= 1 ==> Apply(hashOf, s, a).submits[id] <= 1
  {
    hide PaymentSound, CollectionSound, RefundSound, SendSound, NextTasks, NextSends;
    hide Startable, Fits, EnabledLookup, EnabledCollect, EnabledRefund;
    if a.CallSubmit? {
      assert TaskSound(s, a.t);
    }
  }

  lemma OldBindingSound(hashOf: nat -> nat, s: State, a: Action, id: nat)
    requires Inv(hashOf, s) && Enabled(hashOf, s, a) && id in s.sends && Evolves(s, Apply(hashOf, s, a))
    ensures id in Apply(hashOf, s, a).sends && BindingSound(Apply(hashOf, s, a), id)
  {
    hide Apply, Enabled, PaymentSound, CollectionSound, RefundSound, PaidFor, GivenBack, OutcomeSound;
    assert SendSound(s, id);
    RowsStep(hashOf, s, a, id);
    SubmitsStep(hashOf, s, a, id);
    if (a.Bind? || a.Mark?) && a.t in s.tasks {
      assert TaskSound(s, a.t);
    }
  }

  lemma OldOutcomeSound(hashOf: nat -> nat, s: State, a: Action, id: nat)
    requires Inv(hashOf, s) && Enabled(hashOf, s, a) && id in s.sends && Evolves(s, Apply(hashOf, s, a))
    ensures id in Apply(hashOf, s, a).sends && OutcomeSound(Apply(hashOf, s, a), id)
  {
    hide Apply, Enabled, PaymentSound, CollectionSound, RefundSound, PaidFor, GivenBack, BindingSound, WorldEvolves;
    assert SendSound(s, id);
    RowsStep(hashOf, s, a, id);
    if s.sends[id].payment.Some? {
      EvidenceStays(s, Apply(hashOf, s, a), s.sends[id].payment.value);
    }
    if a.Mark? && a.t in s.tasks && s.tasks[a.t].ToMark? {
      assert TaskSound(s, a.t);
      EvidenceStays(s, Apply(hashOf, s, a), s.tasks[a.t].payment);
    }
  }

  lemma NewSendSound(hashOf: nat -> nat, s: State, a: Action, id: nat)
    requires Inv(hashOf, s) && Enabled(hashOf, s, a) && id !in s.sends && id in Apply(hashOf, s, a).sends
    ensures SendSound(Apply(hashOf, s, a), id)
  {
    hide PaymentSound, CollectionSound, RefundSound, NextTasks, Startable;
    hide EnabledLookup, EnabledCollect, EnabledRefund, TaskSound;
  }

  lemma StepKeepsSends(hashOf: nat -> nat, s: State, a: Action)
    requires Inv(hashOf, s) && Enabled(hashOf, s, a)
    ensures forall id :: id in Apply(hashOf, s, a).sends ==> SendSound(Apply(hashOf, s, a), id)
  {
    hide Apply, Enabled, Inv, BindingSound, OutcomeSound;
    StepEvolves(hashOf, s, a);
    var t := Apply(hashOf, s, a);
    forall id | id in t.sends ensures SendSound(t, id) {
      if id in s.sends {
        OldBindingSound(hashOf, s, a, id);
        OldOutcomeSound(hashOf, s, a, id);
      } else {
        NewSendSound(hashOf, s, a, id);
      }
    }
  }

  lemma StepKeepsSubmits(hashOf: nat -> nat, s: State, a: Action)
    requires Inv(hashOf, s) && Enabled(hashOf, s, a)
    ensures forall id :: id in Apply(hashOf, s, a).submits ==> id in Apply(hashOf, s, a).sends
  {
    hide PaymentSound, CollectionSound, RefundSound, SendSound, TaskSound, NextTasks, Startable;
  }

  // ---- Tasks ----

  predicate ActsAs(a: Action, k: nat) {
    !a.Crash? && !a.Prepare? && !a.Resolve? && a.t == k
  }

  lemma TasksStep(hashOf: nat -> nat, s: State, a: Action, k: nat)
    requires Enabled(hashOf, s, a) && k in Apply(hashOf, s, a).tasks
    ensures !(ActsAs(a, k) && NextTask(hashOf, s, a) == Some(Apply(hashOf, s, a).tasks[k])) ==>
      k in s.tasks && Apply(hashOf, s, a).tasks[k] == s.tasks[k]
  {
    hide NextSends, NextWorld, NextTask, EnabledSubmit, EnabledLookup, EnabledCollect, EnabledRefund, Startable;
  }

  lemma StartKnows(s: State, task: Task)
    requires Startable(s, task)
    ensures MayHold(s, task) && !task.ToSubmit?
  {
  }

  lemma LookupKnows(hashOf: nat -> nat, s: State, t: nat, found: Option<nat>)
    requires Inv(hashOf, s) && EnabledLookup(s, t, found)
    ensures NextTask(hashOf, s, Lookup(t, found)).Some? ==> MayHold(s, NextTask(hashOf, s, Lookup(t, found)).value)
  {
    hide CollectionSound, RefundSound, PaidFor, GivenBack, OutcomeSound;
    assert TaskSound(s, t);
    if found.Some? {
      var id := s.tasks[t].id;
      assert PaymentSound(s, found.value) && SendSound(s, id);
    }
  }

  lemma SubmitKnows(hashOf: nat -> nat, s: State, a: Action)
    requires Inv(hashOf, s) && Enabled(hashOf, s, a) && a.CallSubmit? && Evolves(s, Apply(hashOf, s, a))
    ensures NextTask(hashOf, s, a).Some? ==> MayHold(Apply(hashOf, s, a), NextTask(hashOf, s, a).value)
  {
    hide CollectionSound, RefundSound, PaymentSound, SendSound, PaidFor, GivenBack, NextTasks, NextSends;
    assert TaskSound(s, a.t);
  }

  lemma BeginKnows(hashOf: nat -> nat, s: State, t: nat)
    requires Inv(hashOf, s) && Enabled(hashOf, s, Begin(t))
    ensures NextTask(hashOf, s, Begin(t)).Some? ==>
      MayHold(Apply(hashOf, s, Begin(t)), NextTask(hashOf, s, Begin(t)).value)
  {
    hide CollectionSound, RefundSound, PaymentSound, PaidFor, GivenBack, NextTasks;
    assert TaskSound(s, t);
    if s.tasks[t].id in s.sends {
      assert SendSound(s, s.tasks[t].id);
    }
  }

  /** After a collection that succeeded the payment counts as paid for. */
  lemma CollectedIsPaidFor(hashOf: nat -> nat, s: State, t: nat, id: nat, collects: bool)
    requires EnabledCollect(hashOf, s, t, id, collects, true) && Enabled(hashOf, s, Collect(t, id, collects, true))
    requires Evolves(s, Apply(hashOf, s, Collect(t, id, collects, true))) && BindingSound(s, id)
    ensures PaidFor(Apply(hashOf, s, Collect(t, id, collects, true)), s.tasks[t].payment)
  {
    hide Enabled, NextTasks, NextSends;
    var u := Apply(hashOf, s, Collect(t, id, collects, true));
    assert s.sends[id].kind == Bolt11 ==> s.sends[id].funding in u.collections;
  }

  lemma CollectKnows(hashOf: nat -> nat, s: State, t: nat, id: nat, collects: bool, ok: bool)
    requires Inv(hashOf, s) && Enabled(hashOf, s, Collect(t, id, collects, ok))
    requires Evolves(s, Apply(hashOf, s, Collect(t, id, collects, ok)))
    ensures NextTask(hashOf, s, Collect(t, id, collects, ok)).Some?
    ensures var a := Collect(t, id, collects, ok); MayHold(Apply(hashOf, s, a), NextTask(hashOf, s, a).value)
  {
    hide CollectionSound, RefundSound, PaymentSound, OutcomeSound, Apply, PaidFor, GivenBack, Evolves;
    assert SendSound(s, id);
    if ok {
      CollectedIsPaidFor(hashOf, s, t, id, collects);
    }
  }

  lemma FailKnows(hashOf: nat -> nat, s: State, t: nat, id: nat)
    requires Inv(hashOf, s) && Enabled(hashOf, s, Fail(t, id))
    ensures NextTask(hashOf, s, Fail(t, id)).Some? && MayHold(s, NextTask(hashOf, s, Fail(t, id)).value)
  {
    hide CollectionSound, RefundSound, OutcomeSound;
    assert TaskSound(s, t) && SendSound(s, id) && PaymentSound(s, s.tasks[t].payment);
  }

  lemma MarkRefundingKnows(hashOf: nat -> nat, s: State, t: nat)
    requires Inv(hashOf, s) && Enabled(hashOf, s, MarkRefunding(t))
    ensures NextTask(hashOf, s, MarkRefunding(t)).Some? && MayHold(s, NextTask(hashOf, s, MarkRefunding(t)).value)
  {
    hide CollectionSound, RefundSound, SendSound, PaymentSound;
    assert TaskSound(s, t);
  }

  /** After a refund that succeeded the failed payment counts as given back. */
  lemma RefundedIsGivenBack(hashOf: nat -> nat, s: State, t: nat, commits: bool)
    requires EnabledRefund(s, t, commits, true) && Enabled(hashOf, s, CallRefund(t, commits, true))
    requires Evolves(s, Apply(hashOf, s, CallRefund(t, commits, true)))
    requires FailedOffer(s, s.tasks[t].id, s.tasks[t].payment)
    ensures GivenBack(Apply(hashOf, s, CallRefund(t, commits, true)), s.tasks[t].payment)
  {
    hide Enabled, NextTasks, NextSends;
    var u := Apply(hashOf, s, CallRefund(t, commits, true));
    assert s.sends[s.tasks[t].id].funding in u.refunds;
  }

  lemma RefundKnows(hashOf: nat -> nat, s: State, t: nat, commits: bool, ok: bool)
    requires Inv(hashOf, s) && Enabled(hashOf, s, CallRefund(t, commits, ok))
    requires Evolves(s, Apply(hashOf, s, CallRefund(t, commits, ok)))
    ensures var next := NextTask(hashOf, s, CallRefund(t, commits, ok));
      next.Some? ==> MayHold(Apply(hashOf, s, CallRefund(t, commits, ok)), next.value)
  {
    hide CollectionSound, RefundSound, SendSound, PaymentSound, Apply, PaidFor, GivenBack, Evolves;
    assert TaskSound(s, t);
    if ok {
      RefundedIsGivenBack(hashOf, s, t, commits);
    }
  }

  lemma ActorKnows(hashOf: nat -> nat, s: State, a: Action)
    requires Inv(hashOf, s) && Enabled(hashOf, s, a)
    requires !a.Crash? && !a.Prepare? && !a.Resolve? && NextTask(hashOf, s, a).Some?
    ensures MayHold(Apply(hashOf, s, a), NextTask(hashOf, s, a).value)
  {
    hide Inv, Apply, MayHold, EnabledSubmit, EnabledLookup, EnabledCollect, EnabledRefund, Startable;
    StepEvolves(hashOf, s, a);
    match a {
      case Start(t, task) =>
        StartKnows(s, task);
        KnowledgeStays(s, Apply(hashOf, s, a), task);
      case Begin(t) => BeginKnows(hashOf, s, t);
      case CallSubmit(t, created, payment, ok) => SubmitKnows(hashOf, s, a);
      case Lookup(t, found) =>
        LookupKnows(hashOf, s, t, found);
        KnowledgeStays(s, Apply(hashOf, s, a), NextTask(hashOf, s, a).value);
      case Collect(t, id, collects, ok) => CollectKnows(hashOf, s, t, id, collects, ok);
      case Fail(t, id) =>
        FailKnows(hashOf, s, t, id);
        KnowledgeStays(s, Apply(hashOf, s, a), NextTask(hashOf, s, a).value);
      case MarkRefunding(t) =>
        MarkRefundingKnows(hashOf, s, t);
        KnowledgeStays(s, Apply(hashOf, s, a), NextTask(hashOf, s, a).value);
      case CallRefund(t, commits, ok) => RefundKnows(hashOf, s, t, commits, ok);
      case _ =>
    }
  }

  /** A first submission of an offer leaves no other task at its submission. */
  lemma WaitingSubmitter(hashOf: nat -> nat, s: State, a: Action, k: nat)
    requires Inv(hashOf, s) && Enabled(hashOf, s, a) && k in s.tasks && s.tasks[k].ToSubmit?
    requires s.tasks[k].id in s.sends && s.sends[s.tasks[k].id].kind == Bolt12
    requires k in Apply(hashOf, s, a).tasks && Apply(hashOf, s, a).tasks[k] == s.tasks[k]
    ensures Apply(hashOf, s, a).submits[s.tasks[k].id] == 0
  {
    hide CollectionSound, RefundSound, PaymentSound, SendSound, NextSends, PaidFor, GivenBack;
    assert TaskSound(s, k);
    if a.CallSubmit? {
      assert TaskSound(s, a.t);
    }
  }

  lemma StepKeepsTasks(hashOf: nat -> nat, s: State, a: Action)
    requires Inv(hashOf, s) && Enabled(hashOf, s, a)
    ensures forall k :: k in Apply(hashOf, s, a).tasks ==> TaskSound(Apply(hashOf, s, a), k)
  {
    hide Apply, Enabled, NextTask, CollectionSound, RefundSound, PaymentSound, SendSound;
    StepEvolves(hashOf, s, a);
    var t := Apply(hashOf, s, a);
    forall k | k in t.tasks ensures TaskSound(t, k) {
      TasksStep(hashOf, s, a, k);
      if ActsAs(a, k) && NextTask(hashOf, s, a) == Some(t.tasks[k]) {
        ActorKnows(hashOf, s, a);
      } else {
        assert TaskSound(s, k);
        if s.tasks[k].ToSubmit? && s.sends[s.tasks[k].id].kind == Bolt12 {
          WaitingSubmitter(hashOf, s, a, k);
        }
        KnowledgeStays(s, t, s.tasks[k]);
      }
    }
  }

  lemma SubmitterAppears(hashOf: nat -> nat, s: State, a: Action, id: nat)
    requires Enabled(hashOf, s, a) && !a.Crash? && !a.Prepare?
    requires !a.Resolve? && NextTask(hashOf, s, a) == Some(ToSubmit(id))
    ensures id in s.sends && s.sends[id].status == Prepared
  {
    hide EnabledSubmit, EnabledLookup, EnabledCollect, EnabledRefund;
  }

  lemma StepKeepsOneSubmitter(hashOf: nat -> nat, s: State, a: Action)
    requires Inv(hashOf, s) && Enabled(hashOf, s, a)
    ensures OneSubmitter(Apply(hashOf, s, a))
  {
    hide Apply, Enabled, NextTask, CollectionSound, RefundSound, PaymentSound, SendSound, PaidFor, GivenBack;
    var t := Apply(hashOf, s, a);
    forall x, y | x in t.tasks && y in t.tasks && t.tasks[x].ToSubmit? && t.tasks[y] == t.tasks[x] ensures x == y {
      TasksStep(hashOf, s, a, x);
      TasksStep(hashOf, s, a, y);
      if x != y && (ActsAs(a, x) || ActsAs(a, y)) && NextTask(hashOf, s, a) == Some(t.tasks[x]) {
        var other := if ActsAs(a, x) then y else x;
        assert TaskSound(s, other);
        SubmitterAppears(hashOf, s, a, t.tasks[x].id);
      }
    }
  }

  lemma StepKeepsInv(hashOf: nat -> nat, s: State, a: Action)
    requires Inv(hashOf, s) && Enabled(hashOf, s, a)
    ensures Inv(hashOf, Apply(hashOf, s, a))
  {
    hide Apply, Enabled, Distinct, OnePerIntent, OneSubmitter;
    hide CollectionSound, RefundSound, PaymentSound, SendSound, TaskSound;
    StepEvolves(hashOf, s, a);
    StepKeepsDistinct(hashOf, s, a);
    StepKeepsPayments(hashOf, s, a);
    StepKeepsTransfers(hashOf, s, a);
    StepKeepsSends(hashOf, s, a);
    StepKeepsSubmits(hashOf, s, a);
    StepKeepsTasks(hashOf, s, a);
    StepKeepsOneSubmitter(hashOf, s, a);
  }

  // ---- Runs ----

  /** Every action of the run was allowed where it happened. */
  ghost predicate Legal(hashOf: nat -> nat, run: seq<Action>)
    decreases |run|, 0
  {
    run == [] || (Legal(hashOf, run[..|run| - 1]) && Enabled(hashOf, After(hashOf, run[..|run| - 1]), run[|run| - 1]))
  }

  ghost function After(hashOf: nat -> nat, run: seq<Action>): State
    requires Legal(hashOf, run)
    decreases |run|, 1
  {
    if run == [] then EMPTY else Apply(hashOf, After(hashOf, run[..|run| - 1]), run[|run| - 1])
  }

  lemma Extend(hashOf: nat -> nat, run: seq<Action>, a: Action)
    requires Legal(hashOf, run) && Enabled(hashOf, After(hashOf, run), a)
    ensures Legal(hashOf, run + [a]) && After(hashOf, run + [a]) == Apply(hashOf, After(hashOf, run), a)
  {
    hide Apply, Enabled;
    assert (run + [a])[..|run|] == run;
  }

  /** In every reachable state, however tasks interleave, lose replies or are
      dropped by restarts. */
  lemma {:induction false} EveryRunKeepsInv(hashOf: nat -> nat, run: seq<Action>)
    requires Legal(hashOf, run)
    ensures Inv(hashOf, After(hashOf, run))
    decreases |run|
  {
    hide Apply, Enabled;
    if run != [] {
      var front, last := run[..|run| - 1], run[|run| - 1];
      EveryRunKeepsInv(hashOf, front);
      StepKeepsInv(hashOf, After(hashOf, front), last);
    }
  }

  lemma EvolvesThrough(s: State, t: State, u: State)
    requires Evolves(s, t) && Evolves(t, u)
    ensures Evolves(s, u)
  {
    forall id | id in s.sends ensures id in u.sends && SendEvolves(s.sends[id], u.sends[id]) {
      assert id in t.sends && SendEvolves(s.sends[id], t.sends[id]) && SendEvolves(t.sends[id], u.sends[id]);
    }
    forall p | p in s.payments ensures p in u.payments && PaymentEvolves(s.payments[p], u.payments[p]) {
      assert p in t.payments && PaymentEvolves(s.payments[p], t.payments[p]);
      assert PaymentEvolves(t.payments[p], u.payments[p]);
    }
  }

  /** Whatever follows a legal run: a bound payment id never changes, SUCCEEDED
      and FAILED are final, and no payment, collection or refund is undone. */
  lemma {:induction false} EveryRunEvolves(hashOf: nat -> nat, run: seq<Action>, more: seq<Action>)
    requires Legal(hashOf, run + more)
    ensures Legal(hashOf, run) && Evolves(After(hashOf, run), After(hashOf, run + more))
    decreases |more|
  {
    hide Apply, Enabled, Inv;
    if more == [] {
      assert run + more == run;
    } else {
      var front := more[..|more| - 1];
      assert (run + more)[..|run + more| - 1] == run + front;
      EveryRunEvolves(hashOf, run, front);
      EveryRunKeepsInv(hashOf, run + front);
      StepEvolves(hashOf, After(hashOf, run + front), more[|more| - 1]);
      EvolvesThrough(After(hashOf, run), After(hashOf, run + front), After(hashOf, run + more));
    }
  }

  // ---- What the service promises ----

  /** At most one LDK payment per intent, and an offer is submitted at most once. */
  lemma OneSubmissionOnePayment(hashOf: nat -> nat, run: seq<Action>, id: nat, p: nat, q: nat)
    requires Legal(hashOf, run) && id in After(hashOf, run).sends
    ensures After(hashOf, run).sends[id].kind == Bolt12 ==> After(hashOf, run).submits[id] <= 1
    ensures p in After(hashOf, run).payments && After(hashOf, run).payments[p].note == id ==>
      q in After(hashOf, run).payments && After(hashOf, run).payments[q].note == id ==> p == q
  {
    hide Apply, Enabled;
    EveryRunKeepsInv(hashOf, run);
    assert SendSound(After(hashOf, run), id);
  }

  /** An invoice is submitted again only by a task whose own lookup, earlier in
      the run, found no payment of it in LDK. */
  lemma {:induction false} ResubmitFollowsEmptyLookup(hashOf: nat -> nat, run: seq<Action>, t: nat) returns (j: nat)
    requires Legal(hashOf, run) && t in After(hashOf, run).tasks && After(hashOf, run).tasks[t].ToResubmit?
    ensures j < |run| && run[j] == Lookup(t, None) && Legal(hashOf, run[..j])
    ensures After(hashOf, run).tasks[t].snap.kind == Bolt11
    ensures NoPaymentOf(After(hashOf, run[..j]).payments, After(hashOf, run).tasks[t].snap.ident)
    decreases |run|
  {
    hide Apply, Enabled, NextTask, Inv;
    var front, last := run[..|run| - 1], run[|run| - 1];
    var s := After(hashOf, front);
    TasksStep(hashOf, s, last, t);
    if ActsAs(last, t) && NextTask(hashOf, s, last) == Some(After(hashOf, run).tasks[t]) {
      j := |run| - 1;
      EveryRunKeepsInv(hashOf, front);
      ResubmitArises(hashOf, s, last, After(hashOf, run).tasks[t]);
    } else {
      j := ResubmitFollowsEmptyLookup(hashOf, front, t);
      assert front[..j] == run[..j];
    }
  }

  /** LDK has no payment of this invoice. */
  predicate NoPaymentOf(payments: map<nat, Payment>, ident: nat) {
    forall p :: p in payments ==> !(payments[p].kind == Bolt11 && payments[p].ident == ident)
  }

  lemma ResubmitterAppears(hashOf: nat -> nat, s: State, a: Action, task: Task)
    requires Enabled(hashOf, s, a) && !a.Crash? && !a.Prepare? && !a.Resolve?
    requires NextTask(hashOf, s, a) == Some(task) && task.ToResubmit?
    ensures a == Lookup(a.t, None) && EnabledLookup(s, a.t, None) && s.tasks[a.t] == ToLookup(task.id, task.snap, false)
    ensures task.snap.kind == Bolt11
  {
    hide EnabledSubmit, EnabledCollect, EnabledRefund, ValidateSendPayment;
  }

  lemma LookupSeesInvoice(hashOf: nat -> nat, s: State, id: nat, snap: Send, p: nat)
    requires Inv(hashOf, s) && HoldsRow(s, id, snap) && snap.kind == Bolt11
    requires p in s.payments && s.payments[p].kind == Bolt11 && s.payments[p].ident == snap.ident
    ensures ValidateSendPayment(id, snap, p, s.payments[p])
  {
    hide CollectionSound, RefundSound, SendSound, TaskSound, OneSubmitter;
    assert PaymentSound(s, p);
  }

  lemma ResubmitArises(hashOf: nat -> nat, s: State, a: Action, task: Task)
    requires Inv(hashOf, s) && Enabled(hashOf, s, a) && !a.Crash? && !a.Prepare? && !a.Resolve?
    requires NextTask(hashOf, s, a) == Some(task) && task.ToResubmit?
    ensures a == Lookup(a.t, None) && task.snap.kind == Bolt11 && NoPaymentOf(s.payments, task.snap.ident)
  {
    hide Enabled, NextTask, CollectionSound, RefundSound, SendSound, PaymentSound, ValidateSendPayment;
    ResubmitterAppears(hashOf, s, a, task);
    assert TaskSound(s, a.t);
    forall p | p in s.payments && s.payments[p].kind == Bolt11 ensures s.payments[p].ident != task.snap.ident {
      if s.payments[p].ident == task.snap.ident {
        LookupSeesInvoice(hashOf, s, task.id, task.snap, p);
      }
    }
  }

  /** A paid invoice is SUCCEEDED only after the sender's funding was collected
      with a preimage of its hash; and that funding is never refunded. */
  lemma SucceededWasCollected(hashOf: nat -> nat, run: seq<Action>, id: nat)
    requires Legal(hashOf, run) && id in After(hashOf, run).sends
    requires After(hashOf, run).sends[id].status == Succeeded
    ensures After(hashOf, run).sends[id].kind == Bolt11 ==> Collected(hashOf, After(hashOf, run), id)
    ensures After(hashOf, run).sends[id].funding !in After(hashOf, run).refunds
  {
    hide Apply, Enabled;
    EveryRunKeepsInv(hashOf, run);
    var s := After(hashOf, run);
    assert SendSound(s, id) && PaymentSound(s, s.sends[id].payment.value);
    var f := s.sends[id].funding;
    assert f in s.collections ==> CollectionSound(hashOf, s, f) && PaymentSound(s, s.collections[f].payment);
    assert f in s.refunds ==> RefundSound(s, f);
  }

  ghost predicate Collected(hashOf: nat -> nat, s: State, id: nat)
    requires id in s.sends
  {
    s.sends[id].funding in s.collections && hashOf(s.collections[s.sends[id].funding].preimage) == s.sends[id].ident
  }

  /** A failed offer is FAILED only after its whole funding went back to its
      owner, once; a failed invoice's funding was never collected. */
  lemma FailedWasGivenBack(hashOf: nat -> nat, run: seq<Action>, id: nat)
    requires Legal(hashOf, run) && id in After(hashOf, run).sends
    requires After(hashOf, run).sends[id].status == Failed
    ensures After(hashOf, run).sends[id].kind == Bolt12 ==> RefundedWhole(After(hashOf, run), id)
    ensures After(hashOf, run).sends[id].funding !in After(hashOf, run).collections
  {
    hide Apply, Enabled;
    EveryRunKeepsInv(hashOf, run);
    var s := After(hashOf, run);
    assert SendSound(s, id) && PaymentSound(s, s.sends[id].payment.value);
    var f := s.sends[id].funding;
    assert f in s.collections ==> CollectionSound(hashOf, s, f);
    assert f in s.refunds ==> RefundSound(s, f);
  }

  ghost predicate RefundedWhole(s: State, id: nat)
    requires id in s.sends
  {
    var send := s.sends[id];
    && send.funding in s.refunds && send.payment.Some?
    && s.refunds[send.funding] == Refund(send.payment.value, send.owner, send.sats)
  }

  /** The same funding is never both collected and refunded. */
  lemma NeverBothWays(hashOf: nat -> nat, run: seq<Action>, f: nat)
    requires Legal(hashOf, run) && f in After(hashOf, run).collections
    ensures f !in After(hashOf, run).refunds
  {
    hide Apply, Enabled;
    EveryRunKeepsInv(hashOf, run);
    var s := After(hashOf, run);
    assert CollectionSound(hashOf, s, f) && PaymentSound(s, s.collections[f].payment);
    assert f in s.refunds ==> RefundSound(s, f);
  }
}
