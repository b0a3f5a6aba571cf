/** The split tables and the loop that resumes a split after any interruption
    (src/db.rs, src/spark.rs). */
module SplitStore {
  import opened Basics
  import opened SplitRun

  /** Only the split `id` may differ, and it only moved forward. */
  ghost predicate OnlySplit(before: map<nat, Operation>, id: nat, after: map<nat, Operation>) {
    && id in before && id in after && after == before[id := after[id]]
    && OperationEvolves(before[id], after[id])
  }

  lemma NothingMoved(operations: map<nat, Operation>, id: nat)
    requires id in operations
    ensures OnlySplit(operations, id, operations)
  {
  }

  lemma StillStored(before: map<nat, Operation>, id: nat, after: map<nat, Operation>)
    requires OnlySplit(before, id, after)
    ensures id in after
  {
  }

  lemma OnlyThrough(before: map<nat, Operation>, id: nat, mid: map<nat, Operation>, after: map<nat, Operation>)
    requires OnlySplit(before, id, mid) && OnlySplit(mid, id, after)
    ensures OnlySplit(before, id, after) && id in after
  {
  }

  /** What the SDK's key store accepts: a first put, or the same put again. */
  predicate PutAccepted(pending: map<nat, PendingKeys>, id: nat, parent: nat, keys: seq<nat>) {
    Filled(keys) && (id in pending ==> pending[id] == PendingKeys(parent, keys))
  }

  /** A first binding of all keys, or the same binding again. */
  predicate BindAccepted(operations: map<nat, Operation>, pending: map<nat, PendingKeys>, id: nat, ids: seq<nat>) {
    && Filled(ids) && id in operations && |ids| == |operations[id].childValues|
    && if id in pending then |pending[id].keys| == |ids| else operations[id].childIds == ids
  }

  // ---- What the stages do to one split ----

  /** What the SDK and the operators answer while one split is carried on: the
      child keys and the draft, the answer to each stage, and the children that
      the SDK learns of and binds while it submits or finalizes. */
  datatype Replies = Replies(keys: seq<nat>, drafted: Outcome<nat>, prepared: Outcome<nat>,
                             submitted: Outcome<nat>, early: Option<seq<nat>>,
                             finalized: Outcome<nat>, late: Option<seq<nat>>)

  /** A split and the keys that wait for its children. */
  datatype Part = Part(o: Operation, waiting: Option<seq<nat>>)

  function PartOf(operations: map<nat, Operation>, pending: map<nat, PendingKeys>, id: nat): Part
    requires id in operations
  {
    Part(operations[id], if id in pending then Some(pending[id].keys) else None)
  }

  /** The SDK's binding, if it makes one, is accepted. */
  predicate Binds(p: Part, children: Option<seq<nat>>) {
    children.Some? ==>
      && Filled(children.value) && |children.value| == |p.o.childValues|
      && if p.waiting.Some? then |p.waiting.value| == |children.value| else p.o.childIds == children.value
  }

  function Bound(p: Part, children: Option<seq<nat>>): Part {
    if children.Some? then Part(p.o.(childIds := children.value), None) else p
  }

  /** Each stage applies to the splits that are not past it. */
  function AfterPrepare(p: Part, parentAvailable: bool, reply: Outcome<nat>): Option<Part> {
    if p.o.status != Draft then Some(p)
    else if !parentAvailable || !reply.Ok? then None
    else Some(p.(o := p.o.(plan := reply.value, status := Prepared)))
  }

  function AfterSubmit(p: Part, reply: Outcome<nat>, children: Option<seq<nat>>): Option<Part> {
    if Rank(p.o.status) > Rank(Submitting) then Some(p)
    else if !reply.Ok? || !Binds(p, children) then None
    else Some(Part(Bound(p, children).o.(plan := reply.value, status := Submitted), Bound(p, children).waiting))
  }

  function AfterFinish(p: Part, reply: Outcome<nat>, children: Option<seq<nat>>): Option<Part> {
    if p.o.status == Completed then Some(p)
    else if reply != Ok(|p.o.childValues|) || !Binds(p, children) || Bound(p, children).o.childIds == [] then None
    else Some(Part(Bound(p, children).o.(status := Completed), Bound(p, children).waiting))
  }

  function Continued(p: Part, q: Replies): Option<Part> {
    var submitted := AfterSubmit(p, q.submitted, q.early);
    if submitted.None? then None else AfterFinish(submitted.value, q.finalized, q.late)
  }

  /** The split once every stage that is left went through, if they all do. */
  function Carried(p: Part, parentAvailable: bool, q: Replies): Option<Part> {
    var prepared := AfterPrepare(p, parentAvailable, q.prepared);
    if prepared.None? then None else Continued(prepared.value, q)
  }

  /** The plan that the operators are asked with, if they still have to be. */
  function Asked(p: Part, parentAvailable: bool, q: Replies): Option<nat> {
    var prepared := AfterPrepare(p, parentAvailable, q.prepared);
    if prepared.None? || Rank(p.o.status) > Rank(Submitting) then None else Some(prepared.value.o.plan)
  }

  /** A stage that went through is not repeated. */
  lemma CarriedOnce(p: Part, parentAvailable: bool, q: Replies)
    ensures p.o.status == Draft ==>
      var next := AfterPrepare(p, parentAvailable, q.prepared);
      if next.Some? then
        && next.value.o.status == Prepared && Asked(next.value, parentAvailable, q) == Asked(p, parentAvailable, q)
        && Carried(next.value, parentAvailable, q) == Carried(p, parentAvailable, q)
      else Carried(p, parentAvailable, q).None? && Asked(p, parentAvailable, q).None?
    ensures p.o.status == Prepared || p.o.status == Submitting ==>
      var next := AfterSubmit(p, q.submitted, q.early);
      && Asked(p, parentAvailable, q) == Some(p.o.plan)
      && if next.Some? then
           next.value.o.status == Submitted && Carried(next.value, parentAvailable, q) == Carried(p, parentAvailable, q)
         else Carried(p, parentAvailable, q).None?
    ensures p.o.status == Submitted ==>
      var next := AfterFinish(p, q.finalized, q.late);
      && Asked(p, parentAvailable, q).None?
      && if next.Some? then
           next.value.o.status == Completed && Carried(next.value, parentAvailable, q) == Carried(p, parentAvailable, q)
         else Carried(p, parentAvailable, q).None?
    ensures p.o.status == Completed ==>
      Asked(p, parentAvailable, q).None? && Carried(p, parentAvailable, q) == Some(p)
  {
  }

  /** A split can be completed exactly when its parent is there while it is a
      draft, every stage it has not passed is answered, the children bind, and
      there is one for each value. */
  lemma CarriedIff(p: Part, parentAvailable: bool, q: Replies)
    ensures Carried(p, parentAvailable, q).Some? <==>
      var waiting := if Unsubmitted(p.o) then Bound(p, q.early) else p;
      && (p.o.status == Draft ==> parentAvailable && q.prepared.Ok?)
      && (Unsubmitted(p.o) ==> q.submitted.Ok? && Binds(p, q.early))
      && (p.o.status != Completed ==>
            && q.finalized == Ok(|p.o.childValues|) && Binds(waiting, q.late)
            && Bound(waiting, q.late).o.childIds != [])
    ensures Carried(p, parentAvailable, q).Some? ==> Carried(p, parentAvailable, q).value.o.status == Completed
  {
  }

  predicate Unsubmitted(o: Operation) {
    o.status == Draft || o.status == Prepared || o.status == Submitting
  }

  class SplitService {
    const enabled: bool
    // spark_split_operations, spark_pending_split_keys, spark_leaf_key_overrides
    var operations: map<nat, Operation>
    var pending: map<nat, PendingKeys>
    var overrides: map<nat, Override>
    // The keys first stored, the node ids rotated away, and the plans submitted.
    ghost var first: map<nat, seq<nat>>
    ghost var retired: set<nat>
    ghost var submits: set<(nat, nat)>
    ghost var run: seq<Action>

    ghost function Now(): State
      reads this
    {
      State(operations, pending, overrides, first, retired, submits)
    }

    ghost predicate Valid()
      reads this
    {
      Legal(run) && After(run) == Now()
    }

    constructor (enabled: bool)
      ensures Valid() && run == []
    {
      this.enabled := enabled;
      operations, pending, overrides := map[], map[], map[];
      first, retired, submits, run := map[], {}, {}, [];
    }

    ghost method Did(a: Action, before: State)
      requires Legal(run) && After(run) == before && Enabled(before, a) && Now() == Apply(before, a)
      modifies this`run
      ensures Valid() && run == old(run) + [a]
    {
      Extend(run, a);
      run := run + [a];
    }

    // ---- One commit ----

    /** Insert a draft unless its parent has a split; answer with the stored one. */
    method GetOrInsert(id: nat, draft: Operation) returns (r: Outcome<nat>)
      requires Valid() && draft.status == Draft && draft.childIds == []
      modifies this`operations, this`run
      ensures Valid() && old(run) <= run
      ensures operations != old(operations) ==>
        Fits(old(Now()), id, draft.parent) && operations == old(operations)[id := draft]
      ensures r.Ok? ==> r.value in operations && operations[r.value].parent == draft.parent
      ensures r.Ok? && r.value !in old(operations) ==> r.value == id && operations[id] == draft
      ensures r.Err? ==> operations == old(operations) && id in operations
    {
      hide After, Legal;
      var dies: bool := *;
      var committed: bool := *;
      if dies && !committed {
        return Crashed;
      }
      if id !in operations && !exists o :: o in operations && operations[o].parent == draft.parent {
        ghost var before := Now();
        operations := operations[id := draft];
        Did(Insert(id, draft), before);
      }
      if dies {
        return Crashed;
      }
      var stored := SplitForParent(draft.parent);
      r := if stored.Some? then Ok(stored.value) else Err(Invalid);
    }

    method SplitForParent(parent: nat) returns (found: Option<nat>)
      ensures found.Some? ==> found.value in operations && operations[found.value].parent == parent
      ensures found.None? ==> forall o :: o in operations ==> operations[o].parent != parent
    {
      var rest := operations.Keys;
      while rest != {}
        invariant rest <= operations.Keys
        invariant forall o :: o in operations && o !in rest ==> operations[o].parent != parent
      {
        var o :| o in rest;
        if operations[o].parent == parent {
          return Some(o);
        }
        rest := rest - {o};
      }
      return None;
    }

    method SavePrepared(id: nat, plan: nat) returns (r: Outcome<()>)
      requires Valid() && id in operations
      modifies this`operations, this`run
      ensures Valid() && old(run) <= run
      ensures OnlySplit(old(operations), id, operations)
      ensures r.Ok? ==> operations[id] == old(operations[id]).(plan := plan, status := Prepared)
      ensures r.Err? ==> r == Err(Rejected) && operations == old(operations)
      ensures r.Err? ==> Rank(operations[id].status) > Rank(Prepared)
    {
      hide After, Legal;
      var dies: bool := *;
      var committed: bool := *;
      if dies && !committed {
        return Crashed;
      }
      if Rank(operations[id].status) > Rank(Prepared) {
        return Err(Rejected);
      }
      ghost var before := Now();
      operations := operations[id := operations[id].(plan := plan, status := Prepared)];
      Did(SplitRun.SavePrepared(id, plan), before);
      r := if dies then Crashed else Ok(());
    }

    /** A split past PREPARED is left as it is, and that is not an error. */
    method MarkSubmitting(id: nat) returns (r: Outcome<()>)
      requires Valid() && id in operations
      modifies this`operations, this`run
      ensures Valid() && old(run) <= run
      ensures OnlySplit(old(operations), id, operations)
      ensures r.Ok? && old(operations[id]).status == Prepared ==>
        operations[id] == old(operations[id]).(status := Submitting)
      ensures r.Ok? && old(operations[id]).status != Prepared ==> operations == old(operations)
      ensures r.Ok? ==> Rank(operations[id].status) >= Rank(Submitting)
      ensures r.Err? ==> r == Err(Rejected) && operations == old(operations) && operations[id].status == Draft
    {
      hide After, Legal;
      var dies: bool := *;
      var committed: bool := *;
      if dies && !committed {
        return Crashed;
      }
      if operations[id].status == Prepared {
        ghost var before := Now();
        operations := operations[id := operations[id].(status := Submitting)];
        Did(SplitRun.MarkSubmitting(id), before);
      } else if operations[id].status == Draft {
        return Err(Rejected);
      }
      r := if dies then Crashed else Ok(());
    }

    method SaveSubmitted(id: nat, response: nat) returns (r: Outcome<()>)
      requires Valid() && id in operations
      modifies this`operations, this`run
      ensures Valid() && old(run) <= run
      ensures id in operations && operations == old(operations)[id := operations[id]]
      ensures r.Ok? ==> operations[id] == old(operations[id]).(plan := response, status := Submitted)
      ensures r.Ok? ==> OnlySplit(old(operations), id, operations)
      ensures r.Crashed? ==> OnlySplit(old(operations), id, operations)
      ensures r.Err? ==> r == Err(Rejected) && operations == old(operations)
      ensures r.Err? ==> operations[id].status != Submitting && operations[id].status != Submitted
    {
      hide After, Legal;
      var dies: bool := *;
      var committed: bool := *;
      if dies && !committed {
        return Crashed;
      }
      if operations[id].status != Submitting && operations[id].status != Submitted {
        return Err(Rejected);
      }
      ghost var before := Now();
      operations := operations[id := operations[id].(plan := response, status := Submitted)];
      Did(SplitRun.SaveSubmitted(id, response), before);
      r := if dies then Crashed else Ok(());
    }

    /** A split is complete only when its child ids are on record. */
    method MarkCompleted(id: nat) returns (r: Outcome<()>)
      requires Valid() && id in operations
      modifies this`operations, this`run
      ensures Valid() && old(run) <= run
      ensures OnlySplit(old(operations), id, operations)
      ensures r.Ok? ==> operations[id] == old(operations[id]).(status := Completed) && operations[id].childIds != []
      ensures r.Err? ==> r == Err(Rejected) && operations == old(operations)
      ensures r.Err? ==> operations[id].childIds == [] || Rank(operations[id].status) < Rank(Submitted)
    {
      hide After, Legal;
      var dies: bool := *;
      var committed: bool := *;
      if dies && !committed {
        return Crashed;
      }
      if operations[id].childIds == [] || Rank(operations[id].status) < Rank(Submitted) {
        return Err(Rejected);
      }
      ghost var before := Now();
      operations := operations[id := operations[id].(status := Completed)];
      Did(SplitRun.MarkCompleted(id), before);
      r := if dies then Crashed else Ok(());
    }

    // ---- The SDK's key store ----

    /** Persist once: the same keys again are accepted, other keys are not. */
    method PutPendingKeys(id: nat, parent: nat, keys: seq<nat>) returns (r: Outcome<()>)
      requires Valid()
      modifies this`pending, this`first, this`run
      ensures Valid() && old(run) <= run
      ensures r.Ok? ==>
        PutAccepted(old(pending), id, parent, keys) && pending == old(pending)[id := PendingKeys(parent, keys)]
      ensures r.Err? ==> !PutAccepted(old(pending), id, parent, keys) && pending == old(pending)
      ensures id in old(pending) ==> pending == old(pending)
    {
      hide After, Legal;
      if !Filled(keys) {
        return Err(Invalid);
      }
      var dies: bool := *;
      var committed: bool := *;
      if dies && !committed {
        return Crashed;
      }
      if id !in pending {
        ghost var before := Now();
        pending := pending[id := PendingKeys(parent, keys)];
        first := if id in first then first else first[id := keys];
        Did(PutKeys(id, parent, keys), before);
      } else if pending[id] != PendingKeys(parent, keys) {
        return if dies then Crashed else Err(Rejected);
      }
      r := if dies then Crashed else Ok(());
    }

    /** Bind every waiting key to the child at its position, in one commit. With
        no key waiting, the same ids again change nothing and others are rejected. */
    method BindPendingKeys(id: nat, ids: seq<nat>) returns (r: Outcome<()>)
      requires Valid()
      modifies this`operations, this`pending, this`overrides, this`run
      ensures Valid() && old(run) <= run
      ensures r.Ok? ==> BindAccepted(old(operations), old(pending), id, ids)
      ensures r.Ok? ==> id in operations && operations == old(operations)[id := old(operations[id]).(childIds := ids)]
      ensures r.Ok? ==> id !in pending
      ensures r.Ok? && id in old(pending) ==> overrides == BindAll(old(overrides), id, ids, old(pending[id]).keys)
      ensures r.Ok? && id in old(pending) && Distinct(ids) ==> InOrder(overrides, id, ids, old(pending[id]).keys)
      ensures r.Err? ==> !BindAccepted(old(operations), old(pending), id, ids)
      ensures r.Err? || id !in old(pending) ==>
        operations == old(operations) && pending == old(pending) && overrides == old(overrides)
      ensures id in old(operations) ==> OnlySplit(old(operations), id, operations)
      ensures id in old(operations) ==>
        operations[id].status == old(operations[id]).status && operations[id].plan == old(operations[id]).plan
    {
      hide After, Legal, BindAll;
      if !Filled(ids) {
        return Err(Invalid);
      }
      var dies: bool := *;
      var committed: bool := *;
      if dies && !committed {
        return Crashed;
      }
      if id !in operations || |operations[id].childValues| != |ids| {
        return if dies then Crashed else Err(Rejected);
      }
      if id !in pending {
        return if dies then Crashed else if operations[id].childIds == ids then Ok(()) else Err(Rejected);
      }
      if |pending[id].keys| != |ids| {
        return if dies then Crashed else Err(Rejected);
      }
      var keys := pending[id].keys;
      var rows := BindRows(id, ids, keys);
      if Distinct(ids) {
        BindAllInOrder(overrides, id, ids, keys);
      }
      CommitBinding(id, ids, rows);
      r := if dies then Crashed else Ok(());
    }

    /** The upserts of the binding transaction. */
    method BindRows(id: nat, ids: seq<nat>, keys: seq<nat>) returns (rows: map<nat, Override>)
      requires |ids| == |keys|
      ensures rows == BindAll(overrides, id, ids, keys)
    {
      rows := overrides;
      for i := 0 to |ids|
        invariant rows == BindAll(overrides, id, ids[..i], keys[..i])
      {
        assert ids[..i + 1][..i] == ids[..i] && keys[..i + 1][..i] == keys[..i];
        rows := rows[ids[i] := Override(id, keys[i])];
      }
      assert ids[..|ids|] == ids && keys[..|ids|] == keys;
    }

    method CommitBinding(id: nat, ids: seq<nat>, rows: map<nat, Override>)
      requires Valid() && Enabled(Now(), BindKeys(id, ids)) && rows == BindAll(overrides, id, ids, pending[id].keys)
      modifies this`operations, this`pending, this`overrides, this`run
      ensures Valid() && old(run) <= run
      ensures operations == old(operations)[id := old(operations[id]).(childIds := ids)]
      ensures pending == old(pending) - {id} && overrides == rows
    {
      hide After, Legal;
      ghost var before := Now();
      operations, overrides, pending := operations[id := operations[id].(childIds := ids)], rows, pending - {id};
      Did(BindKeys(id, ids), before);
    }

    /** Incoming transfers rotate these nodes back to their derived keys. */
    method RetireLeafKeys(ids: seq<nat>) returns (r: Outcome<()>)
      requires Valid()
      modifies this`overrides, this`retired, this`run
      ensures Valid() && old(run) <= run && !r.Err?
      ensures r.Ok? ==> overrides == old(overrides) - Members(ids)
    {
      hide After, Legal;
      var dies: bool := *;
      var committed: bool := *;
      if dies && !committed {
        return Crashed;
      }
      ghost var before := Now();
      for i := 0 to |ids|
        invariant overrides == before.overrides - Members(ids[..i])
        invariant Now() == before.(overrides := overrides) && run == old(run)
      {
        assert Members(ids[..i + 1]) == Members(ids[..i]) + {ids[i]};
        overrides := overrides - {ids[i]};
      }
      assert ids[..|ids|] == ids;
      retired := retired + Members(ids);
      Did(Retire(ids), before);
      r := if dies then Crashed else Ok(());
    }

    // ---- Outside calls ----

    /** The SDK stores the child keys before it hands out a draft. */
    method DraftSplit(id: nat, parent: nat, keys: seq<nat>, reply: Outcome<nat>) returns (r: Outcome<nat>)
      requires Valid() && id !in operations
      modifies this`pending, this`first, this`run
      ensures Valid() && old(run) <= run
      ensures !r.Crashed? ==> (r.Ok? <==> PutAccepted(old(pending), id, parent, keys) && reply.Ok?)
      ensures r.Ok? ==> r == reply && pending == old(pending)[id := PendingKeys(parent, keys)]
    {
      hide After, Legal;
      var _ :- PutPendingKeys(id, parent, keys);
      r := reply;
    }

    /** Submission may reach the operators and lose its reply; the SDK may bind
        the children it learned of before returning. */
    method SubmitSplit(id: nat, plan: nat, reply: Outcome<nat>, children: Option<seq<nat>>) returns (r: Outcome<nat>)
      requires Valid() && id in operations && operations[id].status == Submitting && operations[id].plan == plan
      modifies this`operations, this`pending, this`overrides, this`submits, this`run
      ensures Valid() && old(run) <= run
      ensures submits == old(submits) + {(id, plan)}
      ensures OnlySplit(old(operations), id, operations) && operations[id].status == Submitting
      ensures !r.Crashed? ==> (r.Ok? <==> reply.Ok? && Binds(old(PartOf(operations, pending, id)), children))
      ensures r.Ok? ==> r == reply
      ensures r.Ok? ==> PartOf(operations, pending, id) == Bound(old(PartOf(operations, pending, id)), children)
    {
      hide After, Legal;
      ghost var before := Now();
      submits := submits + {(id, plan)};
      Did(CallSubmit(id), before);
      var _ :- LearnChildren(id, children);
      r := reply;
    }

    method FinalizeSplit(id: nat, reply: Outcome<nat>, children: Option<seq<nat>>) returns (r: Outcome<nat>)
      requires Valid() && id in operations
      modifies this`operations, this`pending, this`overrides, this`run
      ensures Valid() && old(run) <= run
      ensures OnlySplit(old(operations), id, operations)
      ensures operations[id].status == old(operations[id]).status
      ensures !r.Crashed? ==> (r.Ok? <==> reply.Ok? && Binds(old(PartOf(operations, pending, id)), children))
      ensures r.Ok? ==> r == reply
      ensures r.Ok? ==> PartOf(operations, pending, id) == Bound(old(PartOf(operations, pending, id)), children)
    {
      hide After, Legal;
      var _ :- LearnChildren(id, children);
      r := reply;
    }

    /** The children that the operators answered with are bound. */
    method LearnChildren(id: nat, children: Option<seq<nat>>) returns (r: Outcome<()>)
      requires Valid() && id in operations
      modifies this`operations, this`pending, this`overrides, this`run
      ensures Valid() && old(run) <= run
      ensures OnlySplit(old(operations), id, operations)
      ensures operations[id].status == old(operations[id]).status && operations[id].plan == old(operations[id]).plan
      ensures !r.Crashed? ==> (r.Ok? <==> Binds(old(PartOf(operations, pending, id)), children))
      ensures r.Ok? ==> PartOf(operations, pending, id) == Bound(old(PartOf(operations, pending, id)), children)
    {
      hide After, Legal;
      r := Ok(());
      if children.Some? {
        r := BindPendingKeys(id, children.value);
      }
    }

    // ---- Procedures ----

    method PrepareStage(id: nat, parentAvailable: bool, reply: Outcome<nat>) returns (r: Outcome<()>)
      requires Valid() && id in operations && operations[id].status == Draft
      modifies this`operations, this`run
      ensures Valid() && old(run) <= run
      ensures OnlySplit(old(operations), id, operations)
      ensures Reaches(r, AfterPrepare(old(PartOf(operations, pending, id)), parentAvailable, reply),
                PartOf(operations, pending, id))
      ensures r.Err? || !parentAvailable ==> run == old(run) && operations == old(operations)
    {
      hide After, Legal;
      if !parentAvailable {
        return Err(Unavailable);
      }
      var plan :- reply;
      r := SavePrepared(id, plan);
    }

    /** A lost reply is answered by submitting the very same plan again: nothing
        but the stored plan is ever submitted from here. */
    method SubmitStage(id: nat, reply: Outcome<nat>, children: Option<seq<nat>>) returns (r: Outcome<()>)
      requires Valid() && id in operations && (operations[id].status == Prepared || operations[id].status == Submitting)
      modifies this`operations, this`pending, this`overrides, this`submits, this`run
      ensures Valid() && old(run) <= run
      ensures OnlySplit(old(operations), id, operations)
      ensures submits == old(submits) + {(id, old(operations[id]).plan)} || (r.Crashed? && submits == old(submits))
      ensures Reaches(r, AfterSubmit(old(PartOf(operations, pending, id)), reply, children),
                PartOf(operations, pending, id))
    {
      hide After, Legal;
      var plan := operations[id].plan;
      var _ :- MarkSubmitting(id);
      var response :- SubmitSplit(id, plan, reply, children);
      r := SaveSubmitted(id, response);
    }

    method FinishStage(id: nat, reply: Outcome<nat>, children: Option<seq<nat>>) returns (r: Outcome<()>)
      requires Valid() && id in operations && operations[id].status == Submitted
      modifies this`operations, this`pending, this`overrides, this`run
      ensures Valid() && old(run) <= run
      ensures OnlySplit(old(operations), id, operations)
      ensures Reaches(r, AfterFinish(old(PartOf(operations, pending, id)), reply, children),
                PartOf(operations, pending, id))
    {
      hide After, Legal;
      var count :- FinalizeSplit(id, reply, children);
      if count != |operations[id].childValues| {
        return Err(Mismatch);
      }
      r := MarkCompleted(id);
    }

    lemma HasChildren(id: nat)
      requires Valid() && id in operations && operations[id].status == Completed
      ensures |operations[id].childIds| == |operations[id].childValues|
    {
      hide After, Legal;
      EveryRunKeepsInv(run);
      assert OperationSound(Now(), id);
    }

    /** The stage that comes next for a split that is not complete. */
    method ResumeStage(id: nat, parentAvailable: bool, q: Replies) returns (r: Outcome<()>)
      requires Valid() && id in operations && operations[id].status != Completed
      modifies this`operations, this`pending, this`overrides, this`submits, this`run
      ensures Valid() && old(run) <= run
      ensures OnlySplit(old(operations), id, operations)
      ensures Moves(old(PartOf(operations, pending, id)), PartOf(operations, pending, id), r, parentAvailable, q)
      ensures old(submits) <= submits
      ensures submits <= old(submits) + Due(id, Asked(old(PartOf(operations, pending, id)), parentAvailable, q))
      ensures !r.Crashed? ==>
        submits + (if r.Ok? then Due(id, Asked(PartOf(operations, pending, id), parentAvailable, q)) else {})
          == old(submits) + Due(id, Asked(old(PartOf(operations, pending, id)), parentAvailable, q))
      ensures old(operations[id]).status == Draft && !parentAvailable ==> !r.Ok? && run == old(run)
    {
      hide After, Legal, AfterPrepare, AfterSubmit, AfterFinish, Carried, Asked, OnlySplit;
      CarriedOnce(PartOf(operations, pending, id), parentAvailable, q);
      match operations[id].status {
        case Draft =>
          r := PrepareStage(id, parentAvailable, q.prepared);
        case Prepared | Submitting =>
          r := SubmitStage(id, q.submitted, q.early);
        case Submitted =>
          r := FinishStage(id, q.finalized, q.late);
      }
      StillStored(old(operations), id, operations);
      CarriedOnce(PartOf(operations, pending, id), parentAvailable, q);
    }

    /** Continue from whatever stage is stored until the split is complete. The
        loop ends because each turn leaves with an error or raises the status. */
    method ResumeLeafSplit(id: nat, parentAvailable: bool, q: Replies) returns (r: Outcome<()>)
      requires Valid() && id in operations
      modifies this`operations, this`pending, this`overrides, this`submits, this`run
      ensures Valid() && old(run) <= run
      ensures OnlySplit(old(operations), id, operations)
      ensures enabled ==> Reaches(r, Carried(old(PartOf(operations, pending, id)), parentAvailable, q),
                            PartOf(operations, pending, id))
      ensures !enabled ==> r.Err? && run == old(run)
      ensures r.Ok? ==> operations[id].status == Completed && |operations[id].childIds| == |operations[id].childValues|
      ensures enabled ==> AskedOnce(submits, old(submits), id,
                            Asked(old(PartOf(operations, pending, id)), parentAvailable, q), r.Crashed?)
      ensures old(operations[id]).status == Draft && !parentAvailable ==> !r.Ok? && run == old(run)
    {
      hide After, Legal, Carried, Asked, OnlySplit;
      NothingMoved(operations, id);
      if !enabled {
        return Err(Unavailable);
      }
      ghost var start := PartOf(operations, pending, id);
      while operations[id].status != Completed
        invariant Valid() && old(run) <= run
        invariant id in operations && OnlySplit(old(operations), id, operations)
        invariant Carried(PartOf(operations, pending, id), parentAvailable, q) == Carried(start, parentAvailable, q)
        invariant old(submits) <= submits
        invariant submits + Due(id, Asked(PartOf(operations, pending, id), parentAvailable, q))
          == old(submits) + Due(id, Asked(start, parentAvailable, q))
        invariant old(operations[id]).status == Draft && !parentAvailable ==>
          run == old(run) && operations == old(operations)
        decreases 4 - Rank(operations[id].status)
      {
        ghost var mid := operations;
        r := ResumeStage(id, parentAvailable, q);
        OnlyThrough(old(operations), id, mid, operations);
        if !r.Ok? {
          return;
        }
      }
      CarriedOnce(PartOf(operations, pending, id), parentAvailable, q);
      HasChildren(id);
      r := Ok(());
    }

    /** Split one parent. A split stored for other values stays as it is.
        `id` is derived from the parent's id alone. */
    method ExecuteLeafSplit(id: nat, parent: nat, value: u64, childValues: seq<u64>, q: Replies)
      returns (r: Outcome<()>)
      requires Valid() && (id in operations ==> operations[id].parent == parent)
      modifies this`operations, this`pending, this`overrides, this`first, this`submits, this`run
      ensures Valid() && old(run) <= run
      ensures r.Ok? ==> SplitDone(operations, parent, value, childValues)
      ensures forall o :: o in old(operations) && OtherSplit(old(operations[o]), parent, value, childValues) ==>
        !r.Ok? && run == old(run)
      ensures !enabled ==> r.Err? && run == old(run)
      ensures enabled && !r.Crashed? ==> forall o :: o in old(operations) && old(operations[o]).parent == parent ==>
        (r.Ok? <==> !OtherSplit(old(operations[o]), parent, value, childValues)
                    && Carried(old(PartOf(operations, pending, o)), true, q).Some?)
      ensures enabled && !r.Crashed? && !old(HasSplit(operations, parent)) ==>
        (r.Ok? <==> PutAccepted(old(pending), id, parent, q.keys) && q.drafted.Ok?
                    && Carried(NewPart(parent, value, childValues, q), true, q).Some?)
    {
      hide After, Legal, Carried, Asked;
      if !enabled {
        return Err(Liquidity);
      }
      EveryRunKeepsInv(run);
      var stored := SplitForParent(parent);
      if stored.None? {
        var plan :- DraftSplit(id, parent, q.keys, q.drafted);
        var inserted :- GetOrInsert(id, Operation(parent, value, childValues, plan, Draft, []));
        stored := Some(inserted);
      }
      var operation := operations[stored.value];
      if operation.parentValue != value || operation.childValues != childValues {
        return Err(Mismatch);
      }
      r := ResumeLeafSplit(stored.value, true, q);
    }
  }

  /** The outcome is an error exactly when the stage does not go through, and the
      split is what the stage makes of it when it does. */
  predicate Reaches(r: Outcome<()>, expected: Option<Part>, now: Part) {
    && (r.Ok? ==> expected == Some(now))
    && (r.Err? ==> expected.None?)
  }

  /** A stage raises the status, or the split cannot be carried to its end. */
  predicate Moves(p: Part, now: Part, r: Outcome<()>, parentAvailable: bool, q: Replies) {
    && (r.Ok? ==>
          && Rank(now.o.status) > Rank(p.o.status)
          && Carried(now, parentAvailable, q) == Carried(p, parentAvailable, q))
    && (r.Err? ==> Carried(p, parentAvailable, q).None?)
  }

  function Due(id: nat, plan: Option<nat>): set<(nat, nat)> {
    if plan.Some? then {(id, plan.value)} else {}
  }

  /** At most one plan was submitted, and it was unless the process stopped. */
  predicate AskedOnce(after: set<(nat, nat)>, before: set<(nat, nat)>, id: nat, asked: Option<nat>, stopped: bool) {
    before <= after <= before + Due(id, asked) && (!stopped ==> after == before + Due(id, asked))
  }

  function NewPart(parent: nat, value: u64, childValues: seq<u64>, q: Replies): Part
    requires q.drafted.Ok?
  {
    Part(Operation(parent, value, childValues, q.drafted.value, Draft, []), Some(q.keys))
  }

  predicate HasSplit(operations: map<nat, Operation>, parent: nat) {
    exists o :: o in operations && operations[o].parent == parent
  }

  predicate OtherSplit(o: Operation, parent: nat, value: u64, childValues: seq<u64>) {
    o.parent == parent && (o.parentValue != value || o.childValues != childValues)
  }

  /** The parent's one split is complete with a child for every value. */
  ghost predicate SplitDone(operations: map<nat, Operation>, parent: nat, value: u64, childValues: seq<u64>) {
    exists id ::
      id in operations && operations[id].parent == parent && operations[id].parentValue == value
      && operations[id].childValues == childValues && operations[id].status == Completed
      && |operations[id].childIds| == |childValues|
  }
}
