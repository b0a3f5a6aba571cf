/** Persisted leaf splits as a run of commits and operator calls (src/db.rs,
    src/spark.rs): one split per parent, one submitted plan, and, exactly as long
    as the SDK binds with care, the first stored keys waiting or held in order. */
module SplitRun {
  import opened Basics

  datatype Status = Draft | Prepared | Submitting | Submitted | Completed

  function Rank(s: Status): nat {
    match s
    case Draft => 0
    case Prepared => 1
    case Submitting => 2
    case Submitted => 3
    case Completed => 4
  }

  /** `plan` names the opaque stage that the SDK resumes from. */
  datatype Operation = Operation(parent: nat, parentValue: u64, childValues: seq<u64>, plan: nat,
                                 status: Status, childIds: seq<nat>)

  datatype PendingKeys = PendingKeys(parent: nat, keys: seq<nat>)

  datatype Override = Override(operation: nat, key: nat)

  /** Node ids and encrypted keys are numbers; this one is the empty string. */
  const EMPTY: nat := 0

  /** The three tables; then the keys first stored for each operation, the ids
      ever retired, and every plan submitted to the operators. */
  datatype State = State(
    operations: map<nat, Operation>,
    pending: map<nat, PendingKeys>,
    overrides: map<nat, Override>,
    first: map<nat, seq<nat>>,
    retired: set<nat>,
    submits: set<(nat, nat)>)

  datatype Action =
    | Insert(id: nat, operation: Operation)
    | PutKeys(id: nat, parent: nat, keys: seq<nat>)
    | SavePrepared(id: nat, plan: nat)
    | MarkSubmitting(id: nat)
    | CallSubmit(id: nat)
    | SaveSubmitted(id: nat, response: nat)
    | BindKeys(id: nat, ids: seq<nat>)
    | MarkCompleted(id: nat)
    | Retire(ids: seq<nat>)

  const INITIAL := State(map[], map[], map[], map[], {}, {})

  predicate Distinct(ids: seq<nat>) {
    forall i, j :: 0 <= i < j < |ids| ==> ids[i] != ids[j]
  }

  predicate Filled(items: seq<nat>) {
    items != [] && EMPTY !in items
  }

  // ---- Key custody ----

  /** One upsert per position. */
  function BindAll(rows: map<nat, Override>, op: nat, ids: seq<nat>, keys: seq<nat>): map<nat, Override>
    requires |ids| == |keys|
  {
    if ids == [] then rows
    else BindAll(rows, op, ids[..|ids| - 1], keys[..|keys| - 1])[ids[|ids| - 1] := Override(op, keys[|keys| - 1])]
  }

  predicate InOrder(rows: map<nat, Override>, op: nat, ids: seq<nat>, keys: seq<nat>)
    requires |ids| == |keys|
  {
    forall i :: 0 <= i < |ids| ==> ids[i] in rows && rows[ids[i]] == Override(op, keys[i])
  }

  lemma {:induction false} BindAllFrame(rows: map<nat, Override>, op: nat, ids: seq<nat>, keys: seq<nat>, id: nat)
    requires |ids| == |keys|
    ensures id !in ids ==> (id in BindAll(rows, op, ids, keys) <==> id in rows)
    ensures id !in ids && id in rows ==> BindAll(rows, op, ids, keys)[id] == rows[id]
    ensures id in ids ==> id in BindAll(rows, op, ids, keys) && BindAll(rows, op, ids, keys)[id].operation == op
  {
    if ids != [] {
      BindAllFrame(rows, op, ids[..|ids| - 1], keys[..|keys| - 1], id);
    }
  }

  lemma {:induction false} BindAllInOrder(rows: map<nat, Override>, op: nat, ids: seq<nat>, keys: seq<nat>)
    requires |ids| == |keys| && Distinct(ids)
    ensures InOrder(BindAll(rows, op, ids, keys), op, ids, keys)
  {
    if ids != [] {
      BindAllInOrder(rows, op, ids[..|ids| - 1], keys[..|keys| - 1]);
      forall i | 0 <= i < |ids| - 1
        ensures ids[i] in BindAll(rows, op, ids, keys) && BindAll(rows, op, ids, keys)[ids[i]] == Override(op, keys[i])
      {
        assert ids[..|ids| - 1][i] == ids[i] != ids[|ids| - 1];
      }
    }
  }

  /** Distinct keys reach their own children exactly when the operators gave
      the children distinct ids: a repeated id silently drops a key. */
  lemma BoundInOrderIffDistinct(rows: map<nat, Override>, op: nat, ids: seq<nat>, keys: seq<nat>)
    requires |ids| == |keys| && Distinct(keys)
    ensures InOrder(BindAll(rows, op, ids, keys), op, ids, keys) <==> Distinct(ids)
  {
    if Distinct(ids) {
      BindAllInOrder(rows, op, ids, keys);
    }
  }

  // ---- Steps ----

  /** The primary key and the unique parent column. */
  predicate Fits(s: State, id: nat, parent: nat) {
    id !in s.operations && forall o :: o in s.operations ==> s.operations[o].parent != parent
  }

  /** No children are bound to the split yet. */
  predicate Unbound(s: State, id: nat) {
    id in s.operations ==> s.operations[id].childIds == []
  }

  predicate Enabled(s: State, a: Action) {
    match a {
      case Insert(id, o) => Fits(s, id, o.parent) && o.status == Draft && o.childIds == []
      case PutKeys(id, parent, keys) => Filled(keys) && id !in s.pending
      case SavePrepared(id, plan) => id in s.operations && Rank(s.operations[id].status) <= Rank(Prepared)
      case MarkSubmitting(id) => id in s.operations && s.operations[id].status == Prepared
      case CallSubmit(id) => id in s.operations && s.operations[id].status == Submitting
      case SaveSubmitted(id, response) =>
        id in s.operations && (s.operations[id].status == Submitting || s.operations[id].status == Submitted)
      case BindKeys(id, ids) =>
        && id in s.operations && id in s.pending
        && Filled(ids) && |ids| == |s.operations[id].childValues| == |s.pending[id].keys|
      case MarkCompleted(id) =>
        && id in s.operations && s.operations[id].childIds != []
        && (s.operations[id].status == Submitted || s.operations[id].status == Completed)
      case Retire(ids) => true
    }
  }

  function Apply(s: State, a: Action): State
    requires Enabled(s, a)
  {
    match a {
      case Insert(id, o) => s.(operations := s.operations[id := o])
      case PutKeys(id, parent, keys) => s.(pending := s.pending[id := PendingKeys(parent, keys)],
                                           first := if id in s.first then s.first else s.first[id := keys])
      case SavePrepared(id, plan) =>
        s.(operations := s.operations[id := s.operations[id].(plan := plan, status := Prepared)])
      case MarkSubmitting(id) => s.(operations := s.operations[id := s.operations[id].(status := Submitting)])
      case CallSubmit(id) => s.(submits := s.submits + {(id, s.operations[id].plan)})
      case SaveSubmitted(id, response) =>
        s.(operations := s.operations[id := s.operations[id].(plan := response, status := Submitted)])
      case BindKeys(id, ids) => s.(operations := s.operations[id := s.operations[id].(childIds := ids)],
                                   overrides := BindAll(s.overrides, id, ids, s.pending[id].keys),
                                   pending := s.pending - {id})
      case MarkCompleted(id) => s.(operations := s.operations[id := s.operations[id].(status := Completed)])
      case Retire(ids) => s.(overrides := s.overrides - Members(ids), retired := s.retired + Members(ids))
    }
  }

  function Members(ids: seq<nat>): set<nat> {
    set id | id in ids
  }

  // ---- What holds in every state ----

  ghost predicate OneSplitPerParent(s: State) {
    forall a, b :: a in s.operations && b in s.operations && a != b ==> s.operations[a].parent != s.operations[b].parent
  }

  /** The first stored keys wait whole while the split has no children; after
      that each of them is held for the child at its position, unless that child
      was retired. */
  ghost predicate Held(s: State, id: nat) {
    id in s.first ==>
      if Unbound(s, id) then id in s.pending && s.pending[id].keys == s.first[id]
      else HeldInOrder(s.overrides, id, s.operations[id].childIds, s.first[id])
  }

  predicate HeldInOrder(rows: map<nat, Override>, id: nat, ids: seq<nat>, keys: seq<nat>) {
    && |ids| == |keys|
    && forall i :: 0 <= i < |ids| ==> ids[i] in rows ==> rows[ids[i]] == Override(id, keys[i])
  }

  ghost predicate AllHeld(s: State) {
    forall id: nat :: Held(s, id)
  }

  /** Keys wait only under an id whose first keys are known, and a child without
      an override was retired. */
  ghost predicate Accounted(s: State, id: nat) {
    && (id in s.pending ==> id in s.first && s.pending[id].keys != [])
    && (id in s.operations ==>
          && (s.operations[id].childIds != [] ==> id in s.first)
          && forall i :: 0 <= i < |s.operations[id].childIds| ==>
               s.operations[id].childIds[i] in s.overrides || s.operations[id].childIds[i] in s.retired)
  }

  ghost predicate OperationSound(s: State, id: nat)
    requires id in s.operations
  {
    var o := s.operations[id];
    && (o.childIds != [] ==> |o.childIds| == |o.childValues|)
    && (o.status == Completed ==> o.childIds != [])
  }

  /** The operators were asked with one plan, the one stored when asking. */
  ghost predicate OnePlan(s: State) {
    && (forall id, p :: (id, p) in s.submits ==>
          id in s.operations && Rank(s.operations[id].status) >= Rank(Submitting))
    && (forall id, p :: (id, p) in s.submits && s.operations[id].status == Submitting ==> s.operations[id].plan == p)
    && (forall id, p, q :: (id, p) in s.submits && (id, q) in s.submits ==> p == q)
  }

  ghost predicate Inv(s: State) {
    && OneSplitPerParent(s) && OnePlan(s)
    && (forall id: nat :: Accounted(s, id))
    && (forall id :: id in s.operations ==> OperationSound(s, id))
  }

  lemma StepKeepsAccounts(s: State, a: Action, id: nat)
    requires Inv(s) && Enabled(s, a)
    ensures Accounted(Apply(s, a), id)
  {
    hide OnePlan, OneSplitPerParent, OperationSound;
    assert Accounted(s, id);
    if a.BindKeys? {
      assert Accounted(s, a.id);
      var t := Apply(s, a);
      forall x: nat ensures x in a.ids || x in s.overrides ==> x in t.overrides {
        BindAllFrame(s.overrides, a.id, a.ids, s.pending[a.id].keys, x);
      }
    }
  }

  lemma StepKeepsOneSplit(s: State, a: Action)
    requires OneSplitPerParent(s) && Enabled(s, a)
    ensures OneSplitPerParent(Apply(s, a))
  {
    hide BindAll, Unbound;
  }

  lemma StepKeepsOnePlan(s: State, a: Action)
    requires OnePlan(s) && Enabled(s, a)
    ensures OnePlan(Apply(s, a))
  {
    hide BindAll, Unbound, Members;
  }

  lemma StepKeepsSound(s: State, a: Action, id: nat)
    requires Inv(s) && Enabled(s, a) && id in Apply(s, a).operations
    ensures OperationSound(Apply(s, a), id)
  {
    hide Accounted, BindAll, OnePlan, OneSplitPerParent;
    if id in s.operations {
      assert OperationSound(s, id);
    }
  }

  lemma StepKeepsInv(s: State, a: Action)
    requires Inv(s) && Enabled(s, a)
    ensures Inv(Apply(s, a))
  {
    hide Accounted, OneSplitPerParent, OnePlan, OperationSound, Enabled, Apply;
    StepKeepsOneSplit(s, a);
    StepKeepsOnePlan(s, a);
    forall id: nat ensures Accounted(Apply(s, a), id) {
      StepKeepsAccounts(s, a, id);
    }
    forall id | id in Apply(s, a).operations ensures OperationSound(Apply(s, a), id) {
      StepKeepsSound(s, a, id);
    }
  }

  // ---- Runs ----

  /** Every action of the run was allowed where it happened. */
  ghost predicate Legal(run: seq<Action>)
    decreases |run|, 0
  {
    run == [] || (Legal(run[..|run| - 1]) && Enabled(After(run[..|run| - 1]), run[|run| - 1]))
  }

  ghost function After(run: seq<Action>): State
    requires Legal(run)
    decreases |run|, 1
  {
    if run == [] then INITIAL else Apply(After(run[..|run| - 1]), run[|run| - 1])
  }

  lemma Extend(run: seq<Action>, a: Action)
    requires Legal(run) && Enabled(After(run), a)
    ensures Legal(run + [a]) && After(run + [a]) == Apply(After(run), a)
  {
    hide Apply, Enabled;
    assert (run + [a])[..|run|] == run;
  }

  /** In every reachable state, whatever the key store is asked: a parent has one
      split, a completed split has its child ids, every submission of a split
      carried one plan, and a child without its key was retired. */
  lemma {:induction false} EveryRunKeepsInv(run: seq<Action>)
    requires Legal(run)
    ensures Inv(After(run))
    decreases |run|
  {
    hide Apply, Enabled;
    if run != [] {
      EveryRunKeepsInv(run[..|run| - 1]);
      StepKeepsInv(After(run[..|run| - 1]), run[|run| - 1]);
    }
  }

  /** How one split changes over time: its identity is fixed, its status never
      falls, and it never loses its children. */
  predicate OperationEvolves(o: Operation, p: Operation) {
    && p == o.(plan := p.plan, status := p.status, childIds := p.childIds)
    && Rank(o.status) <= Rank(p.status)
    && (o.childIds != [] ==> p.childIds != [])
    && (o.status == Completed ==> p.plan == o.plan)
  }

  ghost predicate Evolves(s: State, t: State) {
    && (forall id :: id in s.operations ==> id in t.operations && OperationEvolves(s.operations[id], t.operations[id]))
    && (forall id :: id in s.first ==> id in t.first && t.first[id] == s.first[id])
    && s.submits <= t.submits && s.retired <= t.retired
  }

  lemma StepEvolves(s: State, a: Action)
    requires Inv(s) && Enabled(s, a)
    ensures Evolves(s, Apply(s, a))
  {
    hide BindAll, OnePlan, OneSplitPerParent, Accounted;
  }

  lemma EvolvesThrough(s: State, t: State, u: State)
    requires Evolves(s, t) && Evolves(t, u)
    ensures Evolves(s, u)
  {
    forall id | id in s.operations ensures id in u.operations && OperationEvolves(s.operations[id], u.operations[id]) {
      assert id in t.operations && OperationEvolves(s.operations[id], t.operations[id]);
      assert OperationEvolves(t.operations[id], u.operations[id]);
    }
  }

  /** Whatever follows a legal run, its splits only evolve. */
  lemma {:induction false} EveryRunEvolves(run: seq<Action>, more: seq<Action>)
    requires Legal(run + more)
    ensures Legal(run) && Evolves(After(run), After(run + more))
    decreases |more|
  {
    hide Apply, Enabled;
    if more == [] {
      assert run + more == run;
    } else {
      var front := more[..|more| - 1];
      assert (run + more)[..|run + more| - 1] == run + front;
      EveryRunEvolves(run, front);
      EveryRunKeepsInv(run + front);
      StepEvolves(After(run + front), more[|more| - 1]);
      EvolvesThrough(After(run), After(run + front), After(run + more));
    }
  }

  // ---- When the first keys stay held ----

  /** A binding that the key store accepts but that may lose a key is one of
      other keys than the first, of a repeated child, or over a child of another
      split. */
  predicate CarefulBind(s: State, id: nat, ids: seq<nat>) {
    && id in s.pending && id in s.first && s.pending[id].keys == s.first[id] && Distinct(ids)
    && forall o :: o in s.operations && o != id && o in s.first ==>
         forall x :: x in s.operations[o].childIds ==> x !in ids
  }

  ghost predicate Careful(s: State, a: Action) {
    a.BindKeys? ==> CarefulBind(s, a.id, a.ids)
  }

  /** Only a binding can end the custody of a key: putting keys, even over a
      bound split, and retiring children leave every first key where it is. */
  lemma OtherStepsHold(s: State, a: Action, id: nat)
    requires Inv(s) && Enabled(s, a) && !a.BindKeys? && Held(s, id)
    ensures Held(Apply(s, a), id)
  {
    hide OnePlan, OneSplitPerParent, OperationSound;
    assert Accounted(s, id);
  }

  lemma CarefulBindHolds(s: State, id: nat, ids: seq<nat>, o: nat)
    requires Inv(s) && Enabled(s, BindKeys(id, ids)) && AllHeld(s) && CarefulBind(s, id, ids)
    ensures Held(Apply(s, BindKeys(id, ids)), o)
  {
    hide OnePlan, OneSplitPerParent, OperationSound;
    assert Held(s, o);
    if o == id {
      BindAllInOrder(s.overrides, id, ids, s.pending[id].keys);
    } else if o in s.first && !Unbound(s, o) {
      var held := s.operations[o].childIds;
      forall i | 0 <= i < |held| ensures held[i] !in ids {
        assert held[i] in held;
      }
      forall i | 0 <= i < |held| && held[i] in Apply(s, BindKeys(id, ids)).overrides
        ensures Apply(s, BindKeys(id, ids)).overrides[held[i]] == Override(o, s.first[o][i])
      {
        BindAllFrame(s.overrides, id, ids, s.pending[id].keys, held[i]);
      }
    }
  }

  /** Distinct first keys are held after the binding only if it bound them, each
      to its own child. */
  lemma HeldBindWasFirst(s: State, id: nat, ids: seq<nat>)
    requires Inv(s) && Enabled(s, BindKeys(id, ids)) && id in s.first && Distinct(s.first[id])
    requires Held(Apply(s, BindKeys(id, ids)), id)
    ensures s.pending[id].keys == s.first[id] && Distinct(ids)
  {
    hide OnePlan, OneSplitPerParent, OperationSound, Accounted;
    var keys, first := s.pending[id].keys, s.first[id];
    var rows := BindAll(s.overrides, id, ids, keys);
    forall i | 0 <= i < |ids| ensures ids[i] in rows && rows[ids[i]] == Override(id, first[i]) {
      BindAllFrame(s.overrides, id, ids, keys, ids[i]);
    }
    forall i, j | 0 <= i < j < |ids| ensures ids[i] != ids[j] {
      assert rows[ids[i]].key == first[i] != first[j] == rows[ids[j]].key;
    }
    BindAllInOrder(s.overrides, id, ids, keys);
    forall i | 0 <= i < |ids| ensures keys[i] == first[i] {
      assert rows[ids[i]] == Override(id, keys[i]);
    }
  }

  /** And the keys of every other split only if it bound over none of its children. */
  lemma HeldBindSparedOthers(s: State, id: nat, ids: seq<nat>, o: nat, x: nat)
    requires Inv(s) && Enabled(s, BindKeys(id, ids)) && o in s.operations && o != id && o in s.first
    requires x in s.operations[o].childIds && Held(Apply(s, BindKeys(id, ids)), o)
    ensures x !in ids
  {
    hide OnePlan, OneSplitPerParent, OperationSound, Accounted;
    BindAllFrame(s.overrides, id, ids, s.pending[id].keys, x);
  }

  /** A step keeps all first keys in custody if and only if it is no careless
      binding. The keys of the split are distinct, as fresh secrets are. */
  lemma HeldIffCareful(s: State, a: Action)
    requires Inv(s) && AllHeld(s) && Enabled(s, a)
    requires a.BindKeys? && a.id in s.first ==> Distinct(s.first[a.id])
    ensures AllHeld(Apply(s, a)) <==> Careful(s, a)
  {
    hide Held, Inv, Apply;
    if !a.BindKeys? {
      forall id: nat ensures Held(Apply(s, a), id) {
        assert Held(s, id);
        OtherStepsHold(s, a, id);
      }
    } else if CarefulBind(s, a.id, a.ids) {
      forall id: nat ensures Held(Apply(s, a), id) {
        CarefulBindHolds(s, a.id, a.ids, id);
      }
    } else if AllHeld(Apply(s, a)) {
      assert Held(Apply(s, a), a.id);
      PendingHasFirst(s, a.id);
      HeldBindWasFirst(s, a.id, a.ids);
      forall o, x | o in s.operations && o != a.id && o in s.first && x in s.operations[o].childIds
        ensures x !in a.ids
      {
        assert Held(Apply(s, a), o);
        HeldBindSparedOthers(s, a.id, a.ids, o, x);
      }
      assert false;
    }
  }

  lemma PendingHasFirst(s: State, id: nat)
    requires Inv(s) && id in s.pending
    ensures id in s.first
  {
    assert Accounted(s, id);
  }

  /** Every binding of the run was careful where it happened. */
  ghost predicate CarefulRun(run: seq<Action>)
    requires Legal(run)
    decreases |run|
  {
    run == [] || (CarefulRun(run[..|run| - 1]) && Careful(After(run[..|run| - 1]), run[|run| - 1]))
  }

  /** Whatever puts, retirements and restarts a run has, its first keys are all
      in custody as long as its bindings were careful. */
  lemma {:induction false} CarefulRunsHold(run: seq<Action>)
    requires Legal(run) && CarefulRun(run)
    ensures AllHeld(After(run))
    decreases |run|
  {
    hide Held, Apply, Enabled, Inv;
    if run == [] {
      NothingStored();
    } else {
      var front, last := run[..|run| - 1], run[|run| - 1];
      CarefulRunsHold(front);
      EveryRunKeepsInv(front);
      forall id: nat ensures Held(Apply(After(front), last), id) {
        assert Held(After(front), id);
        if last.BindKeys? {
          CarefulBindHolds(After(front), last.id, last.ids, id);
        } else {
          OtherStepsHold(After(front), last, id);
        }
      }
    }
  }

  lemma NothingStored()
    ensures AllHeld(INITIAL)
  {
  }

  /** A second put over a bound split, bound in turn to new children: the first
      keys stay held if and only if the put repeated them. */
  lemma PutThenBindHoldsIff(run: seq<Action>, id: nat, parent: nat, keys: seq<nat>, ids: seq<nat>)
    requires Legal(run) && CarefulRun(run)
    requires id in After(run).first && Distinct(After(run).first[id])
    requires Legal(run + [PutKeys(id, parent, keys)] + [BindKeys(id, ids)]) && Distinct(ids)
    requires forall o :: o in After(run).operations && o != id ==>
      forall x :: x in After(run).operations[o].childIds ==> x !in ids
    ensures AllHeld(After(run + [PutKeys(id, parent, keys)] + [BindKeys(id, ids)])) <==> keys == After(run).first[id]
  {
    hide Held, Inv, Legal, After;
    var s, put, bind := After(run), PutKeys(id, parent, keys), BindKeys(id, ids);
    LastStep(run + [put], bind);
    LastStep(run, put);
    EveryRunKeepsInv(run);
    CarefulRunsHold(run);
    HeldIffCareful(s, put);
    EveryRunKeepsInv(run + [put]);
    HeldIffCareful(Apply(s, put), bind);
  }

  lemma LastStep(run: seq<Action>, a: Action)
    requires Legal(run + [a])
    ensures Legal(run) && Enabled(After(run), a) && After(run + [a]) == Apply(After(run), a)
  {
    hide Apply, Enabled;
    assert (run + [a])[..|run|] == run;
  }

  /** A split of 5 into 2 and 3 whose keys 1 and 2 were bound to the children 10
      and 11; then other keys are put and bound to the same children. */
  function LosingRun(): seq<Action> {
    [PutKeys(7, 4, [1, 2])] + [Insert(7, Operation(4, 5, [2, 3], 0, Draft, []))] + [BindKeys(7, [10, 11])]
    + [PutKeys(7, 4, [8, 9])] + [BindKeys(7, [10, 11])]
  }

  /** The key store accepts all of it, and afterwards key 1 is stored nowhere. */
  lemma KeyCanBeLost()
    ensures Legal(LosingRun()) && After(LosingRun()).first == map[7 := [1, 2]]
    ensures forall x :: x in After(LosingRun()).overrides ==> After(LosingRun()).overrides[x].key != 1
    ensures forall id :: id in After(LosingRun()).pending ==> 1 !in After(LosingRun()).pending[id].keys
  {
    hide Legal, After;
    var put, bind := PutKeys(7, 4, [1, 2]), BindKeys(7, [10, 11]);
    var insert := Insert(7, Operation(4, 5, [2, 3], 0, Draft, []));
    NoSteps();
    Extend([], put);
    assert [] + [put] == [put];
    Extend([put], insert);
    Extend([put] + [insert], bind);
    Extend([put] + [insert] + [bind], PutKeys(7, 4, [8, 9]));
    Extend([put] + [insert] + [bind] + [PutKeys(7, 4, [8, 9])], bind);
    var rows := BindAll(map[], 7, [10, 11], [1, 2]);
    BindAllInOrder(rows, 7, [10, 11], [8, 9]);
    forall x | x in After(LosingRun()).overrides ensures After(LosingRun()).overrides[x].key != 1 {
      BindAllFrame(map[], 7, [10, 11], [1, 2], x);
      BindAllFrame(rows, 7, [10, 11], [8, 9], x);
    }
  }

  lemma NoSteps()
    ensures Legal([]) && After([]) == INITIAL
  {
  }

  // ---- How the SDK uses the store ----

  /** The operators name new children. */
  predicate FreshIds(operations: map<nat, Operation>, ids: seq<nat>) {
    Distinct(ids) && forall o :: o in operations ==> forall x :: x in operations[o].childIds ==> x !in ids
  }

  /** The SDK stores keys before the split has children, and binds new children. */
  ghost predicate Disciplined(s: State, a: Action) {
    && (a.PutKeys? ==> Unbound(s, a.id))
    && (a.BindKeys? ==> FreshIds(s.operations, a.ids))
  }

  ghost predicate DisciplinedRun(run: seq<Action>)
    requires Legal(run)
    decreases |run|
  {
    run == [] || (DisciplinedRun(run[..|run| - 1]) && Disciplined(After(run[..|run| - 1]), run[|run| - 1]))
  }

  /** No keys wait for a split that has its children. */
  ghost predicate NoLatePuts(s: State) {
    forall id :: id in s.pending ==> Unbound(s, id)
  }

  lemma DisciplinedStep(s: State, a: Action)
    requires Inv(s) && AllHeld(s) && NoLatePuts(s) && Enabled(s, a) && Disciplined(s, a)
    ensures NoLatePuts(Apply(s, a)) && Careful(s, a)
    ensures forall id :: id in s.operations && s.operations[id].childIds != [] ==>
      id in Apply(s, a).operations && Apply(s, a).operations[id].childIds == s.operations[id].childIds
  {
    hide OnePlan, OneSplitPerParent, OperationSound, BindAll;
    if a.BindKeys? {
      assert Held(s, a.id) && Accounted(s, a.id);
    }
  }

  /** Used like that, every binding is careful, so all first keys are in custody. */
  lemma {:induction false} DisciplinedRunsAreCareful(run: seq<Action>)
    requires Legal(run) && DisciplinedRun(run)
    ensures CarefulRun(run) && AllHeld(After(run)) && NoLatePuts(After(run))
    decreases |run|
  {
    hide Held, Apply, Enabled, Inv;
    if run == [] {
      NothingStored();
    } else {
      var front, last := run[..|run| - 1], run[|run| - 1];
      DisciplinedRunsAreCareful(front);
      EveryRunKeepsInv(front);
      DisciplinedStep(After(front), last);
      CarefulRunsHold(run);
    }
  }

  /** And the children of a split are chosen once. */
  lemma {:induction false} ChildrenAreChosenOnce(run: seq<Action>, more: seq<Action>, id: nat)
    requires Legal(run + more) && DisciplinedRun(run + more)
    requires Legal(run) && id in After(run).operations && After(run).operations[id].childIds != []
    ensures id in After(run + more).operations
    ensures After(run + more).operations[id].childIds == After(run).operations[id].childIds
    decreases |more|
  {
    hide Held, Apply, Enabled, Inv;
    if more == [] {
      assert run + more == run;
    } else {
      var front, last := more[..|more| - 1], more[|more| - 1];
      assert (run + more)[..|run + more| - 1] == run + front;
      ChildrenAreChosenOnce(run, front, id);
      DisciplinedRunsAreCareful(run + front);
      EveryRunKeepsInv(run + front);
      DisciplinedStep(After(run + front), last);
    }
  }
}
