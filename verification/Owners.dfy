/** The owners of shared states: promises and packaged tasks, over any sequence of
    construction, moves, assignments, completions, calls and destructions, together with
    the futures they hand out. */
module Owners {
  import opened Outcomes
  import opened StoredResults

  datatype Kind = PlainPromise | CancellablePromise | PackagedTask

  /** A shared state: the strong count, the storage, the function of a packaged task, and
      as history how often its function was started, its storage written, whether an owner
      abandoned it, and how often its cancel action ran. */
  datatype St = St(kind: Kind, strong: nat, stored: Stored, executed: bool, func: bool,
                   calls: nat, writes: nat, abandoned: bool, cancels: nat)

  /** The `either` inside a promise or packaged task. */
  datatype Owner = Vacant | Strong(id: nat) | Weak(id: nat)

  datatype Reply = Ok | NoState | AlreadyRetrieved | AlreadySatisfied

  /** `handles` counts the futures held on each state. */
  datatype World = World(states: seq<St>, owners: seq<Owner>, handles: seq<nat>)

  datatype Op =
    | Construct(kind: Kind)
    | MakePromise(cancellable: bool)
    | GetFuture(o: nat)
    | Set(o: nat, value: Stored)
    | Call(o: nat, result: Stored)
    | Move(src: nat)
    | Assign(dst: nat, src: nat)
    | Destroy(o: nat)
    | CopyFuture(id: nat)
    | DropFuture(id: nat)
    | InnerReady(id: nat)

  function NewState(kind: Kind): St {
    St(kind, 1, Empty, false, kind.PackagedTask?, 0, 0, false, 0)
  }

  // What happens to one state

  function Completed(st: St, x: Stored): St {
    st.(stored := x, executed := !x.HasInner?, writes := st.writes + 1)
  }

  /** shared_state::abandon. */
  function Abandoned(st: St): St {
    if !st.executed && st.stored.Empty? then Completed(st, HasError(BrokenPromise)).(abandoned := true) else st
  }

  /** One strong reference goes; with the last one the state dies, and a cancellable state
      that was never executed calls its cancel action. */
  function Released(st: St): St
    requires st.strong > 0
  {
    var st' := st.(strong := st.strong - 1);
    if st'.strong == 0 && st.kind.CancellablePromise? && !st.executed then st'.(cancels := st.cancels + 1) else st'
  }

  /** What the destructor of an owner, or an assignment to it, does to the state: a promise
      abandons only what a future may still see, a packaged task abandons whatever it can
      lock and drops its function; a strong owner then gives up its reference. */
  function Forsaken(st: St, owner: Owner): St
    requires owner.Strong? ==> st.strong > 0
  {
    if st.strong == 0 then st
    else if st.kind.PackagedTask? then
      var a := Abandoned(st.(func := false));
      if owner.Strong? then Released(a) else a
    else if owner.Strong? then Released(st)
    else Abandoned(st)
  }

  /** set_value/set_exception through a locked pointer. */
  function SetOn(st: St, x: Stored): (St, Reply) {
    if st.strong == 0 then (st, Ok)
    else if !st.stored.Empty? then (st, AlreadySatisfied)
    else (Completed(st, x), Ok)
  }

  /** task_state::run: the function is gone afterwards, whatever it did. */
  function CallOn(st: St, x: Stored): (St, Reply) {
    if st.strong == 0 then (st, Ok)
    else if !st.func then (st, AlreadySatisfied)
    else (Completed(st.(func := false, calls := st.calls + 1), x), Ok)
  }

  // The machine

  predicate Mentions(owner: Owner, id: nat) { owner == Strong(id) || owner == Weak(id) }

  predicate Owned(w: World, id: nat) { Strong(id) in w.owners || Weak(id) in w.owners }

  predicate Fits(w: World, o: nat) {
    && o < |w.owners|
    && (!w.owners[o].Vacant? ==>
          w.owners[o].id < |w.states| && (w.owners[o].Strong? ==> w.states[w.owners[o].id].strong > 0))
  }

  predicate Enabled(w: World, op: Op) {
    && |w.handles| == |w.states|
    && match op
       case Construct(_) => true
       case MakePromise(_) => true
       case GetFuture(o) => Fits(w, o)
       case Set(o, value) =>
         Fits(w, o) && (value.HasValue? || value.HasError?)
         && (!w.owners[o].Vacant? ==> !w.states[w.owners[o].id].kind.PackagedTask?)
       case Call(o, result) =>
         Fits(w, o) && !result.Empty?
         && (!w.owners[o].Vacant? ==> w.states[w.owners[o].id].kind.PackagedTask?)
       case Move(src) => src < |w.owners|
       case Assign(dst, src) => Fits(w, dst) && src < |w.owners| && dst != src
       case Destroy(o) => Fits(w, o)
       case CopyFuture(id) => id < |w.states| && w.handles[id] > 0
       case DropFuture(id) => id < |w.states| && w.handles[id] > 0 && w.states[id].strong > 0
       case InnerReady(id) => id < |w.states| && w.states[id].strong > 0 && w.states[id].stored.HasInner?
  }

  function Put(w: World, id: nat, st: St): World
    requires id < |w.states|
  {
    w.(states := w.states[id := st])
  }

  /** Owner o lets its state go; its slot is overwritten by the caller. */
  function Forsake(w: World, o: nat): World
    requires Fits(w, o)
  {
    if w.owners[o].Vacant? then w
    else Put(w, w.owners[o].id, Forsaken(w.states[w.owners[o].id], w.owners[o]))
  }

  function Apply(w: World, op: Op): World
    requires Enabled(w, op)
  {
    match op
    case Construct(kind) =>
      World(w.states + [NewState(kind)], w.owners + [Strong(|w.states|)], w.handles + [0])
    case MakePromise(cancellable) =>
      World(w.states + [NewState(if cancellable then CancellablePromise else PlainPromise)],
            w.owners + [Weak(|w.states|)], w.handles + [1])
    case GetFuture(o) =>
      if !w.owners[o].Strong? then w
      else
        var id := w.owners[o].id;
        w.(owners := w.owners[o := Weak(id)], handles := w.handles[id := w.handles[id] + 1])
    case Set(o, value) =>
      if w.owners[o].Vacant? then w else Put(w, w.owners[o].id, SetOn(w.states[w.owners[o].id], value).0)
    case Call(o, result) =>
      if w.owners[o].Vacant? then w else Put(w, w.owners[o].id, CallOn(w.states[w.owners[o].id], result).0)
    case Move(src) => w.(owners := w.owners[src := Vacant] + [w.owners[src]])
    case Assign(dst, src) => Forsake(w, dst).(owners := w.owners[dst := w.owners[src]][src := Vacant])
    case Destroy(o) => Forsake(w, o).(owners := w.owners[o := Vacant])
    case CopyFuture(id) =>
      Put(w, id, w.states[id].(strong := w.states[id].strong + 1)).(handles := w.handles[id := w.handles[id] + 1])
    case DropFuture(id) =>
      Put(w, id, Released(w.states[id])).(handles := w.handles[id := w.handles[id] - 1])
    case InnerReady(id) => Put(w, id, w.states[id].(executed := true))
  }

  /** What the caller gets to see. */
  function Answer(w: World, op: Op): Reply
    requires Enabled(w, op)
  {
    match op
    case GetFuture(o) =>
      (match w.owners[o] case Vacant => NoState case Weak(_) => AlreadyRetrieved case Strong(_) => Ok)
    case Set(o, value) => if w.owners[o].Vacant? then NoState else SetOn(w.states[w.owners[o].id], value).1
    case Call(o, result) => if w.owners[o].Vacant? then NoState else CallOn(w.states[w.owners[o].id], result).1
    case _ => Ok
  }

  function Run(w: World, ops: seq<Op>): World
    decreases |ops|
  {
    if ops == [] then w
    else Run(if Enabled(w, ops[0]) then Apply(w, ops[0]) else w, ops[1..])
  }

  const NOTHING := World([], [], [])

  // The invariant

  predicate StOk(w: World, id: nat)
    requires id < |w.states| == |w.handles|
  {
    var st := w.states[id];
    && st.strong == (if Strong(id) in w.owners then 1 else w.handles[id])
    && (Strong(id) in w.owners ==> w.handles[id] == 0)
    && st.calls <= st.writes <= 1
    && (st.stored.Empty? <==> st.writes == 0)
    && (st.executed ==> st.writes == 1)
    && (!st.executed && st.writes == 1 ==> st.stored.HasInner?)
    && (st.stored.HasInner? || st.calls == 1 ==> st.kind.PackagedTask?)
    && (st.kind.PackagedTask? && st.strong > 0 ==> (st.func <==> st.writes == 0))
    && (st.abandoned ==> st.stored == HasError(BrokenPromise) && st.calls == 0 && !Owned(w, id))
    && (st.strong > 0 && st.stored.Empty? ==> Owned(w, id))
    && st.cancels == (if st.strong == 0 && st.kind.CancellablePromise? && !st.executed then 1 else 0)
  }

  predicate Single(w: World) {
    forall i, j | 0 <= i < j < |w.owners| && !w.owners[i].Vacant? && !w.owners[j].Vacant? ::
      w.owners[i].id != w.owners[j].id
  }

  predicate Inv(w: World) {
    && |w.handles| == |w.states|
    && (forall i | 0 <= i < |w.owners| && !w.owners[i].Vacant? :: w.owners[i].id < |w.states|)
    && Single(w)
    && forall id | 0 <= id < |w.states| :: StOk(w, id)
  }

  /** Replacing the owner in one slot changes who is owned by that slot alone. */
  lemma OwnersAfter(w: World, o: nat, x: Owner, id: nat)
    requires Inv(w) && o < |w.owners|
    ensures var os := w.owners[o := x];
            && (Strong(id) in os <==> x == Strong(id) || (w.owners[o] != Strong(id) && Strong(id) in w.owners))
            && (Weak(id) in os <==> x == Weak(id) || (w.owners[o] != Weak(id) && Weak(id) in w.owners))
  {
    var os := w.owners[o := x];
    assert os[o] == x;
    forall y | y == Strong(id) || y == Weak(id)
      ensures y in os <==> x == y || (w.owners[o] != y && y in w.owners)
    {
      if y in w.owners {
        var i :| 0 <= i < |w.owners| && w.owners[i] == y;
        assert i != o ==> os[i] == y;
      }
      if y in os {
        var i :| 0 <= i < |os| && os[i] == y;
        assert i != o ==> w.owners[i] == y;
      }
    }
  }

  /** The slot that mentions id is the only one. */
  lemma OnlySlot(w: World, o: nat, id: nat)
    requires Inv(w) && o < |w.owners| && Mentions(w.owners[o], id)
    ensures Strong(id) in w.owners <==> w.owners[o] == Strong(id)
    ensures Weak(id) in w.owners <==> w.owners[o] == Weak(id)
  {
    assert w.owners[o] in w.owners;
  }

  lemma NewInv(w: World, op: Op)
    requires Inv(w) && Enabled(w, op) && (op.Construct? || op.MakePromise?)
    ensures Inv(Apply(w, op))
  {
    var w', n := Apply(w, op), |w.states|;
    forall id | 0 <= id < |w'.states| ensures StOk(w', id) {
      assert w'.owners[|w.owners|] in w'.owners;
      forall y | y == Strong(id) || y == Weak(id)
        ensures y in w'.owners <==> y in w.owners || w'.owners[|w.owners|] == y
      {
      }
      if id < n {
        assert StOk(w, id);
      } else {
        assert Strong(n) !in w.owners && Weak(n) !in w.owners;
      }
    }
  }

  lemma GetFutureInv(w: World, o: nat)
    requires Inv(w) && Enabled(w, GetFuture(o))
    ensures Inv(Apply(w, GetFuture(o)))
  {
    if w.owners[o].Strong? {
      var w' := Apply(w, GetFuture(o));
      forall id | 0 <= id < |w'.states| ensures StOk(w', id) {
        assert StOk(w, id);
        OwnersAfter(w, o, Weak(w.owners[o].id), id);
        if id == w.owners[o].id {
          OnlySlot(w, o, id);
        }
      }
    }
  }

  lemma MoveInv(w: World, src: nat)
    requires Inv(w) && Enabled(w, Move(src))
    ensures Inv(Apply(w, Move(src)))
  {
    var w' := Apply(w, Move(src));
    forall id | 0 <= id < |w'.states| ensures StOk(w', id) {
      assert StOk(w, id);
      OwnersAfter(w, src, Vacant, id);
      forall y | y == Strong(id) || y == Weak(id) ensures y in w'.owners <==> y in w.owners {
        assert w'.owners[|w.owners|] in w'.owners;
        if y in w.owners[src := Vacant] {
          assert y in w'.owners;
        }
        if w.owners[src] == y {
          assert y in w.owners;
        }
      }
    }
  }

  /** An owner lets its state go and its slot is left vacant. */
  lemma ForsakeOk(w: World, o: nat, id: nat)
    requires Inv(w) && Fits(w, o) && id < |w.states|
    ensures StOk(Forsake(w, o).(owners := w.owners[o := Vacant]), id)
  {
    assert StOk(w, id);
    OwnersAfter(w, o, Vacant, id);
    if Mentions(w.owners[o], id) {
      OnlySlot(w, o, id);
    }
  }

  lemma ForsakeInv(w: World, o: nat)
    requires Inv(w) && Fits(w, o)
    ensures Inv(Forsake(w, o).(owners := w.owners[o := Vacant]))
  {
    var w' := Forsake(w, o).(owners := w.owners[o := Vacant]);
    forall id | 0 <= id < |w.states| ensures StOk(w', id) {
      ForsakeOk(w, o, id);
    }
  }

  /** Moving an owner into a vacant slot. */
  lemma RefillInv(w: World, dst: nat, src: nat)
    requires Inv(w) && dst < |w.owners| && src < |w.owners| && dst != src && w.owners[dst].Vacant?
    ensures Inv(w.(owners := w.owners[dst := w.owners[src]][src := Vacant]))
  {
    var w' := w.(owners := w.owners[dst := w.owners[src]][src := Vacant]);
    forall id | 0 <= id < |w'.states| ensures StOk(w', id) {
      assert StOk(w, id);
      forall y | y == Strong(id) || y == Weak(id) ensures y in w'.owners <==> y in w.owners {
        if y in w.owners {
          var i :| 0 <= i < |w.owners| && w.owners[i] == y;
          assert w'.owners[if i == src then dst else i] == y;
        }
        if y in w'.owners {
          var i :| 0 <= i < |w'.owners| && w'.owners[i] == y;
          assert w.owners[if i == dst then src else i] == y;
        }
      }
    }
  }

  lemma PutInv(w: World, op: Op)
    requires Inv(w) && Enabled(w, op)
    requires op.Set? || op.Call? || op.CopyFuture? || op.DropFuture? || op.InnerReady?
    ensures Inv(Apply(w, op))
  {
    var w' := Apply(w, op);
    forall id | 0 <= id < |w'.states| ensures StOk(w', id) {
      assert StOk(w, id);
      if (op.Set? || op.Call?) && Mentions(w.owners[op.o], id) {
        OnlySlot(w, op.o, id);
      }
    }
  }

  lemma StepInv(w: World, op: Op)
    requires Inv(w) && Enabled(w, op)
    ensures Inv(Apply(w, op))
  {
    match op
    case Construct(_) => NewInv(w, op);
    case MakePromise(_) => NewInv(w, op);
    case GetFuture(o) => GetFutureInv(w, o);
    case Move(src) => MoveInv(w, src);
    case Assign(dst, src) =>
      ForsakeInv(w, dst);
      var v := Forsake(w, dst).(owners := w.owners[dst := Vacant]);
      RefillInv(v, dst, src);
      assert Apply(w, op).owners == v.owners[dst := v.owners[src]][src := Vacant];
    case Destroy(o) => ForsakeInv(w, o);
    case _ => PutInv(w, op);
  }

  lemma {:induction false} RunInv(w: World, ops: seq<Op>)
    requires Inv(w)
    ensures Inv(Run(w, ops))
    decreases |ops|
  {
    if ops != [] {
      if Enabled(w, ops[0]) {
        StepInv(w, ops[0]);
        RunInv(Apply(w, ops[0]), ops[1..]);
      } else {
        RunInv(w, ops[1..]);
      }
    }
  }

  /** Whatever the owner is offered: get_future, destruction, moves, and setting a promise or calling a
      task. */
  ghost predicate MayOperate(w: World, o: nat)
    requires o < |w.owners|
  {
    && Enabled(w, GetFuture(o)) && Enabled(w, Destroy(o)) && Enabled(w, Move(o))
    && (forall other | 0 <= other < |w.owners| && other != o :: Enabled(w, Assign(o, other)))
    && forall x: Stored | x.HasValue? || x.HasError? ::
         || w.owners[o].Vacant?
         || (w.owners[o].id < |w.states|
             && Enabled(w, if w.states[w.owners[o].id].kind.PackagedTask? then Call(o, x) else Set(o, x)))
  }

  /** An owner never meets a state of the wrong shape: every operation the code offers is
      enabled in every reachable world. */
  lemma OwnersFit(ops: seq<Op>, o: nat)
    requires o < |Run(NOTHING, ops).owners|
    ensures Fits(Run(NOTHING, ops), o) && MayOperate(Run(NOTHING, ops), o)
  {
    var w := Run(NOTHING, ops);
    RunInv(NOTHING, ops);
    if w.owners[o].Strong? {
      assert w.owners[o] in w.owners && StOk(w, w.owners[o].id);
    }
  }

  // The life cycle

  /** Over any sequence of operations: the storage is written at most once, the function
      of a task runs at most once, and the cancel action runs once if and only if the state
      has died without having been executed. A live state without a result still has its
      owner. */
  lemma LifeCycle(ops: seq<Op>, id: nat)
    requires id < |Run(NOTHING, ops).states|
    ensures var w := Run(NOTHING, ops); var st := w.states[id];
            && |w.handles| == |w.states|
            && st.strong == (if Strong(id) in w.owners then 1 else w.handles[id])
            && st.writes <= 1 && st.calls <= 1
            && (st.abandoned ==> st.calls == 0 && st.stored == HasError(BrokenPromise))
            && st.cancels == (if st.kind.CancellablePromise? && st.strong == 0 && !st.executed then 1 else 0)
            && (st.strong > 0 && !Owned(w, id) ==> st.executed || st.stored.HasInner?)
            && (Weak(id) in w.owners ==> (st.strong > 0 <==> w.handles[id] > 0))
  {
    var w := Run(NOTHING, ops);
    RunInv(NOTHING, ops);
    assert StOk(w, id);
    if Weak(id) in w.owners {
      var i :| 0 <= i < |w.owners| && w.owners[i] == Weak(id);
      OnlySlot(w, i, id);
    }
  }

  predicate Ends(w: World, op: Op, id: nat)
    requires Enabled(w, op)
  {
    match op
    case Assign(dst, _) => Mentions(w.owners[dst], id)
    case Destroy(o) => Mentions(w.owners[o], id)
    case _ => false
  }

  /** broken_promise appears exactly when an owner disappears while its state is alive with
      nothing set and no inner state pending; a promise that never gave out its future
      takes the state with it instead. */
  lemma BrokenExactly(w: World, op: Op, id: nat)
    requires Inv(w) && Enabled(w, op) && id < |w.states|
    ensures id < |Apply(w, op).states|
    ensures Apply(w, op).states[id].abandoned && !w.states[id].abandoned <==>
            Ends(w, op, id) && w.states[id].strong > 0 && w.states[id].stored.Empty?
            && (w.states[id].kind.PackagedTask? || Weak(id) in w.owners)
  {
    assert StOk(w, id);
    if Ends(w, op, id) {
      OnlySlot(w, if op.Assign? then op.dst else op.o, id);
    }
  }

  /** The first effective completion is final: a later set or call is refused while the
      state is alive, does nothing once it is gone, and nothing else touches the result. */
  lemma FirstIsFinal(w: World, op: Op, id: nat)
    requires Inv(w) && Enabled(w, op) && id < |w.states| && !w.states[id].stored.Empty?
    ensures id < |Apply(w, op).states| && Apply(w, op).states[id].stored == w.states[id].stored
    ensures (op.Set? || op.Call?) && Mentions(w.owners[op.o], id) ==>
              Answer(w, op) == (if w.states[id].strong > 0 then AlreadySatisfied else Ok)
  {
    assert StOk(w, id);
  }

  lemma {:induction false} FinalInEveryRun(w: World, ops: seq<Op>, id: nat)
    requires Inv(w) && id < |w.states| && !w.states[id].stored.Empty?
    ensures id < |Run(w, ops).states| && Run(w, ops).states[id].stored == w.states[id].stored
    decreases |ops|
  {
    if ops != [] {
      if Enabled(w, ops[0]) {
        StepInv(w, ops[0]);
        FirstIsFinal(w, ops[0], id);
        FinalInEveryRun(Apply(w, ops[0]), ops[1..], id);
      } else {
        FinalInEveryRun(w, ops[1..], id);
      }
    }
  }

  // What the result is

  /** Operation op goes through a pointer to the live state id: through its promise, or its task. */
  predicate Reaches(w: World, o: nat, id: nat) {
    o < |w.owners| && Mentions(w.owners[o], id) && id < |w.states| && w.states[id].strong > 0
  }

  /** What an empty state holds after one operation: the value set on its promise, what the function
      of its task produced, broken_promise if its owner ended while it lived, or nothing. */
  lemma StoredExactly(w: World, op: Op, id: nat)
    requires Inv(w) && Enabled(w, op) && id < |w.states| && w.states[id].stored.Empty?
    ensures id < |Apply(w, op).states|
    ensures Apply(w, op).states[id].stored ==
            if op.Set? && Reaches(w, op.o, id) then op.value
            else if op.Call? && Reaches(w, op.o, id) then op.result
            else if Ends(w, op, id) && w.states[id].strong > 0 && (w.states[id].kind.PackagedTask? || Weak(id) in w.owners)
              then HasError(BrokenPromise)
            else Empty
    ensures (op.Set? || op.Call?) && Reaches(w, op.o, id) ==> Answer(w, op) == Ok
  {
    assert StOk(w, id);
    if Ends(w, op, id) {
      OnlySlot(w, if op.Assign? then op.dst else op.o, id);
    }
  }

  /** A state is executed by the operation that stores a result, or, when that is delegated, by the
      inner state. */
  lemma ExecutedExactly(w: World, op: Op, id: nat)
    requires Inv(w) && Enabled(w, op) && id < |w.states| && id < |Apply(w, op).states|
    ensures Apply(w, op).states[id].executed <==>
            || w.states[id].executed || op == InnerReady(id)
            || (w.states[id].stored.Empty? && !Apply(w, op).states[id].stored.Empty?
                && !Apply(w, op).states[id].stored.HasInner?)
  {
    assert StOk(w, id);
  }

  /** The first value set on a promise whose state is alive is what the state holds ever after. */
  lemma SetForGood(w: World, o: nat, x: Stored, later: seq<Op>, id: nat)
    requires Inv(w) && Enabled(w, Set(o, x)) && Reaches(w, o, id) && w.states[id].stored.Empty?
    ensures Answer(w, Set(o, x)) == Ok
    ensures var t := Run(Apply(w, Set(o, x)), later); id < |t.states| && t.states[id].stored == x && t.states[id].executed
  {
    StoredExactly(w, Set(o, x), id);
    ExecutedExactly(w, Set(o, x), id);
    StepInv(w, Set(o, x));
    FinalInEveryRun(Apply(w, Set(o, x)), later, id);
    RunInv(Apply(w, Set(o, x)), later);
    var t := Run(Apply(w, Set(o, x)), later);
    assert StOk(t, id);
  }

  /** And so is what the function of a task produced when it was called. */
  lemma CallForGood(w: World, o: nat, x: Stored, later: seq<Op>, id: nat)
    requires Inv(w) && Enabled(w, Call(o, x)) && Reaches(w, o, id) && w.states[id].stored.Empty?
    ensures Answer(w, Call(o, x)) == Ok
    ensures var t := Run(Apply(w, Call(o, x)), later); id < |t.states| && t.states[id].stored == x
  {
    StoredExactly(w, Call(o, x), id);
    StepInv(w, Call(o, x));
    FinalInEveryRun(Apply(w, Call(o, x)), later, id);
  }

  // Futures and moves

  /** What is constructed: a live empty state of that kind, owned by the new owner alone; by a promise
      made with its future weakly, the future holding it. */
  lemma MadeFresh(w: World, op: Op)
    requires Inv(w) && Enabled(w, op) && (op.Construct? || op.MakePromise?)
    ensures var w', n := Apply(w, op), |w.states|;
            && |w'.states| == n + 1 && w'.states[..n] == w.states
            && w'.owners == w.owners + [if op.Construct? then Strong(n) else Weak(n)]
            && w'.states[n].strong == 1 && w'.states[n].stored.Empty? && !w'.states[n].executed
            && w'.states[n].calls == w'.states[n].writes == w'.states[n].cancels == 0 && !w'.states[n].abandoned
            && (w'.states[n].func <==> w'.states[n].kind.PackagedTask?)
            && w'.states[n].kind ==
                 if op.Construct? then op.kind else if op.cancellable then CancellablePromise else PlainPromise
  {
  }

  /** The futures given out on state id by an operation. */
  function Given(w: World, op: Op, id: nat): int
    requires Enabled(w, op)
  {
    match op
    case MakePromise(_) => if id == |w.states| then 1 else 0
    case GetFuture(o) => if w.owners[o] == Strong(id) then 1 else 0
    case CopyFuture(i) => if i == id then 1 else 0
    case DropFuture(i) => if i == id then -1 else 0
    case _ => 0
  }

  /** Futures come from making a promise, from the one successful get_future, and from copies. */
  lemma FuturesAccount(w: World, op: Op, id: nat)
    requires Inv(w) && Enabled(w, op) && id < |Apply(w, op).states|
    ensures |Apply(w, op).handles| == |Apply(w, op).states|
    ensures Apply(w, op).handles[id] == (if id < |w.handles| then w.handles[id] else 0) + Given(w, op, id)
  {
    if id < |w.states| {
      assert StOk(w, id);
    }
    if op.GetFuture? && w.owners[op.o].Strong? {
      assert w.owners[op.o].id < |w.states|;
    }
  }

  /** get_future succeeds once: afterwards the owner refers to the same state weakly, and is refused
      a second one for as long as it stays. */
  lemma GetFutureOnce(w: World, o: nat)
    requires Inv(w) && Enabled(w, GetFuture(o))
    ensures var w' := Apply(w, GetFuture(o));
            && Enabled(w', GetFuture(o)) && w'.states == w.states
            && (Answer(w, GetFuture(o)) == Ok <==> w.owners[o].Strong?)
            && (w.owners[o].Strong? ==> w'.owners == w.owners[o := Weak(w.owners[o].id)])
            && (Answer(w, GetFuture(o)) == Ok ==> Answer(w', GetFuture(o)) == AlreadyRetrieved)
            && (w.owners[o].Vacant? <==> Answer(w, GetFuture(o)) == NoState)
            && (!w.owners[o].Strong? ==> w' == w)
  {
    if w.owners[o].Strong? {
      assert w.owners[o].id < |w.states|;
    }
  }

  /** A move carries the pointer to a new owner and leaves a vacant one, without touching a state. An
      owner that is assigned to ends as if it was destroyed, and carries on the other's. */
  lemma MovesCarry(w: World, op: Op)
    requires Inv(w) && Enabled(w, op) && (op.Move? || op.Assign?)
    ensures var w' := Apply(w, op);
            w'.owners[op.src].Vacant? && w'.owners[if op.Move? then |w.owners| else op.dst] == w.owners[op.src]
            && w'.handles == w.handles
    ensures op.Move? ==> Apply(w, op).states == w.states
    ensures op.Assign? ==> Enabled(w, Destroy(op.dst)) && Apply(w, op).states == Apply(w, Destroy(op.dst)).states
    ensures forall i | 0 <= i < |w.owners| && i != op.src && (op.Assign? ==> i != op.dst) ::
              Apply(w, op).owners[i] == w.owners[i]
  {
  }

  /** An owner that ends is vacant, and every operation on a vacant owner is refused. */
  lemma VacantRefuses(w: World, o: nat, x: Stored)
    requires Inv(w) && Enabled(w, Destroy(o)) && (x.HasValue? || x.HasError?)
    ensures var w' := Apply(w, Destroy(o));
            && w'.owners == w.owners[o := Vacant] && w'.handles == w.handles
            && forall op | op in {GetFuture(o), Set(o, x), Call(o, x)} ::
                 Enabled(w', op) && Answer(w', op) == NoState && Apply(w', op) == w'
  {
  }
}
