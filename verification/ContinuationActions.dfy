/** cnt_state and the cnt_action handed to an executor: whatever the executor does with
    the action objects, the user function runs at most once and the result is completed at
    most once. One thing an executor can do loses a result for good: move-assigning over
    an action that has not been run. */
module ContinuationActions {
  import opened Outcomes
  import opened StoredResults

  /** A posted continuation state as a value: whether its result is still referenced, its
      action present, its storage and stack, and how often its function was started and
      its storage written. */
  datatype Cnt = Cnt(up: bool, action: bool, storage: Stored, executed: bool, calls: nat, writes: nat)

  /** `slots` are the action objects by their weak pointer; `lost` records the states
      whose action was assigned over. */
  datatype World = World(states: seq<Cnt>, slots: seq<Option<nat>>, lost: set<nat>)

  datatype Op =
    | Move(src: nat)
    | Assign(dst: nat, src: nat)
    | Call(slot: nat, result: Stored)
    | Destroy(slot: nat)
    | DropResult(c: nat)
    | InnerReady(c: nat)

  const POSTED := Cnt(true, true, Empty, false, 0, 0)

  function Initial(n: nat): World {
    World(seq(n, _ => POSTED), seq(n, (i: nat) => Some(i)), {})
  }

  /** shared_state::set_exception(broken_promise) under the tests of abandon(). */
  function Abandoned(c: Cnt): Cnt {
    if !c.up then c
    else if !c.executed && !c.storage.HasInner? && c.storage.Empty? then
      c.(storage := HasError(BrokenPromise), executed := true, writes := c.writes + 1, action := false)
    else c.(action := false)
  }

  /** cnt_state::run: lock, move the function out, call it, store and execute. */
  function Ran(c: Cnt, result: Stored): Cnt {
    if !c.up || !c.action then c
    else c.(action := false, calls := c.calls + 1, writes := c.writes + 1, storage := result, executed := !result.HasInner?)
  }

  predicate Enabled(w: World, op: Op) {
    match op
    case Move(src) => src < |w.slots|
    case Assign(dst, src) => dst < |w.slots| && src < |w.slots| && dst != src
    case Call(slot, result) => slot < |w.slots| && !result.Empty?
    case Destroy(slot) => slot < |w.slots|
    case DropResult(c) => c < |w.states|
    case InnerReady(c) => c < |w.states| && w.states[c].up && w.states[c].storage.HasInner?
  }

  function Apply(w: World, op: Op): (r: World)
    requires Enabled(w, op)
    ensures |r.states| == |w.states|
  {
    match op
    case Move(src) => w.(slots := w.slots[src := None] + [w.slots[src]])
    case Assign(dst, src) =>
      w.(slots := w.slots[dst := w.slots[src]][src := None],
         lost := w.lost + if w.slots[dst].Some? then {w.slots[dst].value} else {})
    case Call(slot, result) =>
      (match w.slots[slot]
       case None => w
       case Some(c) =>
         w.(slots := w.slots[slot := None],
            states := if c < |w.states| then w.states[c := Ran(w.states[c], result)] else w.states))
    case Destroy(slot) =>
      (match w.slots[slot]
       case None => w
       case Some(c) =>
         w.(slots := w.slots[slot := None],
            states := if c < |w.states| then w.states[c := Abandoned(w.states[c])] else w.states))
    case DropResult(c) => w.(states := w.states[c := w.states[c].(up := false)])
    case InnerReady(c) => w.(states := w.states[c := w.states[c].(executed := true)])
  }

  function Run(w: World, ops: seq<Op>): (r: World)
    ensures |r.states| == |w.states|
    decreases |ops|
  {
    if ops == [] then w
    else Run(if Enabled(w, ops[0]) then Apply(w, ops[0]) else w, ops[1..])
  }

  predicate Held(w: World, c: nat) { Some(c) in w.slots }

  predicate CntOk(w: World, c: nat)
    requires c < |w.states|
  {
    var s := w.states[c];
    && s.calls <= s.writes <= 1
    && (s.storage.Empty? <==> s.writes == 0)
    && (s.executed ==> s.writes == 1)
    && (s.executed || s.writes == 0 || s.storage.HasInner?)
    && (s.writes == 1 && s.calls == 0 ==> s.storage == HasError(BrokenPromise))
    && (s.up ==> (s.action <==> s.writes == 0))
    && (Held(w, c) ==> s.writes == 0 && c !in w.lost)
    && (c in w.lost ==> s.writes == 0)
    && (s.up && !Held(w, c) && c !in w.lost ==> s.writes == 1)
  }

  predicate Unique(w: World) {
    forall i, j | 0 <= i < j < |w.slots| && w.slots[i].Some? :: w.slots[i] != w.slots[j]
  }

  predicate Inv(w: World) {
    Unique(w) && forall c | 0 <= c < |w.states| :: CntOk(w, c)
  }

  lemma InitialInv(n: nat)
    ensures Inv(Initial(n))
  {
    var w := Initial(n);
    forall c | 0 <= c < n ensures Held(w, c) {
      assert w.slots[c] == Some(c);
    }
  }

  /** Whether operation op takes state c out of the slots. */
  predicate Releases(w: World, op: Op, c: nat)
    requires Enabled(w, op)
  {
    match op
    case Assign(dst, _) => w.slots[dst] == Some(c)
    case Call(slot, _) => w.slots[slot] == Some(c)
    case Destroy(slot) => w.slots[slot] == Some(c)
    case _ => false
  }

  lemma HeldStill(w: World, op: Op, c: nat)
    requires Unique(w) && Enabled(w, op) && Held(w, c) && !Releases(w, op, c)
    ensures Held(Apply(w, op), c)
  {
    var w' := Apply(w, op);
    var i :| 0 <= i < |w.slots| && w.slots[i] == Some(c);
    if op.Move? && i == op.src {
      assert w'.slots[|w.slots|] == Some(c);
    } else if op.Assign? && i == op.src {
      assert w'.slots[op.dst] == Some(c);
    } else {
      assert w'.slots[i] == Some(c);
    }
  }

  lemma HeldBefore(w: World, op: Op, c: nat)
    requires Unique(w) && Enabled(w, op) && Held(Apply(w, op), c)
    ensures Held(w, c) && !Releases(w, op, c)
  {
    var w' := Apply(w, op);
    var i :| 0 <= i < |w'.slots| && w'.slots[i] == Some(c);
    var j := if op.Move? && i == |w.slots| then op.src else if op.Assign? && i == op.dst then op.src else i;
    assert w.slots[j] == Some(c);
  }

  lemma StepUnique(w: World, op: Op)
    requires Unique(w) && Enabled(w, op)
    ensures Unique(Apply(w, op))
  {
  }

  lemma StepInv(w: World, op: Op)
    requires Inv(w) && Enabled(w, op)
    ensures Inv(Apply(w, op))
  {
    var w' := Apply(w, op);
    StepUnique(w, op);
    forall c | 0 <= c < |w'.states| ensures CntOk(w', c) {
      assert CntOk(w, c);
      if Held(w, c) && !Releases(w, op, c) {
        HeldStill(w, op, c);
      }
      if Held(w', c) {
        HeldBefore(w, op, c);
      }
    }
  }

  lemma {:induction false} RunInv(w: World, ops: seq<Op>)
    requires Inv(w)
    ensures Inv(Run(w, ops))
    decreases |ops|
  {
    if ops != [] {
      if Enabled(w, ops[0]) {
        StepInv(w, ops[0]);
        RunInv(Apply(w, ops[0]), ops[1..]);
      } else {
        RunInv(w, ops[1..]);
      }
    }
  }

  /** Run or abandon, for every sequence of moves, assignments, calls and destructions:
      the function runs at most once, the result is written at most once, and it was
      written by the function or is broken_promise. */
  lemma AtMostOnce(n: nat, ops: seq<Op>, c: nat)
    requires c < n
    ensures var s := Run(Initial(n), ops).states[c];
            && s.calls <= 1 && s.writes <= 1
            && (s.calls == 1 ==> s.writes == 1)
            && (s.writes == 1 && s.calls == 0 ==> s.storage == HasError(BrokenPromise))
  {
    InitialInv(n);
    RunInv(Initial(n), ops);
    assert CntOk(Run(Initial(n), ops), c);
  }

  /** Running an action on a state still awaited stores what the function makes of its argument,
      and publishes it unless it is delegated; the action refers to nothing afterwards, and no
      other state is touched. */
  lemma CallStores(n: nat, ops: seq<Op>, slot: nat, result: Stored, c: nat)
    requires var w := Run(Initial(n), ops);
             Enabled(w, Call(slot, result)) && w.slots[slot] == Some(c) && c < n && w.states[c].up
    ensures var w := Run(Initial(n), ops); var w' := Apply(w, Call(slot, result));
            && w'.states[c].storage == result && (w'.states[c].executed <==> !result.HasInner?)
            && w'.states[c].calls == 1 && w'.states[c].up && !Held(w', c)
            && w'.slots == w.slots[slot := None]
            && forall d | 0 <= d < n && d != c :: w'.states[d] == w.states[d]
  {
    var w := Run(Initial(n), ops);
    InitialInv(n);
    RunInv(Initial(n), ops);
    assert CntOk(w, c);
    if Held(Apply(w, Call(slot, result)), c) {
      HeldBefore(w, Call(slot, result), c);
    }
  }

  /** Destroying it instead breaks the promise. */
  lemma DestroyBreaks(n: nat, ops: seq<Op>, slot: nat, c: nat)
    requires var w := Run(Initial(n), ops);
             Enabled(w, Destroy(slot)) && w.slots[slot] == Some(c) && c < n && w.states[c].up
    ensures var w := Run(Initial(n), ops); var w' := Apply(w, Destroy(slot));
            && w'.states[c].storage == HasError(BrokenPromise) && w'.states[c].executed
            && w'.states[c].calls == 0 && !Held(w', c) && w'.slots == w.slots[slot := None]
            && forall d | 0 <= d < n && d != c :: w'.states[d] == w.states[d]
  {
    var w := Run(Initial(n), ops);
    InitialInv(n);
    RunInv(Initial(n), ops);
    assert CntOk(w, c);
    if Held(Apply(w, Destroy(slot)), c) {
      HeldBefore(w, Destroy(slot), c);
    }
  }

  /** A written storage, and readiness, are final. */
  lemma {:induction false} WrittenForGood(w: World, ops: seq<Op>, c: nat)
    requires Inv(w) && c < |w.states| && w.states[c].writes == 1
    ensures var t := Run(w, ops).states[c];
            t.storage == w.states[c].storage && t.calls == w.states[c].calls && (w.states[c].executed ==> t.executed)
    decreases |ops|
  {
    assert CntOk(w, c);
    if ops != [] {
      if Enabled(w, ops[0]) {
        StepInv(w, ops[0]);
        assert CntOk(Apply(w, ops[0]), c);
        NotRewritten(w, ops[0], c);
        WrittenForGood(Apply(w, ops[0]), ops[1..], c);
      } else {
        WrittenForGood(w, ops[1..], c);
      }
    }
  }

  lemma NotRewritten(w: World, op: Op, c: nat)
    requires Inv(w) && Enabled(w, op) && c < |w.states| && w.states[c].writes == 1
    ensures var t := Apply(w, op).states[c];
            t.storage == w.states[c].storage && t.writes == 1 && t.calls == w.states[c].calls
            && (w.states[c].executed ==> t.executed)
  {
    assert CntOk(w, c);
  }

  /** A function that was started was started by one call of an action referring to its state, and
      what that call made of its argument is the result, at the end of every run. */
  lemma {:induction false} RanBy(w: World, ops: seq<Op>, c: nat) returns (k: nat)
    requires Inv(w) && c < |w.states| && w.states[c].calls == 0 && Run(w, ops).states[c].calls == 1
    ensures k < |ops| && CalledAt(w, ops, k, c) && Run(w, ops).states[c].storage == ops[k].result
    decreases |ops|
  {
    var w' := if Enabled(w, ops[0]) then Apply(w, ops[0]) else w;
    if Enabled(w, ops[0]) {
      StepInv(w, ops[0]);
      assert CntOk(w, c) && CntOk(w', c);
      if w'.states[c].calls == 1 {
        WrittenForGood(w', ops[1..], c);
        assert ops[..0] == [];
        return 0;
      }
    }
    k := RanBy(w', ops[1..], c);
    assert ops[..k + 1][1..] == ops[1..][..k];
    k := k + 1;
  }

  predicate CalledAt(w: World, ops: seq<Op>, k: nat, c: nat)
    requires k < |ops|
  {
    var v := Run(w, ops[..k]);
    ops[k].Call? && Enabled(v, ops[k]) && v.slots[ops[k].slot] == Some(c) && c < |v.states| && v.states[c].up
  }

  /** Once the last reference to a result is gone its function does not start any more. */
  lemma DroppedNeverRuns(n: nat, ops: seq<Op>, c: nat, later: seq<Op>)
    requires c < n
    ensures var w := Run(Initial(n), ops); var t := Run(Apply(w, DropResult(c)), later);
            !t.states[c].up && t.states[c].calls == w.states[c].calls && t.states[c].storage == w.states[c].storage
  {
    var w := Run(Initial(n), ops);
    StaysDown(Apply(w, DropResult(c)), later, c);
  }

  lemma {:induction false} StaysDown(w: World, ops: seq<Op>, c: nat)
    requires c < |w.states| && !w.states[c].up
    ensures var t := Run(w, ops).states[c];
            !t.up && t.calls == w.states[c].calls && t.storage == w.states[c].storage
    decreases |ops|
  {
    if ops != [] {
      StaysDown(if Enabled(w, ops[0]) then Apply(w, ops[0]) else w, ops[1..], c);
    }
  }

  /** A delegated result is ready from the moment the inner one is. */
  lemma InnerPublishes(n: nat, ops: seq<Op>, c: nat, later: seq<Op>)
    requires Enabled(Run(Initial(n), ops), InnerReady(c))
    ensures var w := Run(Initial(n), ops); var t := Run(Apply(w, InnerReady(c)), later);
            |t.states| == n && c < n && t.states[c].executed && t.states[c].storage == w.states[c].storage
  {
    var w := Run(Initial(n), ops);
    InitialInv(n);
    RunInv(Initial(n), ops);
    assert CntOk(w, c);
    StepInv(w, InnerReady(c));
    WrittenForGood(Apply(w, InnerReady(c)), later, c);
  }

  /** A move carries the pointer over and leaves nothing behind, and so does an assignment, which
      forgets what was there; neither completes anything. */
  lemma MoveCarries(w: World, op: Op)
    requires Enabled(w, op) && (op.Move? || op.Assign?)
    ensures var w' := Apply(w, op); var to := if op.Move? then |w.slots| else op.dst;
            && to < |w'.slots| && w'.slots[to] == w.slots[op.src] && w'.slots[op.src] == None && w'.states == w.states
            && (forall i | 0 <= i < |w.slots| && i != op.src && i != to :: w'.slots[i] == w.slots[i])
            && forall c :: c in w'.lost <==> c in w.lost || (op.Assign? && w.slots[op.dst] == Some(c))
  {
  }

  /** Once no action object refers to a state that is still awaited, its result has been
      written unless, and only unless, its action was assigned over before it was run. */
  lemma CompletedUnlessOverwritten(n: nat, ops: seq<Op>, c: nat)
    requires c < n
    requires var w := Run(Initial(n), ops); w.states[c].up && !Held(w, c)
    ensures var w := Run(Initial(n), ops); w.states[c].writes == 1 <==> c !in w.lost
  {
    InitialInv(n);
    RunInv(Initial(n), ops);
    assert CntOk(Run(Initial(n), ops), c);
  }

  /** Nothing but a move assignment loses a result. */
  lemma {:induction false} OnlyAssignLoses(w: World, ops: seq<Op>, c: nat)
    requires c !in w.lost && forall op | op in ops :: !op.Assign?
    ensures c !in Run(w, ops).lost
    decreases |ops|
  {
    if ops != [] {
      OnlyAssignLoses(if Enabled(w, ops[0]) then Apply(w, ops[0]) else w, ops[1..], c);
    }
  }

  /** So an executor that does not assign over actions completes every result still awaited,
      once it has run or destroyed all of them. */
  lemma CompletedWithoutAssign(n: nat, ops: seq<Op>, c: nat)
    requires c < n && forall op | op in ops :: !op.Assign?
    requires var w := Run(Initial(n), ops); w.states[c].up && !Held(w, c)
    ensures var s := Run(Initial(n), ops).states[c]; s.writes == 1 && !s.storage.Empty?
  {
    OnlyAssignLoses(Initial(n), ops, c);
    CompletedUnlessOverwritten(n, ops, c);
    InitialInv(n);
    RunInv(Initial(n), ops);
    assert CntOk(Run(Initial(n), ops), c);
  }

  /** The input that fails: two continuations are posted, the executor keeps both actions
      and move-assigns the second over the first. The first result stays awaited for ever:
      never called, never broken, and no action refers to it. */
  lemma OverwrittenNeverCompletes(later: seq<Op>)
    ensures var w := Run(Initial(2), [Assign(0, 1)]);
            && !Held(w, 0) && w.states[0].up && w.states[0].writes == 0
            && (Run(w, later).states[0].up ==> Run(w, later).states[0].storage == Empty)
            && Run(w, later).states[0].calls == 0
  {
    var w := Apply(Initial(2), Assign(0, 1));
    assert [Assign(0, 1)][1..] == [];
    assert Run(Initial(2), [Assign(0, 1)]) == Run(w, []);
    InitialInv(2);
    StepInv(Initial(2), Assign(0, 1));
    LostForEver(w, later, 0);
  }

  lemma {:induction false} LostForEver(w: World, ops: seq<Op>, c: nat)
    requires Inv(w) && c < |w.states| && c in w.lost
    ensures var w' := Run(w, ops);
            Inv(w') && c in w'.lost && w'.states[c].writes == 0 && w'.states[c].calls == 0 && w'.states[c].storage == Empty
    decreases |ops|
  {
    assert CntOk(w, c);
    if ops != [] {
      if Enabled(w, ops[0]) {
        StepInv(w, ops[0]);
        LostForEver(Apply(w, ops[0]), ops[1..], c);
      } else {
        LostForEver(w, ops[1..], c);
      }
    }
  }

  // The objects

  class CntState {
    var strong: nat
    var hasExec: bool
    var hasAction: bool
    var storage: Stored
    var executed: bool
    ghost var calls: nat
    ghost var writes: nat

    ghost function Value(): Cnt
      reads this
    {
      Cnt(strong > 0, hasAction, storage, executed, calls, writes)
    }

    /** make_then_state: executor and function are in place. */
    constructor ()
      ensures Value() == POSTED && hasExec
    {
      strong, hasExec, hasAction, storage, executed := 1, true, true, Empty, false;
      calls, writes := 0, 0;
    }

    /** cnt_state::schedule: the executor is moved out; a dead state schedules nothing. */
    method Schedule() returns (action: CntAction?)
      requires strong > 0 ==> hasExec
      modifies this`hasExec
      ensures if strong == 0 then action == null && hasExec == old(hasExec)
              else !hasExec && action != null && fresh(action) && action.wdata == this
      ensures Value() == old(Value())
    {
      if strong == 0 {
        return null;
      }
      hasExec := false;
      action := new CntAction(this);
    }

    /** cnt_state::run; `result` is what the user function makes of its argument. */
    method Execute(result: Stored)
      requires !result.Empty? && (strong > 0 ==> hasAction && storage.Empty? && !executed)
      modifies this`hasAction, this`storage, this`executed, this`calls, this`writes
      ensures Value() == Ran(old(Value()), result)
      ensures old(strong) > 0 ==>
                storage == result && (executed <==> !result.HasInner?) && calls == old(calls) + 1 && !hasAction
      ensures old(strong) == 0 ==> Value() == old(Value())
    {
      if strong == 0 {
        return;
      }
      hasAction := false;
      calls := calls + 1;
      storage := result;
      writes := writes + 1;
      executed := !result.HasInner?;
    }

    /** cnt_state::abandon, called through a successful lock. */
    method Abandon()
      requires strong > 0 && (!executed && !storage.HasInner? ==> storage.Empty?)
      modifies this`hasAction, this`storage, this`executed, this`writes
      ensures Value() == Abandoned(old(Value()))
      ensures old(storage).Empty? && !old(executed) ==> storage == HasError(BrokenPromise) && executed
      ensures !old(storage).Empty? ==> storage == old(storage) && executed == old(executed)
      ensures !hasAction && calls == old(calls)
    {
      if !executed && !storage.HasInner? {
        storage := HasError(BrokenPromise);
        writes := writes + 1;
        executed := true;
      }
      hasAction := false;
    }
  }

  class CntAction {
    var wdata: CntState?

    constructor (c: CntState?)
      ensures wdata == c
    {
      wdata := c;
    }

    /** operator()(): the pointer is exchanged away first, so a second call does nothing. */
    method Invoke(result: Stored)
      requires !result.Empty?
      requires wdata != null && wdata.strong > 0 ==> wdata.hasAction && wdata.storage.Empty? && !wdata.executed
      modifies this, wdata
      ensures wdata == null
      ensures old(wdata) != null ==> old(wdata).Value() == Ran(old(wdata.Value()), result)
      ensures old(wdata) != null && old(wdata.strong) > 0 ==>
                old(wdata).storage == result && (old(wdata).executed <==> !result.HasInner?)
    {
      var data := wdata;
      wdata := null;
      if data != null {
        data.Execute(result);
      }
    }

    /** Move assignment: whatever this object referred to is forgotten without a word. */
    method MoveFrom(rhs: CntAction)
      requires rhs != this
      modifies this, rhs
      ensures wdata == old(rhs.wdata) && rhs.wdata == null
    {
      wdata := rhs.wdata;
      rhs.wdata := null;
    }

    /** The destructor. */
    method Destroy()
      requires wdata != null && wdata.strong > 0 ==>
                 (!wdata.executed && !wdata.storage.HasInner? ==> wdata.storage.Empty?)
      modifies this, wdata
      ensures wdata == null
      ensures old(wdata) != null ==> old(wdata).Value() == Abandoned(old(wdata.Value()))
      ensures old(wdata) != null && old(wdata.strong) > 0 && old(wdata.storage).Empty? && !old(wdata.executed) ==>
                old(wdata).storage == HasError(BrokenPromise) && old(wdata).executed
    {
      var data := wdata;
      if data != null && data.strong > 0 {
        data.Abandon();
      }
      wdata := null;
    }
  }

  /** The failing use as a program: the executor keeps two actions, assigns the second over the
      first, runs what it has left and destroys both. The first result is still awaited. */
  method AssignOver(result: Stored) returns (first: CntState, second: CntState)
    requires !result.Empty?
    ensures fresh(first) && first.Value() == POSTED
    ensures fresh(second) && second.Value() == Ran(POSTED, result) && second.storage == result
  {
    first := new CntState();
    second := new CntState();
    var a := first.Schedule();
    var b := second.Schedule();
    a.MoveFrom(b);
    a.Invoke(result);
    a.Destroy();
    b.Destroy();
  }
}
