/** `shared_state` as the program's own objects: storages that may point at other shared
    states, stacks of callbacks that may complete other shared states, and the recursion of
    `execute`, `value_ref` and `exception` through them. `W` is any set of shared states that
    is closed under these pointers. */
module SharedStateObject {
  import opened Outcomes

  datatype Storage = Empty | HasValue(v: int) | HasInner(inner: SharedState) | HasError(e: Exn)

  /** A callback of the user, the one `unwrap` puts on the inner state's stack, which refers to
      the outer state weakly, and the empty one of `detach`, which holds the state strongly. */
  datatype Continuation = User(id: nat) | Forward(outer: SharedState) | Keep(self: SharedState)

  datatype Reply = Done | AlreadySatisfied

  /** How a user function ended; a future it returned may be invalid. */
  datatype Ending = Returned(v: int) | Threw(e: Exn) | ReturnedState(inner: SharedState?)

  function Users(ks: seq<Continuation>): seq<nat> {
    if ks == [] then [] else (if ks[0].User? then [ks[0].id] else []) + Users(ks[1..])
  }

  lemma {:induction false} UsersSplit(ks: seq<Continuation>, i: nat)
    requires i < |ks|
    ensures Users(ks[..i + 1]) == Users(ks[..i]) + Users([ks[i]])
  {
    if i == 0 {
      assert ks[..1][1..] == [] && ks[..0] == [];
    } else {
      assert ks[..i + 1][1..] == ks[1..][..i] && ks[..i][1..] == ks[1..][..i - 1];
      UsersSplit(ks[1..], i - 1);
    }
  }

  ghost function Ready(W: set<SharedState>): set<SharedState>
    reads W
  {
    set s | s in W && s.executed
  }

  /** Live outer states whose inner state is ready while they are not. */
  ghost function Unsettled(W: set<SharedState>): set<SharedState>
    reads W
  {
    set s | s in W && s.alive && s.storage.HasInner? && s.storage.inner in W && !s.executed && s.storage.inner.executed
  }

  /** The outer states whose callbacks are among ks. */
  ghost function Outers(ks: seq<Continuation>): set<SharedState> {
    set k | k in ks && k.Forward? :: k.outer
  }

  /** A ready state has its storage written and delegates, if at all, to a state that became
      ready earlier; a live outer state still waiting has its callback on the inner stack. */
  ghost predicate StateOk(s: SharedState, W: set<SharedState>)
    requires s in W
    reads W
  {
    && (s.storage.HasInner? ==> s.storage.inner in W)
    && (s.executed ==> s.conts == [] && !s.storage.Empty?)
    && (s.executed && s.storage.HasInner? ==>
          s.storage.inner.executed && s.behind == s.storage.inner.behind + 1)
    && (s.alive && s.storage.HasInner? && !s.executed && !s.storage.inner.executed ==> Forward(s) in s.storage.inner.conts)
    && (forall k | k in s.conts && k.Forward? :: k.outer in W && k.outer.storage == Storage.HasInner(s))
  }

  ghost predicate Valid(W: set<SharedState>)
    reads W
  {
    forall s | s in W :: StateOk(s, W)
  }

  /** Between two calls from outside, a live outer state is ready exactly when its inner one is. */
  ghost predicate Settled(W: set<SharedState>)
    reads W
  {
    Valid(W) && Unsettled(W) == {}
  }

  /** Either nothing happened to x, or it became ready and every callback of its user ran
      once, in the order of the stack. */
  twostate predicate Notified(x: SharedState)
    reads x
  {
    && x.alive == old(x.alive)
    && (old(x.executed) ==> x.executed && x.behind == old(x.behind))
    && if x.executed && !old(x.executed) then x.called == old(x.called) + Users(old(x.conts)) && x.conts == []
       else x.called == old(x.called) && x.conts == old(x.conts)
  }

  /** What `execute` may do to the states of W. */
  twostate predicate Progress(W: set<SharedState>)
    reads W
  {
    forall x | x in W :: x.storage == old(x.storage) && Notified(x)
  }

  /** Every state but s keeps its storage, and is notified at most once. */
  twostate predicate Others(s: SharedState, W: set<SharedState>)
    reads W
  {
    forall x | x in W && x != s :: x.storage == old(x.storage) && Notified(x)
  }

  twostate predicate Unchanged(W: set<SharedState>)
    reads W
  {
    forall x | x in W :: x.storage == old(x.storage) && x.executed == old(x.executed) && x.called == old(x.called)
                         && x.conts == old(x.conts) && x.behind == old(x.behind) && x.alive == old(x.alive)
  }

  class SharedState {
    var storage: Storage
    var conts: seq<Continuation>
    var executed: bool
    var called: seq<nat>
    /** Whether a weak pointer to this state can still be locked. */
    var alive: bool
    /** How many inner states the outcome of a ready state comes through. */
    ghost var behind: nat

    constructor ()
      ensures storage == Storage.Empty && conts == [] && !executed && called == [] && alive
    {
      storage, conts, executed, called, behind, alive := Storage.Empty, [], false, [], 0, true;
    }

    /** The last strong reference goes: nobody can lock this state any more. */
    method Release(ghost W: set<SharedState>)
      requires this in W && Settled(W)
      modifies this`alive
      ensures !alive && Settled(W)
    {
      alive := false;
      assert Ready(W) == old(Ready(W)) && Unsettled(W) <= old(Unsettled(W));
      forall s | s in W ensures StateOk(s, W) {
        assert old(StateOk(s, W));
      }
    }

    /** The common recursion of value_ref and exception. It ends because every inner state
        became ready strictly earlier; no acyclicity is assumed. */
    function ValueRef(ghost W: set<SharedState>): Outcome
      requires Valid(W) && this in W && executed
      reads W
      decreases behind
    {
      assert StateOk(this, W);
      match storage
      case HasValue(v) => Value(v)
      case HasError(e) => Failure(e)
      case HasInner(inner) => inner.ValueRef(W)
    }

    /** The state in which the chain of inner states ends. */
    function Source(ghost W: set<SharedState>): SharedState
      requires Valid(W) && this in W && executed
      reads W
      decreases behind
    {
      assert StateOk(this, W);
      match storage
      case HasInner(inner) => inner.Source(W)
      case _ => this
    }

    /** The value is moved out of this storage and `left` stays behind, which is seen by those
        whose chain ends here. */
    method MoveOut(left: int, ghost W: set<SharedState>)
      requires this in W && Valid(W) && storage.HasValue? && executed
      modifies this`storage
      ensures storage == Storage.HasValue(left)
      ensures Valid(W) && Ready(W) == old(Ready(W))
      ensures forall y | y in Ready(W) :: y.behind == old(y.behind)
                && Some(y.ValueRef(W)) == if End(old(Written(W)), y, y.behind + 1) == Some(this) then Some(Value(left))
                                          else Seen(old(Written(W)), y, y.behind + 1)
    {
      ghost var before := Written(W);
      storage := Storage.HasValue(left);
      assert Ready(W) == old(Ready(W)) && Unsettled(W) == old(Unsettled(W));
      forall s | s in W ensures StateOk(s, W) {
        assert old(StateOk(s, W));
      }
      assert Written(W) == before[this := Storage.HasValue(left)];
      forall y | y in Ready(W)
        ensures Some(y.ValueRef(W)) == if End(before, y, y.behind + 1) == Some(this) then Some(Value(left))
                                       else Seen(before, y, y.behind + 1)
      {
        AfterMove(before, y, this, left, W);
      }
    }

    /** std::move(value_ref()), or the exception rethrown. */
    method Take(left: int, ghost W: set<SharedState>) returns (outcome: Outcome)
      requires this in W && Valid(W) && executed
      modifies W
      ensures Valid(W) && Ready(W) == old(Ready(W)) && outcome == old(ValueRef(W))
      ensures forall y | y in old(Ready(W)) ::
                y.ValueRef(W) == if old(ValueRef(W)).Value? && old(y.Source(W)) == old(Source(W)) then Value(left)
                                 else old(y.ValueRef(W))
    {
      AllSeen(W);
      outcome := ValueRef(W);
      if outcome.Value? {
        var source := Source(W);
        SourceInside(this, W);
        source.MoveOut(left, W);
      }
    }

    method Call(id: nat, ghost W: set<SharedState>)
      requires this in W && Valid(W)
      modifies this`called
      ensures called == old(called) + [id]
      ensures Valid(W) && Ready(W) == old(Ready(W)) && Unsettled(W) == old(Unsettled(W))
    {
      called := called + [id];
      assert Ready(W) == old(Ready(W)) && Unsettled(W) == old(Unsettled(W));
      forall s | s in W ensures StateOk(s, W) {
        assert old(StateOk(s, W));
      }
    }

    /** The exchange with the consumed marker. The callbacks now in the caller's hands cover
        every outer state that became unsettled by it. */
    method Exchange(ghost W: set<SharedState>) returns (ks: seq<Continuation>)
      requires this in W && Valid(W) && !storage.Empty? && !executed
      requires storage.HasInner? ==> storage.inner.executed
      modifies this
      ensures Valid(W) && executed && conts == [] && ks == old(conts)
      ensures storage == old(storage) && called == old(called) && alive == old(alive)
      ensures Ready(W) == old(Ready(W)) + {this}
      ensures forall k | k in ks && k.Forward? :: k.outer in W && k.outer.storage == Storage.HasInner(this)
      ensures Unsettled(W) <= (old(Unsettled(W)) - {this}) + Outers(ks)
    {
      assert StateOk(this, W);
      ghost var before := Ready(W);
      ks := conts;
      conts := [];
      executed := true;
      behind := if storage.HasInner? then storage.inner.behind + 1 else 0;
      assert Ready(W) == before + {this};
      forall s | s in W ensures StateOk(s, W) {
        assert old(StateOk(s, W));
      }
    }

    /** Writing an empty storage disturbs nobody. */
    method Write(x: Storage, ghost W: set<SharedState>)
      requires this in W && Valid(W) && storage.Empty? && (x.HasValue? || x.HasError?)
      modifies this`storage
      ensures storage == x && Valid(W) && Unsettled(W) == old(Unsettled(W)) && Ready(W) == old(Ready(W))
    {
      assert StateOk(this, W);
      storage := x;
      assert Ready(W) == old(Ready(W)) && Unsettled(W) == old(Unsettled(W));
      forall s | s in W ensures StateOk(s, W) {
        assert old(StateOk(s, W));
      }
    }

    /** continuations().execute(): the callbacks on the exchanged stack run in order; those of
        outer states execute these in turn. A second execution finds nothing. */
    method Execute(ghost W: set<SharedState>, ghost unready: set<SharedState>)
      requires this in W && Valid(W) && !storage.Empty? && W - Ready(W) <= unready
      requires storage.HasInner? ==> storage.inner.executed
      modifies W
      ensures Valid(W) && executed && Unsettled(W) <= old(Unsettled(W)) - {this}
      ensures Progress(W)
      decreases unready, 0
    {
      if executed {
        return;
      }
      var ks := Exchange(W);
      RunAll(ks, W, unready - {this});
    }

    method RunOne(k: Continuation, ghost W: set<SharedState>, ghost unready: set<SharedState>)
      requires this in W && Valid(W) && executed && W - Ready(W) <= unready
      requires k.Forward? ==> k.outer in W && k.outer.storage == Storage.HasInner(this)
      modifies W
      ensures Valid(W) && executed && conts == [] && old(Ready(W)) <= Ready(W) && Others(this, W)
      ensures storage == old(storage) && behind == old(behind) && alive == old(alive)
      ensures called == old(called) + Users([k])
      ensures Unsettled(W) <= old(Unsettled(W)) - Outers([k])
      decreases unready, 1
    {
      assert StateOk(this, W);
      match k
      case User(id) => Call(id, W);
      case Forward(outer) =>
        if outer.alive {
          outer.Execute(W, unready);
        }
      case Keep(_) =>
    }

    /** The loop over the callbacks of this state. */
    method RunAll(ks: seq<Continuation>, ghost W: set<SharedState>, ghost unready: set<SharedState>)
      requires this in W && Valid(W) && executed && W - Ready(W) <= unready
      requires forall k | k in ks && k.Forward? :: k.outer in W && k.outer.storage == Storage.HasInner(this)
      modifies W
      ensures Valid(W) && executed && conts == [] && Others(this, W)
      ensures storage == old(storage) && behind == old(behind) && alive == old(alive)
      ensures called == old(called) + Users(ks)
      ensures Unsettled(W) <= old(Unsettled(W)) - Outers(ks)
      decreases unready, 2
    {
      assert StateOk(this, W);
      for i := 0 to |ks|
        invariant Valid(W) && executed && conts == [] && Others(this, W) && W - Ready(W) <= unready
        invariant storage == old(storage) && behind == old(behind) && alive == old(alive)
        invariant called == old(called) + Users(ks[..i])
        invariant Unsettled(W) <= old(Unsettled(W)) - Outers(ks[..i])
      {
        UsersSplit(ks, i);
        assert ks[..i + 1] == ks[..i] + [ks[i]];
        assert Outers(ks[..i + 1]) == Outers(ks[..i]) + Outers([ks[i]]);
        RunOne(ks[i], W, unready);
      }
      assert ks[..|ks|] == ks;
    }

    method Emplace(v: int, ghost W: set<SharedState>) returns (reply: Reply)
      requires this in W && Settled(W)
      modifies W
      ensures Settled(W) && Others(this, W)
      ensures reply == if old(storage).Empty? then Done else AlreadySatisfied
      ensures reply.Done? ==> storage == Storage.HasValue(v) && executed && Notified(this)
      ensures reply.AlreadySatisfied? ==> Unchanged(W)
    {
      if !storage.Empty? {
        return AlreadySatisfied;
      }
      Write(Storage.HasValue(v), W);
      Execute(W, W);
      return Done;
    }

    method SetException(e: Exn, ghost W: set<SharedState>) returns (reply: Reply)
      requires this in W && Settled(W)
      modifies W
      ensures Settled(W) && Others(this, W)
      ensures reply == if old(storage).Empty? then Done else AlreadySatisfied
      ensures reply.Done? ==> storage == Storage.HasError(e) && executed && Notified(this)
      ensures reply.AlreadySatisfied? ==> Unchanged(W)
    {
      if !storage.Empty? {
        return AlreadySatisfied;
      }
      Write(Storage.HasError(e), W);
      Execute(W, W);
      return Done;
    }

    /** An owner that disappears: broken_promise if nothing was set and no inner is pending. */
    method Abandon(ghost W: set<SharedState>)
      requires this in W && Settled(W)
      modifies W
      ensures Settled(W) && Others(this, W)
      ensures old(storage).Empty? ==> storage == Storage.HasError(BrokenPromise) && executed && Notified(this)
      ensures !old(storage).Empty? ==> Unchanged(W)
    {
      assert StateOk(this, W);
      if !executed && !storage.HasInner? {
        var reply := SetException(BrokenPromise, W);
      }
    }

    /** The storage is made to delegate; a callback pushed on a consumed stack is left to the
        caller to run. */
    method Link(inner: SharedState, ghost W: set<SharedState>) returns (now: bool)
      requires this in W && inner in W && Settled(W) && storage.Empty? && alive
      modifies this`storage, inner`conts
      ensures storage == Storage.HasInner(inner) && Valid(W) && Ready(W) == old(Ready(W))
      ensures now == inner.executed && Unsettled(W) == if now then {this} else {}
      ensures inner.conts == (if now then [] else [Forward(this)]) + old(inner.conts)
    {
      assert StateOk(this, W) && StateOk(inner, W);
      storage := Storage.HasInner(inner);
      now := inner.executed;
      if !now {
        inner.conts := [Forward(this)] + inner.conts;
      }
      assert Ready(W) == old(Ready(W));
      assert forall s | s in W && s != this :: s in Unsettled(W) ==> s in old(Unsettled(W));
      forall s | s in W ensures StateOk(s, W) {
        assert old(StateOk(s, W));
      }
    }

    /** This state was written, and delegates to `inner` if that is a state. If it is ready now, the
        callbacks registered on it have run, once each in stack order. If it is not, they are all
        still there, `inner` has one callback more, for this state, and nobody else became ready. */
    twostate predicate Delegated(inner: SharedState?, W: set<SharedState>)
      reads W, this, inner
    {
      && alive == old(alive)
      && (if executed then called == old(called) + Users(old(conts)) && conts == []
          else
            && called == old(called)
            && conts == (if inner == this then [Forward(this)] else []) + old(conts)
            && inner != null && !inner.executed && inner.called == old(inner.called)
            && inner.conts == [Forward(this)] + old(inner.conts) && inner.alive == old(inner.alive))
      && forall x | x in W && x != this ::
           && x.storage == old(x.storage)
           && (executed || x != inner ==> Notified(x) && (!executed ==> x.executed == old(x.executed)))
    }

    /** unwrap: an invalid future breaks the promise, a valid one is delegated to. The storage
        is written without a check, so the caller owes that nothing was stored before. */
    method Unwrap(inner: SharedState?, ghost W: set<SharedState>)
      requires this in W && Settled(W) && storage.Empty? && alive && (inner != null ==> inner in W)
      modifies W
      ensures Settled(W)
      ensures inner == null ==> storage == Storage.HasError(BrokenPromise) && executed
      ensures inner != null ==> storage == Storage.HasInner(inner) && (executed <==> old(inner.executed))
      ensures Delegated(inner, W)
    {
      assert StateOk(this, W);
      if inner == null {
        var reply := SetException(BrokenPromise, W);
        return;
      }
      var now := Link(inner, W);
      if now {
        Execute(W, W);
      }
    }

    /** set_state_value: the user function was called and ended as told. */
    method SetStateValue(ending: Ending, ghost W: set<SharedState>)
      requires this in W && Settled(W) && storage.Empty? && alive
      requires ending.ReturnedState? && ending.inner != null ==> ending.inner in W
      modifies W
      ensures Settled(W) && Delegated(if ending.ReturnedState? then ending.inner else null, W)
      ensures match ending
              case Returned(v) => executed && ValueRef(W) == Value(v)
              case Threw(e) => executed && ValueRef(W) == Failure(e)
              case ReturnedState(inner) =>
                if inner == null then executed && ValueRef(W) == Failure(BrokenPromise)
                else (executed <==> old(inner.executed)) && (executed ==> inner.executed && ValueRef(W) == inner.ValueRef(W))
    {
      var reply;
      match ending
      case Returned(v) => reply := Emplace(v, W);
      case Threw(e) => reply := SetException(e, W);
      case ReturnedState(inner) => Unwrap(inner, W);
      assert StateOk(this, W);
    }

    /** continuations().push: the callback is stacked, or run at once and destroyed. */
    method Push(k: Continuation, ghost W: set<SharedState>)
      requires this in W && Settled(W) && (k.User? || k == Keep(this))
      modifies this`conts, this`called
      ensures Settled(W)
      ensures if executed then called == old(called) + Users([k]) && conts == old(conts)
              else called == old(called) && conts == [k] + old(conts)
    {
      if executed {
        if k.User? {
          Call(k.id, W);
        }
        return;
      }
      conts := [k] + conts;
      assert Ready(W) == old(Ready(W)) && Unsettled(W) == old(Unsettled(W));
      forall s | s in W ensures StateOk(s, W) {
        assert old(StateOk(s, W));
      }
    }
  }

  datatype Got = NoState | Yields(outcome: Outcome)

  /** The unique future: every operation needs a state, and all but `is_ready` and `notify`
      move it out. */
  class Future {
    var state: SharedState?

    constructor (state: SharedState?)
      ensures this.state == state
    {
      this.state := state;
    }

    method IsReady() returns (valid: bool, ready: bool)
      ensures valid <==> state != null
      ensures valid ==> (ready <==> state.executed)
    {
      valid := state != null;
      ready := valid && state.executed;
    }

    /** get() after its wait: the future is invalid afterwards and yields what the chain of inner
        states ends in. The value is moved out of the state the chain ends in, where `left` stays
        behind: whoever else holds a ready state sees the change if and only if the chain of that
        state ends there too. An exception is only copied. */
    method Get(left: int, ghost W: set<SharedState>) returns (got: Got)
      requires Valid(W) && (state != null ==> state in W && state.executed)
      modifies this, W
      ensures state == null && Valid(W) && Ready(W) == old(Ready(W))
      ensures got == if old(state) == null then NoState else Yields(old(state.ValueRef(W)))
      ensures forall y | y in old(Ready(W)) ::
                y.ValueRef(W) == if old(state) != null && old(state.ValueRef(W)).Value?
                                    && old(y.Source(W)) == old(state.Source(W))
                                 then Value(left) else old(y.ValueRef(W))
    {
      if state == null {
        return NoState;
      }
      var outcome := state.Take(left, W);
      state := null;
      assert Valid(W);
      got := Yields(outcome);
    }

    /** `next` and `then`: the state moves into the continuation's closure, and the
        subscription is stacked on it or run at once. */
    method Attach(id: nat, ghost W: set<SharedState>) returns (parent: SharedState?)
      requires Settled(W) && (state != null ==> state in W)
      modifies this, if state == null then {} else {state}
      ensures Settled(W) && state == null && parent == old(state)
      ensures parent != null ==> parent.storage == old(state.storage) && parent.executed == old(state.executed)
      ensures parent != null ==>
                if parent.executed then parent.called == old(state.called) + [id] && parent.conts == old(state.conts)
                else parent.called == old(state.called) && parent.conts == [User(id)] + old(state.conts)
    {
      parent := state;
      state := null;
      assert Settled(W);
      if parent != null {
        parent.Push(User(id), W);
      }
    }

    /** detach(): the callback left on the stack of a state not ready holds that very state; the
        future moves on. */
    method Detach(ghost W: set<SharedState>) returns (moved: Future?)
      requires Settled(W) && (state != null ==> state in W)
      modifies this, if state == null then {} else {state}
      ensures Settled(W) && state == null
      ensures if old(state) == null then moved == null else moved != null && fresh(moved) && moved.state == old(state)
      ensures old(state) != null && !old(state.executed) ==>
                old(state).conts == [Keep(old(state))] + old(state.conts)
      ensures old(state) != null && old(state.executed) ==> old(state).conts == []
    {
      var s := state;
      state := null;
      assert Settled(W);
      if s == null {
        return null;
      }
      assert StateOk(s, W);
      s.Push(Keep(s), W);
      moved := new Future(s);
    }
  }

  /** The storages of the ready states at some moment. */
  ghost function Written(W: set<SharedState>): map<SharedState, Storage>
    reads W
  {
    map s | s in Ready(W) :: s.storage
  }

  /** What these storages show for x, following at most `depth` of them. */
  ghost function Seen(written: map<SharedState, Storage>, x: SharedState, depth: nat): Option<Outcome>
    decreases depth
  {
    if depth == 0 || x !in written then None
    else match written[x]
      case Empty => None
      case HasValue(v) => Some(Value(v))
      case HasError(e) => Some(Failure(e))
      case HasInner(inner) => Seen(written, inner, depth - 1)
  }

  /** The recursion gets through the inner states of a ready state in as many steps as there are of
      them, and one more. */
  lemma {:induction false} SeenNow(x: SharedState, W: set<SharedState>, depth: nat)
    requires Valid(W) && x in W && x.executed && x.behind < depth
    ensures Seen(Written(W), x, depth) == Some(x.ValueRef(W))
    decreases depth
  {
    assert StateOk(x, W);
    if x.storage.HasInner? {
      SeenNow(x.storage.inner, W, depth - 1);
    }
  }

  /** The state in which the chain from x ends, as these storages tell. */
  ghost function End(written: map<SharedState, Storage>, x: SharedState, depth: nat): Option<SharedState>
    decreases depth
  {
    if depth == 0 || x !in written then None
    else match written[x]
      case HasInner(inner) => End(written, inner, depth - 1)
      case _ => Some(x)
  }

  lemma {:induction false} EndNow(x: SharedState, W: set<SharedState>, depth: nat)
    requires Valid(W) && x in W && x.executed && x.behind < depth
    ensures End(Written(W), x, depth) == Some(x.Source(W))
    decreases depth
  {
    assert StateOk(x, W);
    if x.storage.HasInner? {
      EndNow(x.storage.inner, W, depth - 1);
    }
  }

  lemma AllSeen(W: set<SharedState>)
    requires Valid(W)
    ensures forall y | y in Ready(W) ::
              Seen(Written(W), y, y.behind + 1) == Some(y.ValueRef(W))
              && End(Written(W), y, y.behind + 1) == Some(y.Source(W))
  {
    forall y | y in Ready(W)
      ensures Seen(Written(W), y, y.behind + 1) == Some(y.ValueRef(W))
      ensures End(Written(W), y, y.behind + 1) == Some(y.Source(W))
    {
      SeenNow(y, W, y.behind + 1);
      EndNow(y, W, y.behind + 1);
    }
  }

  lemma {:induction false} SourceInside(x: SharedState, W: set<SharedState>)
    requires Valid(W) && x in W && x.executed
    ensures x.Source(W) in W && x.Source(W).executed && !x.Source(W).storage.HasInner?
    ensures x.ValueRef(W).Value? <==> x.Source(W).storage.HasValue?
    decreases x.behind
  {
    assert StateOk(x, W);
    if x.storage.HasInner? {
      SourceInside(x.storage.inner, W);
    }
  }

  /** What changes for a reader of x when the value in `source` is moved out. */
  lemma {:induction false} MovedOut(written: map<SharedState, Storage>, x: SharedState, source: SharedState,
                                    left: int, depth: nat)
    requires source in written && written[source].HasValue?
    ensures Seen(written[source := Storage.HasValue(left)], x, depth) ==
            if End(written, x, depth) == Some(source) then Some(Value(left)) else Seen(written, x, depth)
    decreases depth
  {
    if depth > 0 && x in written && written[x].HasInner? {
      MovedOut(written, written[x].inner, source, left, depth - 1);
    }
  }

  lemma AfterMove(before: map<SharedState, Storage>, y: SharedState, source: SharedState, left: int,
                  W: set<SharedState>)
    requires Valid(W) && y in W && y.executed && source in before && before[source].HasValue?
    requires Written(W) == before[source := Storage.HasValue(left)]
    ensures Some(y.ValueRef(W)) == if End(before, y, y.behind + 1) == Some(source) then Some(Value(left))
                                   else Seen(before, y, y.behind + 1)
  {
    MovedOut(before, y, source, left, y.behind + 1);
    SeenNow(y, W, y.behind + 1);
  }

  /** All that the operations above can do to a state that was ready with storage `was`: it stays
      ready and keeps its storage, unless it is one of those whose value was moved out. */
  ghost predicate Kept(y: SharedState, was: Storage, movedOut: set<SharedState>)
    reads y
  {
    y.executed && (y.storage == was || (y in movedOut && was.HasValue? && y.storage.HasValue?))
  }

  /** What a future has once shown it shows forever, through any number of inner states, unless the
      value was moved out of the very state its chain ends in; an exception even then. */
  lemma {:induction false} OutcomeFinal(earlier: map<SharedState, Storage>, movedOut: set<SharedState>, x: SharedState,
                                        W: set<SharedState>, depth: nat)
    requires Valid(W) && forall y | y in earlier :: y in W && Kept(y, earlier[y], movedOut)
    requires Seen(earlier, x, depth).Some?
    ensures x in W && x.executed && End(earlier, x, depth) == Some(x.Source(W))
    ensures x.Source(W) !in movedOut || Seen(earlier, x, depth).value.Failure? ==>
              Seen(earlier, x, depth) == Some(x.ValueRef(W))
    decreases depth
  {
    assert Kept(x, earlier[x], movedOut) && StateOk(x, W);
    if x.storage.HasInner? {
      OutcomeFinal(earlier, movedOut, x.storage.inner, W, depth - 1);
    }
  }

  /** A ready outer state and its inner state show the same outcome, and an outer state is
      ready exactly when its inner one is. */
  lemma Delegation(x: SharedState, W: set<SharedState>)
    requires Settled(W) && x in W && x.alive && x.storage.HasInner?
    ensures x.storage.inner in W
    ensures x.executed <==> x.storage.inner.executed
    ensures x.executed ==> x.ValueRef(W) == x.storage.inner.ValueRef(W)
  {
    assert StateOk(x, W);
    assert x !in Unsettled(W);
  }
}
