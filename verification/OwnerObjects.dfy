/** Promises and packaged tasks as objects that hold a shared state strongly, weakly or not
    at all. Every method is proved against the functions of the module Owners, whose runs are
    studied there. */
module OwnerObjects {
  import opened Outcomes
  import opened StoredResults
  import O = Owners

  class Block {
    const kind: O.Kind
    var strong: nat
    var stored: Stored
    var executed: bool
    var func: bool
    var calls: nat
    var writes: nat
    var abandoned: bool
    var cancels: nat

    ghost function View(): O.St
      reads this
    {
      O.St(kind, strong, stored, executed, func, calls, writes, abandoned, cancels)
    }

    /** A result that is not delegated was published when it was written. */
    predicate Valid()
      reads this
    {
      && (stored.HasValue? || stored.HasError? ==> executed)
      && (stored.Empty? ==> !executed)
      && (kind.PackagedTask? && func ==> stored.Empty?)
    }

    constructor (kind: O.Kind)
      ensures View() == O.NewState(kind) && Valid()
    {
      this.kind := kind;
      strong, stored, executed, func := 1, Stored.Empty, false, kind.PackagedTask?;
      calls, writes, abandoned, cancels := 0, 0, false, 0;
    }

    /** One shared_ptr goes. */
    method Release()
      requires Valid() && strong > 0
      modifies this
      ensures Valid() && View() == O.Released(old(View()))
      ensures strong == old(strong) - 1
      ensures cancels == old(cancels) + if strong == 0 && kind.CancellablePromise? && !executed then 1 else 0
    {
      strong := strong - 1;
      if strong == 0 && kind.CancellablePromise? && !executed {
        cancels := cancels + 1;
      }
    }

    /** emplace, set_exception and unwrap. */
    method Store(x: Stored) returns (reply: O.Reply)
      requires Valid() && !x.Empty? && !func
      modifies this
      ensures Valid()
      ensures if old(stored).Empty? then reply.Ok? && View() == O.Completed(old(View()), x)
              else reply.AlreadySatisfied? && View() == old(View())
    {
      if !stored.Empty? {
        return O.AlreadySatisfied;
      }
      stored := x;
      writes := writes + 1;
      if !x.HasInner? {
        executed := true;
      }
      return O.Ok;
    }

    method Abandon()
      requires Valid() && !func
      modifies this
      ensures Valid() && View() == O.Abandoned(old(View()))
    {
      if !executed && !stored.HasInner? {
        var reply := Store(HasError(BrokenPromise));
        abandoned := true;
      }
    }
  }

  datatype Ref = Vacant | Strong(block: Block) | Weak(block: Block)

  /** The owner seen by the specification, where the identity of the state is fixed. */
  function Shape(r: Ref): O.Owner {
    match r case Vacant => O.Vacant case Strong(_) => O.Owner.Strong(0) case Weak(_) => O.Owner.Weak(0)
  }

  ghost predicate Sound(r: Ref, task: bool)
    reads if r.Vacant? then {} else {r.block}
  {
    !r.Vacant? ==>
      r.block.Valid() && (r.Strong? ==> r.block.strong > 0) && (r.block.kind.PackagedTask? <==> task)
      && (!task ==> !r.block.func)
  }

  class Promise {
    var state: Ref

    constructor (cancellable: bool)
      ensures state.Strong? && fresh(state.block) && Sound(state, false)
      ensures state.block.View() == O.NewState(if cancellable then O.CancellablePromise else O.PlainPromise)
    {
      var block := new Block(if cancellable then O.CancellablePromise else O.PlainPromise);
      state := Ref.Strong(block);
    }

    /** The strong pointer turns weak and the future takes over its count. */
    method GetFuture() returns (reply: O.Reply, future: Block?)
      requires Sound(state, false)
      modifies this
      ensures match old(state)
              case Vacant => reply.NoState? && future == null && state == old(state)
              case Weak(_) => reply.AlreadyRetrieved? && future == null && state == old(state)
              case Strong(block) => reply.Ok? && future == block && state == Ref.Weak(block)
    {
      match state
      case Vacant => return O.NoState, null;
      case Weak(_) => return O.AlreadyRetrieved, null;
      case Strong(block) =>
        state := Ref.Weak(block);
        return O.Ok, block;
    }

    /** set_value and set_exception; nothing happens when the state is gone. */
    method Set(x: Stored) returns (reply: O.Reply)
      requires Sound(state, false) && (x.HasValue? || x.HasError?)
      modifies if state.Vacant? then {} else {state.block}
      ensures Sound(state, false) && (state.Vacant? ==> reply.NoState?)
      ensures !state.Vacant? ==> (state.block.View(), reply) == O.SetOn(old(state.block.View()), x)
      ensures !state.Vacant? && state.block.strong > 0 && old(state.block.stored).Empty? ==>
                reply.Ok? && state.block.stored == x && state.block.executed
      ensures !state.Vacant? && state.block.strong > 0 && !old(state.block.stored).Empty? ==>
                reply.AlreadySatisfied? && state.block.View() == old(state.block.View())
      ensures !state.Vacant? && state.block.strong == 0 ==> reply.Ok? && state.block.View() == old(state.block.View())
    {
      if state.Vacant? {
        return O.NoState;
      }
      if state.block.strong == 0 {
        return O.Ok;
      }
      reply := state.block.Store(x);
    }

    /** is_awaiten: false exactly when the state was freed. */
    method IsAwaiten() returns (reply: O.Reply, awaiten: bool)
      requires Sound(state, false)
      ensures state.Vacant? <==> reply.NoState?
      ensures !state.Vacant? ==> (awaiten <==> state.block.View().strong > 0)
    {
      match state
      case Vacant => return O.NoState, false;
      case Strong(_) => return O.Ok, true;
      case Weak(block) => return O.Ok, block.strong > 0;
    }

    /** The destructor: abandon() looks only behind a weak pointer, then the pointer goes. */
    method Destroy()
      requires Sound(state, false)
      modifies this, if state.Vacant? then {} else {state.block}
      ensures state.Vacant?
      ensures !old(state).Vacant? ==>
                old(state).block.Valid()
                && old(state).block.View() == O.Forsaken(old(state.block.View()), Shape(old(state)))
      ensures old(state).Weak? && old(state.block.strong) > 0 && old(state.block.stored).Empty? ==>
                old(state).block.stored == HasError(BrokenPromise) && old(state).block.executed
      ensures old(state).Strong? ==>
                old(state).block.stored == old(state.block.stored)
                && old(state).block.strong == old(state.block.strong) - 1
    {
      match state {
        case Vacant =>
        case Weak(block) => if block.strong > 0 { block.Abandon(); }
        case Strong(block) => block.Release();
      }
      state := Ref.Vacant;
    }

    /** operator=(promise&&). */
    method Assign(rhs: Promise)
      requires rhs != this && Sound(state, false) && Sound(rhs.state, false)
      requires state.Vacant? || rhs.state.Vacant? || state.block != rhs.state.block
      modifies this, rhs, if state.Vacant? then {} else {state.block}
      ensures state == old(rhs.state) && rhs.state.Vacant?
      ensures !old(state).Vacant? ==>
                old(state).block.View() == O.Forsaken(old(state.block.View()), Shape(old(state)))
      ensures Sound(state, false)
    {
      Destroy();
      state := rhs.state;
      rhs.state := Ref.Vacant;
    }
  }

  class PackagedTask {
    var state: Ref

    constructor ()
      ensures state.Strong? && fresh(state.block) && Sound(state, true)
      ensures state.block.View() == O.NewState(O.PackagedTask)
    {
      var block := new Block(O.PackagedTask);
      state := Ref.Strong(block);
    }

    method GetFuture() returns (reply: O.Reply, future: Block?)
      requires Sound(state, true)
      modifies this
      ensures match old(state)
              case Vacant => reply.NoState? && future == null && state == old(state)
              case Weak(_) => reply.AlreadyRetrieved? && future == null && state == old(state)
              case Strong(block) => reply.Ok? && future == block && state == Ref.Weak(block)
    {
      match state
      case Vacant => return O.NoState, null;
      case Weak(_) => return O.AlreadyRetrieved, null;
      case Strong(block) =>
        state := Ref.Weak(block);
        return O.Ok, block;
    }

    /** operator(): the function is cleaned when run returns, and a second call is refused. */
    method Call(result: Stored) returns (reply: O.Reply)
      requires Sound(state, true) && !result.Empty?
      modifies if state.Vacant? then {} else {state.block}
      ensures Sound(state, true) && (state.Vacant? ==> reply.NoState?)
      ensures !state.Vacant? ==> (state.block.View(), reply) == O.CallOn(old(state.block.View()), result)
      ensures !state.Vacant? && state.block.strong > 0 && old(state.block.func) ==>
                reply.Ok? && state.block.stored == result && !state.block.func
                && state.block.calls == old(state.block.calls) + 1 && (state.block.executed <==> !result.HasInner?)
      ensures !state.Vacant? && state.block.strong > 0 && !old(state.block.func) ==>
                reply.AlreadySatisfied? && state.block.View() == old(state.block.View())
      ensures !state.Vacant? && state.block.strong == 0 ==> reply.Ok? && state.block.View() == old(state.block.View())
    {
      if state.Vacant? {
        return O.NoState;
      }
      var block := state.block;
      if block.strong == 0 {
        return O.Ok;
      }
      if !block.func {
        return O.AlreadySatisfied;
      }
      block.calls := block.calls + 1;
      block.func := false;
      reply := block.Store(result);
    }

    /** The destructor locks whatever it holds, drops the function and abandons the state. */
    method Destroy()
      requires Sound(state, true)
      modifies this, if state.Vacant? then {} else {state.block}
      ensures state.Vacant?
      ensures !old(state).Vacant? ==>
                old(state).block.Valid()
                && old(state).block.View() == O.Forsaken(old(state.block.View()), Shape(old(state)))
      ensures !old(state).Vacant? && old(state.block.strong) > 0 ==>
                && !old(state).block.func
                && (old(state.block.stored).Empty? ==>
                      old(state).block.stored == HasError(BrokenPromise) && old(state).block.executed)
                && old(state).block.strong == old(state.block.strong) - if old(state).Strong? then 1 else 0
    {
      if !state.Vacant? {
        var block := state.block;
        if block.strong > 0 {
          block.func := false;
          block.Abandon();
        }
        if state.Strong? {
          block.Release();
        }
      }
      state := Ref.Vacant;
    }

    method Assign(rhs: PackagedTask)
      requires rhs != this && Sound(state, true) && Sound(rhs.state, true)
      requires state.Vacant? || rhs.state.Vacant? || state.block != rhs.state.block
      modifies this, rhs, if state.Vacant? then {} else {state.block}
      ensures state == old(rhs.state) && rhs.state.Vacant?
      ensures !old(state).Vacant? ==>
                old(state).block.View() == O.Forsaken(old(state.block.View()), Shape(old(state)))
      ensures Sound(state, true)
    {
      Destroy();
      state := rhs.state;
      rhs.state := Ref.Vacant;
    }
  }
}
