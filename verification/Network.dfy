/** The network of shared states joined by continuations and by unwrapping.

    A state of the machine holds the shared states (`cells`), everything that is under
    way or held somewhere (`act`), and the strong reference counts. One step is one
    atomic operation: a completed push, the exchange that consumes a stack, one lock of a
    weak pointer together with the fields its owner alone may touch, or the destructor of
    a state whose count has dropped to zero. */
module NetworkModel {
  import opened Outcomes

  type Id = nat

  /** How a user function ended. The two future cases are the unwrapped ones. */
  datatype CallResult = Returned(v: int) | Threw(e: Exn) | ReturnedFuture(id: Id) | ReturnedInvalid

  /** What a shared state is for. `Promised` is completed by its promise: with
      `Some(o)`, where `Failure(BrokenPromise)` is what an abandoned promise leaves, or
      never. `Continued` is the state made by `next` (`skipsErrors`) or `then` on
      `parent`; `runs` says whether its executor runs the posted task or destroys it. */
  datatype Def =
    | Promised(result: Option<Outcome>)
    | Continued(parent: Id, skipsErrors: bool, f: Outcome -> CallResult, runs: bool)

  type Net = seq<Def>

  datatype Storage = Empty | HasValue(v: int) | HasInner(inner: Id) | HasError(e: Exn)

  /** The callbacks put on a stack: the weak subscription of a continuation state, the
      weak forwarding of an outer state, and the self reference `detach` leaves. */
  datatype Continuation = Schedule(c: Id) | Forward(outer: Id) | Keep(self: Id)

  datatype Stack = Open(conts: seq<Continuation>) | Consumed

  datatype Life = Unborn | Alive | Destroyed

  /** `exec` and `action` are the two `either` fields of cnt_state; `action` carries the
      strong parent pointer its closure captured. `calls` counts starts of the user
      function and `readyAt` is the time at which the stack was consumed. */
  datatype Cell = Cell(life: Life, storage: Storage, stack: Stack, exec: bool,
                       action: Option<Id>, calls: nat, readyAt: nat)

  const BLANK := Cell(Unborn, Empty, Open([]), false, None, 0, 0)

  /** Everything outside the cells that is going on or that owns a reference.
      `Temp` is a shared_ptr local to some call, about to be dropped. A running function of
    `next` leaves the parent in the closure (`keeps`); `then` hands it over as a future. */
  datatype Activity =
    | World
    | Handle(id: Id)
    | Temp(id: Id)
    | Owner(id: Id)
    | Subscribing(c: Id)
    | Linking(outer: Id, inner: Id)
    | Invoking(k: Continuation)
    | Task(c: Id)
    | Running(c: Id, parent: Id, keeps: bool)
    | Executing(id: Id)
    | Draining(id: Id, ks: seq<Continuation>)

  datatype State = State(cells: seq<Cell>, act: seq<Activity>, strong: multiset<Id>, clock: nat)

  datatype Step =
    | MakePromise(i: Id)
    | Attach(k: nat, c: Id, shared: bool)
    | Copy(k: nat)
    | Drop(k: nat)
    | Detach(k: nat)
    | Complete(k: nat)
    | Push(k: nat)
    | Execute(k: nat)
    | Drain(k: nat)
    | Invoke(k: nat)
    | RunTask(k: nat)
    | Return(k: nat, depth: nat)
    | Destroy(i: Id)

  function Initial(net: Net): State {
    State(seq(|net|, _ => BLANK), [World], multiset{}, 0)
  }

  /** The recursion of `value_ref` and `exception` through inner storage, cut at a depth;
      None when the depth is used up or a state is met that is not ready. */
  function Follow(cells: seq<Cell>, i: Id, depth: nat): Option<Outcome>
    decreases depth
  {
    if depth == 0 || i >= |cells| || cells[i].stack.Open? then None
    else match cells[i].storage
      case Empty => None
      case HasValue(v) => Some(Value(v))
      case HasError(e) => Some(Failure(e))
      case HasInner(j) => Follow(cells, j, depth - 1)
  }

  /** What the decorated function does with the parent's outcome: `next` passes an
      exception on without calling the user function. */
  function Call(d: Def, o: Outcome): CallResult
    requires d.Continued?
  {
    if d.skipsErrors && o.Failure? then Threw(o.e) else d.f(o)
  }

  /** Whether locking a weak pointer to i yields the state. */
  predicate Lockable(s: State, i: Id) { s.strong[i] > 0 }

  function Splice(act: seq<Activity>, k: nat, new_: seq<Activity>): seq<Activity>
    requires k < |act|
  {
    act[..k] + new_ + act[k + 1..]
  }

  /** The common shape of every step: one activity is replaced, one cell rewritten. */
  function Update(s: State, k: nat, new_: seq<Activity>, i: Id, cell: Cell, strong: multiset<Id>): State
    requires k < |s.act| && i < |s.cells|
  {
    State(s.cells[i := cell], Splice(s.act, k, new_), strong, s.clock)
  }

  predicate Enabled(net: Net, s: State, step: Step) {
    && |s.cells| == |net|
    && match step
       case MakePromise(i) =>
         i < |net| && net[i].Promised? && s.cells[i].life.Unborn? && 0 < |s.act| && s.act[0].World?
       case Attach(k, c, _) =>
         && k < |s.act| && c < |net| && net[c].Continued? && s.cells[c].life.Unborn?
         && s.act[k] == Handle(net[c].parent)
       case Copy(k) => k < |s.act| && s.act[k].Handle?
       case Drop(k) => k < |s.act| && (s.act[k].Handle? || s.act[k].Temp?)
       case Detach(k) => k < |s.act| && s.act[k].Handle? && s.act[k].id < |net|
       case Complete(k) =>
         && k < |s.act| && s.act[k].Owner? && s.act[k].id < |net|
         && net[s.act[k].id].Promised? && net[s.act[k].id].result.Some?
       case Push(k) =>
         && k < |s.act|
         && (match s.act[k]
             case Subscribing(c) => c < |net| && net[c].Continued? && net[c].parent < |net|
             case Linking(o, j) => j < |net|
             case _ => false)
       case Execute(k) => k < |s.act| && s.act[k].Executing? && s.act[k].id < |net|
       case Drain(k) => k < |s.act| && s.act[k].Draining?
       case Invoke(k) =>
         && k < |s.act| && s.act[k].Invoking?
         && (s.act[k].k.Schedule? ==> s.act[k].k.c < |net|)
       case RunTask(k) =>
         && k < |s.act| && s.act[k].Task? && s.act[k].c < |net| && net[s.act[k].c].Continued?
         && (Lockable(s, s.act[k].c) ==> s.cells[s.act[k].c].action.Some?)
       case Return(k, depth) =>
         && k < |s.act| && s.act[k].Running? && s.act[k].c < |net| && net[s.act[k].c].Continued?
         && Follow(s.cells, s.act[k].parent, depth).Some?
         && var r := Call(net[s.act[k].c], Follow(s.cells, s.act[k].parent, depth).value);
            r.ReturnedFuture? ==> Handle(r.id) in s.act
       case Destroy(i) => i < |net| && s.cells[i].life.Alive? && s.strong[i] == 0
  }

  function Opened(stack: Stack, k: Continuation): Stack
    requires stack.Open?
  {
    Open([k] + stack.conts)
  }

  function StorageOf(o: Outcome): Storage {
    match o
    case Value(v) => HasValue(v)
    case Failure(e) => HasError(e)
  }

  /** make_promise: the promise holds the state weakly, the future strongly. */
  function DoMakePromise(net: Net, s: State, i: Id): State
    requires Enabled(net, s, MakePromise(i))
  {
    Update(s, 0, [World, Owner(i), Handle(i)], i, BLANK.(life := Alive), s.strong + multiset{i})
  }

  /** `next`/`then`: the handle moves into the action (`shared` leaves a copy behind). */
  function DoAttach(net: Net, s: State, k: nat, c: Id, shared: bool): State
    requires Enabled(net, s, Attach(k, c, shared))
  {
    var p := net[c].parent;
    Update(s, k, if shared then [Subscribing(c), Handle(p)] else [Subscribing(c)], c,
           BLANK.(life := Alive, exec := true, action := Some(p)),
           s.strong + (if shared then multiset{c, p} else multiset{c}))
  }

  /** `detach` pushes a callback that captures the state itself; on a consumed stack the
      callback runs, and is destroyed, at once. */
  function DoDetach(net: Net, s: State, k: nat): State
    requires Enabled(net, s, Detach(k))
  {
    var i := s.act[k].id;
    if s.cells[i].stack.Consumed? then s
    else
      Update(s, k, [s.act[k]], i, s.cells[i].(stack := Opened(s.cells[i].stack, Keep(i))), s.strong + multiset{i})
  }

  /** set_value, set_exception or the destructor of a promise: all act through lock(). */
  function DoComplete(net: Net, s: State, k: nat): State
    requires Enabled(net, s, Complete(k))
  {
    var p := s.act[k].id;
    if !Lockable(s, p) then Update(s, k, [], p, s.cells[p], s.strong)
    else
      Update(s, k, [Executing(p)], p, s.cells[p].(storage := StorageOf(net[p].result.value)), s.strong + multiset{p})
  }

  /** continuations_stack::push: a failed push invokes the callback on the spot. */
  function DoPush(net: Net, s: State, k: nat): State
    requires Enabled(net, s, Push(k))
  {
    match s.act[k]
    case Subscribing(c) =>
      var p := net[c].parent;
      if s.cells[p].stack.Open? then
        Update(s, k, [Handle(c)], p, s.cells[p].(stack := Opened(s.cells[p].stack, Schedule(c))), s.strong)
      else
        Update(s, k, [Invoking(Schedule(c)), Handle(c)], p, s.cells[p], s.strong)
    case Linking(o, j) =>
      if s.cells[j].stack.Open? then
        Update(s, k, [Temp(o), Temp(j)], j, s.cells[j].(stack := Opened(s.cells[j].stack, Forward(o))), s.strong)
      else
        Update(s, k, [Invoking(Forward(o)), Temp(o), Temp(j)], j, s.cells[j], s.strong)
  }

  /** continuations_stack::execute: the exchange. A second consume would yield nothing. */
  function DoExecute(net: Net, s: State, k: nat): State
    requires Enabled(net, s, Execute(k))
  {
    var i := s.act[k].id;
    match s.cells[i].stack
    case Consumed => Update(s, k, [Draining(i, [])], i, s.cells[i], s.strong)
    case Open(ks) =>
      Update(s, k, [Draining(i, ks)], i, s.cells[i].(stack := Consumed, readyAt := s.clock), s.strong)
        .(clock := s.clock + 1)
  }

  /** The loop of `execute` takes the next callback; at the end the frame lets i go. */
  function DoDrain(net: Net, s: State, k: nat): State
    requires Enabled(net, s, Drain(k))
  {
    var i, ks := s.act[k].id, s.act[k].ks;
    if ks == [] then s.(act := Splice(s.act, k, []), strong := s.strong - multiset{i})
    else s.(act := Splice(s.act, k, [Invoking(ks[0]), Draining(i, ks[1..])]))
  }

  function DoInvoke(net: Net, s: State, k: nat): State
    requires Enabled(net, s, Invoke(k))
  {
    match s.act[k].k
    case Schedule(c) =>
      if !Lockable(s, c) then s.(act := Splice(s.act, k, []))
      else Update(s, k, [Task(c)], c, s.cells[c].(exec := false), s.strong)
    case Forward(o) =>
      if !Lockable(s, o) then s.(act := Splice(s.act, k, []))
      else s.(act := Splice(s.act, k, [Executing(o)]), strong := s.strong + multiset{o})
    case Keep(i) => s.(act := Splice(s.act, k, []), strong := s.strong - multiset{i})
  }

  /** The function of c starts: the function given to `then` receives the future of the
      parent and may keep it, drop it, continue it or return it like any other. */
  function Started(d: Def, c: Id, p: Id): seq<Activity>
    requires d.Continued?
  {
    if d.skipsErrors then [Running(c, p, true)] else [Running(c, p, false), Handle(p)]
  }

  /** What is left of the closure when the function has returned. */
  function Closure(a: Activity): seq<Activity>
    requires a.Running?
  {
    if a.keeps then [Temp(a.parent)] else []
  }

  /** The executor runs the posted cnt_action, or destroys it. */
  function DoRunTask(net: Net, s: State, k: nat): State
    requires Enabled(net, s, RunTask(k))
  {
    var c := s.act[k].c;
    if !Lockable(s, c) then s.(act := Splice(s.act, k, []))
    else
      var cell, p := s.cells[c], s.cells[c].action.value;
      if net[c].runs then
        Update(s, k, Started(net[c], c, p), c, cell.(action := None, calls := cell.calls + 1), s.strong + multiset{c})
      else
        Update(s, k, [Executing(c), Temp(p)], c, cell.(action := None, storage := HasError(BrokenPromise)),
               s.strong + multiset{c})
  }

  /** The user function ends and set_state_value/unwrap write its result. */
  function DoReturn(net: Net, s: State, k: nat, depth: nat): State
    requires Enabled(net, s, Return(k, depth))
  {
    var c, p := s.act[k].c, s.act[k].parent;
    match Call(net[c], Follow(s.cells, p, depth).value)
    case Returned(v) =>
      Update(s, k, [Executing(c)] + Closure(s.act[k]), c, s.cells[c].(storage := HasValue(v)), s.strong)
    case Threw(e) =>
      Update(s, k, [Executing(c)] + Closure(s.act[k]), c, s.cells[c].(storage := HasError(e)), s.strong)
    case ReturnedInvalid =>
      Update(s, k, [Executing(c)] + Closure(s.act[k]), c, s.cells[c].(storage := HasError(BrokenPromise)), s.strong)
    case ReturnedFuture(j) =>
      Update(s, k, [Linking(c, j)] + Closure(s.act[k]), c, s.cells[c].(storage := HasInner(j)),
             s.strong + multiset{j, j})
  }

  /** The strong references a cell owns while it is alive. */
  function Owned(cell: Cell): multiset<Id> {
    (if cell.action.Some? then multiset{cell.action.value} else multiset{}) +
    (if cell.storage.HasInner? then multiset{cell.storage.inner} else multiset{})
  }

  /** The destructor: the owned references and the nodes still on the stack go. */
  function DoDestroy(net: Net, s: State, i: Id): State
    requires Enabled(net, s, Destroy(i))
  {
    var cell := s.cells[i];
    s.(cells := s.cells[i := cell.(life := Destroyed, stack := if cell.stack.Open? then Open([]) else Consumed)],
       strong := s.strong - Owned(cell))
  }

  function DoCopy(s: State, k: nat): State
    requires k < |s.act| && s.act[k].Handle?
  {
    s.(act := Splice(s.act, k, [s.act[k], s.act[k]]), strong := s.strong + multiset{s.act[k].id})
  }

  function DoDrop(s: State, k: nat): State
    requires k < |s.act| && (s.act[k].Handle? || s.act[k].Temp?)
  {
    s.(act := Splice(s.act, k, []), strong := s.strong - multiset{s.act[k].id})
  }

  function Apply(net: Net, s: State, step: Step): (r: State)
    requires Enabled(net, s, step)
  {
    match step
    case MakePromise(i) => DoMakePromise(net, s, i)
    case Attach(k, c, shared) => DoAttach(net, s, k, c, shared)
    case Copy(k) => DoCopy(s, k)
    case Drop(k) => DoDrop(s, k)
    case Detach(k) => DoDetach(net, s, k)
    case Complete(k) => DoComplete(net, s, k)
    case Push(k) => DoPush(net, s, k)
    case Execute(k) => DoExecute(net, s, k)
    case Drain(k) => DoDrain(net, s, k)
    case Invoke(k) => DoInvoke(net, s, k)
    case RunTask(k) => DoRunTask(net, s, k)
    case Return(k, depth) => DoReturn(net, s, k, depth)
    case Destroy(i) => DoDestroy(net, s, i)
  }

  /** A schedule is any list of steps; a step that is not enabled is passed over. */
  function Run(net: Net, s: State, steps: seq<Step>): (r: State)
    ensures |r.cells| == |s.cells|
    decreases |steps|
  {
    if steps == [] then s
    else Run(net, if Enabled(net, s, steps[0]) then Apply(net, s, steps[0]) else s, steps[1..])
  }
}
