/** How many futures are held on each state: what every step gives the program and takes from it. */
module Futures {
  import opened Outcomes
  import opened NetworkModel
  import opened NetworkSafety
  import opened NetworkSteps
  import opened Confluence

  function Of(a: Activity, i: Id): nat { if a == Handle(i) then 1 else 0 }

  function Among(act: seq<Activity>, i: Id): nat {
    if act == [] then 0 else Of(act[0], i) + Among(act[1..], i)
  }

  /** The futures held on state i. */
  function Held(s: State, i: Id): nat { Among(s.act, i) }

  /** Made and copied futures, the future `next` and `then` return, and the one handed to a
      function of `then` are gained; a future dropped, or moved into a continuation, is lost. */
  function Gained(net: Net, s: State, step: Step, i: Id): int
    requires Enabled(net, s, step)
  {
    match step
    case MakePromise(j) => if j == i then 1 else 0
    case Copy(k) => if s.act[k] == Handle(i) then 1 else 0
    case Drop(k) => if s.act[k] == Handle(i) then -1 else 0
    case Attach(_, c, shared) => if net[c].parent == i && !shared then -1 else 0
    case Push(k) => if s.act[k] == Subscribing(i) then 1 else 0
    case RunTask(k) =>
      var c := s.act[k].c;
      if Lockable(s, c) && net[c].runs && !net[c].skipsErrors && net[c].parent == i then 1 else 0
    case _ => 0
  }

  lemma {:induction false} AmongAppend(a: seq<Activity>, b: seq<Activity>, i: Id)
    ensures Among(a + b, i) == Among(a, i) + Among(b, i)
  {
    if a == [] {
      assert a + b == b;
    } else {
      assert (a + b)[1..] == a[1..] + b;
      AmongAppend(a[1..], b, i);
    }
  }

  function Few(new_: seq<Activity>, i: Id): nat {
    (if |new_| > 0 then Of(new_[0], i) else 0) + (if |new_| > 1 then Of(new_[1], i) else 0)
    + if |new_| > 2 then Of(new_[2], i) else 0
  }

  lemma FewAmong(new_: seq<Activity>, i: Id)
    requires |new_| <= 3
    ensures Among(new_, i) == Few(new_, i)
  {
    if |new_| > 1 {
      assert new_[1..][1..] == new_[2..];
    }
  }

  lemma SplitAmong(act: seq<Activity>, k: nat, i: Id)
    requires k < |act|
    ensures Among(act, i) == Among(act[..k], i) + Of(act[k], i) + Among(act[k + 1..], i)
  {
    AmongAppend(act[..k], act[k..], i);
    assert act == act[..k] + act[k..];
    assert act[k..][1..] == act[k + 1..];
  }

  /** A step that puts at most three activities in the place of one. */
  lemma SpliceHolds(act: seq<Activity>, k: nat, new_: seq<Activity>, i: Id)
    requires k < |act| && |new_| <= 3
    ensures Among(Splice(act, k, new_), i) == Among(act, i) - Of(act[k], i) + Few(new_, i)
  {
    SplitAmong(act, k, i);
    FewAmong(new_, i);
    AmongAppend(act[..k] + new_, act[k + 1..], i);
    AmongAppend(act[..k], new_, i);
  }

  lemma PushGains(net: Net, s: State, k: nat, i: Id)
    requires Enabled(net, s, Push(k))
    ensures Held(DoPush(net, s, k), i) == Held(s, i) + Gained(net, s, Push(k), i)
  {
    match s.act[k]
    case Subscribing(c) =>
      SpliceHolds(s.act, k, if s.cells[net[c].parent].stack.Open? then [Handle(c)] else [Invoking(Schedule(c)), Handle(c)], i);
    case Linking(o, j) =>
      SpliceHolds(s.act, k, if s.cells[j].stack.Open? then [Temp(o), Temp(j)] else [Invoking(Forward(o)), Temp(o), Temp(j)], i);
  }

  lemma InvokeGains(net: Net, s: State, k: nat, i: Id)
    requires Enabled(net, s, Invoke(k))
    ensures Held(DoInvoke(net, s, k), i) == Held(s, i)
  {
    match s.act[k].k
    case Schedule(c) => SpliceHolds(s.act, k, if Lockable(s, c) then [Task(c)] else [], i);
    case Forward(o) => SpliceHolds(s.act, k, if Lockable(s, o) then [Executing(o)] else [], i);
    case Keep(_) => SpliceHolds(s.act, k, [], i);
  }

  lemma RunTaskGains(net: Net, s: State, k: nat, i: Id)
    requires Safe(net, s) && Enabled(net, s, RunTask(k))
    ensures Held(DoRunTask(net, s, k), i) == Held(s, i) + Gained(net, s, RunTask(k), i)
  {
    var c := s.act[k].c;
    assert ActOk(net, s.cells, s.act[k]);
    if Lockable(s, c) {
      var p := s.cells[c].action.value;
      SpliceHolds(s.act, k, if net[c].runs then Started(net[c], c, p) else [Executing(c), Temp(p)], i);
    } else {
      SpliceHolds(s.act, k, [], i);
    }
  }

  lemma ReturnGains(net: Net, s: State, k: nat, depth: nat, i: Id)
    requires Enabled(net, s, Return(k, depth))
    ensures Held(DoReturn(net, s, k, depth), i) == Held(s, i)
  {
    var c := s.act[k].c;
    match Call(net[c], Follow(s.cells, s.act[k].parent, depth).value)
    case ReturnedFuture(j) => SpliceHolds(s.act, k, [Linking(c, j)] + Closure(s.act[k]), i);
    case _ => SpliceHolds(s.act, k, [Executing(c)] + Closure(s.act[k]), i);
  }

  lemma OwnGains(net: Net, s: State, step: Step, i: Id)
    requires Enabled(net, s, step) && (step.Complete? || step.Execute? || step.Drain? || step.Destroy?)
    ensures Held(Apply(net, s, step), i) == Held(s, i)
  {
    match step
    case Complete(k) =>
      SpliceHolds(s.act, k, if Lockable(s, s.act[k].id) then [Executing(s.act[k].id)] else [], i);
    case Execute(k) =>
      var j := s.act[k].id;
      SpliceHolds(s.act, k, [Draining(j, if s.cells[j].stack.Open? then s.cells[j].stack.conts else [])], i);
    case Drain(k) =>
      var j, ks := s.act[k].id, s.act[k].ks;
      SpliceHolds(s.act, k, if ks == [] then [] else [Invoking(ks[0]), Draining(j, ks[1..])], i);
    case Destroy(_) =>
  }

  lemma UserGains(net: Net, s: State, step: Step, i: Id)
    requires Enabled(net, s, step) && (step.MakePromise? || step.Attach? || step.Copy? || step.Drop? || step.Detach?)
    ensures Held(Apply(net, s, step), i) == Held(s, i) + Gained(net, s, step, i)
  {
    match step
    case MakePromise(j) => SpliceHolds(s.act, 0, [World, Owner(j), Handle(j)], i);
    case Attach(k, c, shared) =>
      SpliceHolds(s.act, k, if shared then [Subscribing(c), Handle(net[c].parent)] else [Subscribing(c)], i);
    case Copy(k) => SpliceHolds(s.act, k, [s.act[k], s.act[k]], i);
    case Drop(k) => SpliceHolds(s.act, k, [], i);
    case Detach(k) => SpliceHolds(s.act, k, [s.act[k]], i);
  }

  /** No step makes, loses or doubles a future otherwise. */
  lemma FuturesAccount(net: Net, s: State, step: Step, i: Id)
    requires Safe(net, s) && Enabled(net, s, step)
    ensures Held(Apply(net, s, step), i) == Held(s, i) + Gained(net, s, step, i)
  {
    match step
    case Push(k) => PushGains(net, s, k, i);
    case Invoke(k) => InvokeGains(net, s, k, i);
    case RunTask(k) => RunTaskGains(net, s, k, i);
    case Return(k, depth) => ReturnGains(net, s, k, depth, i);
    case Complete(_) => OwnGains(net, s, step, i);
    case Execute(_) => OwnGains(net, s, step, i);
    case Drain(_) => OwnGains(net, s, step, i);
    case Destroy(_) => OwnGains(net, s, step, i);
    case _ => UserGains(net, s, step, i);
  }

  /** All that was gained on i along a schedule. */
  function Balance(net: Net, s: State, steps: seq<Step>, i: Id): int
    decreases |steps|
  {
    if steps == [] then 0
    else if !Enabled(net, s, steps[0]) then Balance(net, s, steps[1..], i)
    else Gained(net, s, steps[0], i) + Balance(net, Apply(net, s, steps[0]), steps[1..], i)
  }

  lemma {:induction false} BalanceFrom(net: Net, s: State, steps: seq<Step>, i: Id)
    requires Safe(net, s)
    ensures Held(Run(net, s, steps), i) == Held(s, i) + Balance(net, s, steps, i)
    decreases |steps|
  {
    if steps != [] {
      if Enabled(net, s, steps[0]) {
        StepSafe(net, s, steps[0]);
        FuturesAccount(net, s, steps[0], i);
        BalanceFrom(net, Apply(net, s, steps[0]), steps[1..], i);
      } else {
        BalanceFrom(net, s, steps[1..], i);
      }
    }
  }

  /** A future can be put to use at any time: copied, dropped, detached, or continued by whatever
      continuation of its state there is not yet. */
  lemma HolderMay(net: Net, steps: seq<Step>, k: nat)
    requires k < |Run(net, Initial(net), steps).act| && Run(net, Initial(net), steps).act[k].Handle?
    ensures var s := Run(net, Initial(net), steps);
            Enabled(net, s, Copy(k)) && Enabled(net, s, Drop(k)) && Enabled(net, s, Detach(k))
            && MayBeContinued(net, s, k, s.act[k].id)
  {
    var s := Run(net, Initial(net), steps);
    ReachableSafe(net, steps);
    assert ActOk(net, s.cells, s.act[k]);
  }

  ghost predicate MayBeContinued(net: Net, s: State, k: nat, p: Id) {
    && |s.cells| == |net|
    && forall d: Id | d < |net| && net[d].Continued? && net[d].parent == p && s.cells[d].life.Unborn? ::
      CanAttach(net, s, k, d)
  }

  /** In every run the futures held on a state are those made, copied, returned and handed over
      so far, less those dropped and moved into continuations. */
  lemma FuturesHeld(net: Net, steps: seq<Step>, i: Id)
    ensures Held(Run(net, Initial(net), steps), i) == Balance(net, Initial(net), steps, i)
  {
    InitialSafe(net);
    BalanceFrom(net, Initial(net), steps, i);
    FewAmong(Initial(net).act, i);
  }
}
