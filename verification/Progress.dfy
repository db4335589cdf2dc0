/** Runs of a network end: every step but copying a future and detaching it uses something up, so
    whoever lets the machine run brings it to rest, and every held result that stands for an
    outcome arrives. */
module Progress {
  import opened Outcomes
  import opened NetworkModel
  import opened NetworkLedger
  import opened NetworkSafety
  import opened NetworkSteps
  import opened Denotation
  import opened Confluence

  // The measure

  /** How many steps a callback can still cause once it is called. */
  function CallWeight(k: Continuation): nat {
    match k case Schedule(_) => 12 case Forward(_) => 3 case Keep(_) => 1
  }

  function ListWeight(ks: seq<Continuation>): nat {
    if ks == [] then 0 else CallWeight(ks[0]) + 1 + ListWeight(ks[1..])
  }

  function Weight(a: Activity): nat {
    match a
    case World => 0
    case Handle(_) => 1
    case Temp(_) => 1
    case Owner(_) => 3
    case Subscribing(_) => 15
    case Linking(_, _) => 7
    case Invoking(k) => CallWeight(k)
    case Task(_) => 11
    case Running(_, _, _) => 9
    case Executing(_) => 2
    case Draining(_, ks) => 1 + ListWeight(ks)
  }

  function ActsWeight(act: seq<Activity>): nat {
    if act == [] then 0 else Weight(act[0]) + ActsWeight(act[1..])
  }

  function CellWeight(cell: Cell): nat {
    if cell.life.Unborn? then 17
    else (if cell.life.Alive? then 1 else 0) + if cell.stack.Open? then ListWeight(cell.stack.conts) else 0
  }

  function CellsWeight(cells: seq<Cell>): nat {
    if cells == [] then 0 else CellWeight(cells[0]) + CellsWeight(cells[1..])
  }

  function Measure(s: State): nat { ActsWeight(s.act) + CellsWeight(s.cells) }

  lemma {:induction false} ActsWeightAppend(a: seq<Activity>, b: seq<Activity>)
    ensures ActsWeight(a + b) == ActsWeight(a) + ActsWeight(b)
  {
    if a == [] {
      assert a + b == b;
    } else {
      assert (a + b)[1..] == a[1..] + b;
      ActsWeightAppend(a[1..], b);
    }
  }

  lemma SpliceWeight(act: seq<Activity>, k: nat, new_: seq<Activity>)
    requires k < |act|
    ensures ActsWeight(Splice(act, k, new_)) == ActsWeight(act) - Weight(act[k]) + ActsWeight(new_)
  {
    ActsWeightAppend(act[..k] + new_, act[k + 1..]);
    ActsWeightAppend(act[..k], new_);
    ActsWeightAppend(act[..k], act[k..]);
    assert act == act[..k] + act[k..];
    assert act[k..][1..] == act[k + 1..];
  }

  lemma {:induction false} CellUpdateWeight(cells: seq<Cell>, i: nat, cell: Cell)
    requires i < |cells|
    ensures CellsWeight(cells[i := cell]) == CellsWeight(cells) - CellWeight(cells[i]) + CellWeight(cell)
  {
    if i == 0 {
      assert cells[i := cell][1..] == cells[1..];
    } else {
      assert cells[i := cell][1..] == cells[1..][i - 1 := cell];
      CellUpdateWeight(cells[1..], i - 1, cell);
    }
  }

  /** The weight of at most three activities, spelt out. */
  function FewWeight(act: seq<Activity>): nat {
    (if |act| > 0 then Weight(act[0]) else 0) + (if |act| > 1 then Weight(act[1]) else 0)
    + (if |act| > 2 then Weight(act[2]) else 0)
  }

  lemma FewWeigh(act: seq<Activity>)
    requires |act| <= 3
    ensures ActsWeight(act) == FewWeight(act)
  {
    if |act| > 1 {
      assert act[1..][1..] == act[2..];
    }
  }

  /** What a step does to the measure at its two places. */
  lemma Weighs(s: State, s': State, k: nat, new_: seq<Activity>, i: Id)
    requires k < |s.act| && i < |s.cells| == |s'.cells| && |new_| <= 3
    requires s'.cells == s.cells[i := s'.cells[i]] && s'.act == Splice(s.act, k, new_)
    ensures Measure(s') == Measure(s) - Weight(s.act[k]) - CellWeight(s.cells[i]) + FewWeight(new_) + CellWeight(s'.cells[i])
  {
    SpliceWeight(s.act, k, new_);
    CellUpdateWeight(s.cells, i, s'.cells[i]);
    FewWeigh(new_);
  }

  /** The same for a step that touches no cell. */
  lemma WeighsActs(s: State, s': State, k: nat, new_: seq<Activity>)
    requires k < |s.act| && s'.cells == s.cells && |new_| <= 3 && s'.act == Splice(s.act, k, new_)
    ensures Measure(s') == Measure(s) - Weight(s.act[k]) + FewWeight(new_)
  {
    SpliceWeight(s.act, k, new_);
    FewWeigh(new_);
  }

  /** A callback more on a stack. */
  lemma OpenedWeight(conts: seq<Continuation>, k: Continuation)
    ensures ListWeight([k] + conts) == CallWeight(k) + 1 + ListWeight(conts)
  {
    assert ([k] + conts)[1..] == conts;
  }

  lemma BirthLowers(net: Net, s: State, step: Step)
    requires Safe(net, s) && Enabled(net, s, step) && (step.MakePromise? || step.Attach?)
    ensures Measure(Apply(net, s, step)) < Measure(s)
  {
    match step
    case MakePromise(i) => Weighs(s, Apply(net, s, step), 0, [World, Owner(i), Handle(i)], i);
    case Attach(k, c, shared) =>
      Weighs(s, Apply(net, s, step), k,
             if shared then [Subscribing(c), Handle(net[c].parent)] else [Subscribing(c)], c);
  }

  lemma SubscribeLowers(net: Net, s: State, k: nat)
    requires Safe(net, s) && Enabled(net, s, Push(k)) && s.act[k].Subscribing?
    ensures Measure(DoPush(net, s, k)) < Measure(s)
  {
    var c, s' := s.act[k].c, DoPush(net, s, k);
    var p := net[c].parent;
    if s.cells[p].stack.Open? {
      OpenedWeight(s.cells[p].stack.conts, Schedule(c));
      Weighs(s, s', k, [Handle(c)], p);
    } else {
      Weighs(s, s', k, [Invoking(Schedule(c)), Handle(c)], p);
    }
  }

  lemma LinkLowers(net: Net, s: State, k: nat)
    requires Safe(net, s) && Enabled(net, s, Push(k)) && s.act[k].Linking?
    ensures Measure(DoPush(net, s, k)) < Measure(s)
  {
    var o, j, s' := s.act[k].outer, s.act[k].inner, DoPush(net, s, k);
    if s.cells[j].stack.Open? {
      OpenedWeight(s.cells[j].stack.conts, Forward(o));
      Weighs(s, s', k, [Temp(o), Temp(j)], j);
    } else {
      Weighs(s, s', k, [Invoking(Forward(o)), Temp(o), Temp(j)], j);
    }
  }

  lemma ExecuteLowers(net: Net, s: State, k: nat)
    requires Safe(net, s) && Enabled(net, s, Execute(k))
    ensures Measure(DoExecute(net, s, k)) < Measure(s)
  {
    var i := s.act[k].id;
    assert CellOk(net, s.cells, s.clock, i);
    Weighs(s, DoExecute(net, s, k), k,
           [Draining(i, if s.cells[i].stack.Open? then s.cells[i].stack.conts else [])], i);
  }

  lemma DrainLowers(net: Net, s: State, k: nat)
    requires Enabled(net, s, Drain(k))
    ensures Measure(DoDrain(net, s, k)) < Measure(s)
  {
    var i, ks := s.act[k].id, s.act[k].ks;
    WeighsActs(s, DoDrain(net, s, k), k, if ks == [] then [] else [Invoking(ks[0]), Draining(i, ks[1..])]);
  }

  lemma InvokeLowers(net: Net, s: State, k: nat)
    requires Enabled(net, s, Invoke(k))
    ensures Measure(DoInvoke(net, s, k)) < Measure(s)
  {
    var s' := DoInvoke(net, s, k);
    match s.act[k].k
    case Schedule(c) =>
      if Lockable(s, c) {
        Weighs(s, s', k, [Task(c)], c);
      } else {
        WeighsActs(s, s', k, []);
      }
    case Forward(o) => WeighsActs(s, s', k, if Lockable(s, o) then [Executing(o)] else []);
    case Keep(_) => WeighsActs(s, s', k, []);
  }

  lemma RunTaskLowers(net: Net, s: State, k: nat)
    requires Enabled(net, s, RunTask(k))
    ensures Measure(DoRunTask(net, s, k)) < Measure(s)
  {
    var c, s' := s.act[k].c, DoRunTask(net, s, k);
    if Lockable(s, c) {
      var p := s.cells[c].action.value;
      Weighs(s, s', k, if net[c].runs then Started(net[c], c, p) else [Executing(c), Temp(p)], c);
    } else {
      WeighsActs(s, s', k, []);
    }
  }

  lemma ReturnLowers(net: Net, s: State, k: nat, depth: nat)
    requires Enabled(net, s, Return(k, depth))
    ensures Measure(DoReturn(net, s, k, depth)) < Measure(s)
  {
    var c, p, s' := s.act[k].c, s.act[k].parent, DoReturn(net, s, k, depth);
    match Call(net[c], Follow(s.cells, p, depth).value)
    case ReturnedFuture(j) => Weighs(s, s', k, [Linking(c, j)] + Closure(s.act[k]), c);
    case _ => Weighs(s, s', k, [Executing(c)] + Closure(s.act[k]), c);
  }

  lemma CompleteLowers(net: Net, s: State, k: nat)
    requires Enabled(net, s, Complete(k))
    ensures Measure(DoComplete(net, s, k)) < Measure(s)
  {
    var p := s.act[k].id;
    Weighs(s, DoComplete(net, s, k), k, if Lockable(s, p) then [Executing(p)] else [], p);
  }

  lemma HandleWeighs(net: Net, s: State, step: Step)
    requires Enabled(net, s, step) && (step.Copy? || step.Drop? || step.Detach?)
    ensures Measure(Apply(net, s, step)) <= Measure(s) + 2
    ensures step.Drop? ==> Measure(Apply(net, s, step)) < Measure(s)
  {
    var k, s' := step.k, Apply(net, s, step);
    match step
    case Copy(_) => WeighsActs(s, s', k, [s.act[k], s.act[k]]);
    case Drop(_) => WeighsActs(s, s', k, []);
    case Detach(_) =>
      var i := s.act[k].id;
      if s.cells[i].stack.Open? {
        OpenedWeight(s.cells[i].stack.conts, Keep(i));
        Weighs(s, s', k, [s.act[k]], i);
      }
  }

  /** Every step lowers the measure, births and destructions included; only copying a future or
      detaching it may raise it, by at most two. */
  lemma StepLowers(net: Net, s: State, step: Step)
    requires Safe(net, s) && Enabled(net, s, step)
    ensures Measure(Apply(net, s, step)) <= Measure(s) + 2
    ensures !step.Copy? && !step.Detach? ==> Measure(Apply(net, s, step)) < Measure(s)
  {
    match step
    case MakePromise(_) => BirthLowers(net, s, step);
    case Attach(_, _, _) => BirthLowers(net, s, step);
    case Copy(_) => HandleWeighs(net, s, step);
    case Drop(_) => HandleWeighs(net, s, step);
    case Detach(_) => HandleWeighs(net, s, step);
    case Complete(k) => CompleteLowers(net, s, k);
    case Push(k) => if s.act[k].Subscribing? { SubscribeLowers(net, s, k); } else { LinkLowers(net, s, k); }
    case Execute(k) => ExecuteLowers(net, s, k);
    case Drain(k) => DrainLowers(net, s, k);
    case Invoke(k) => InvokeLowers(net, s, k);
    case RunTask(k) => RunTaskLowers(net, s, k);
    case Return(k, depth) => ReturnLowers(net, s, k, depth);
    case Destroy(i) => CellUpdateWeight(s.cells, i, DoDestroy(net, s, i).cells[i]);
  }

  // Bounded runs

  /** Steps of a schedule that are taken and use something up, and the copies and detaches. */
  function Spent(net: Net, s: State, steps: seq<Step>): nat
    decreases |steps|
  {
    if steps == [] then 0
    else if !Enabled(net, s, steps[0]) then Spent(net, s, steps[1..])
    else
      Spent(net, Apply(net, s, steps[0]), steps[1..]) + if steps[0].Copy? || steps[0].Detach? then 0 else 1
  }

  function Gained(net: Net, s: State, steps: seq<Step>): nat
    decreases |steps|
  {
    if steps == [] then 0
    else if !Enabled(net, s, steps[0]) then Gained(net, s, steps[1..])
    else
      Gained(net, Apply(net, s, steps[0]), steps[1..]) + if steps[0].Copy? || steps[0].Detach? then 1 else 0
  }

  lemma {:induction false} SpentBound(net: Net, s: State, steps: seq<Step>)
    requires Safe(net, s)
    ensures Spent(net, s, steps) + Measure(Run(net, s, steps)) <= Measure(s) + 2 * Gained(net, s, steps)
    decreases |steps|
  {
    if steps != [] {
      if Enabled(net, s, steps[0]) {
        StepSafe(net, s, steps[0]);
        StepLowers(net, s, steps[0]);
        SpentBound(net, Apply(net, s, steps[0]), steps[1..]);
      } else {
        SpentBound(net, s, steps[1..]);
      }
    }
  }

  lemma {:induction false} BlankWeight(cells: seq<Cell>)
    requires forall i | 0 <= i < |cells| :: cells[i] == BLANK
    ensures CellsWeight(cells) == 17 * |cells|
  {
    if cells != [] {
      BlankWeight(cells[1..]);
    }
  }

  /** No schedule goes on for ever on its own: of all the steps ever taken, in any run and under
      any executors, at most 17 for each state and two for each copy or detach are others. */
  lemma RunsAreBounded(net: Net, steps: seq<Step>)
    ensures Spent(net, Initial(net), steps) <= 17 * |net| + 2 * Gained(net, Initial(net), steps)
  {
    InitialSafe(net);
    SpentBound(net, Initial(net), steps);
    BlankWeight(Initial(net).cells);
    FewWeigh(Initial(net).act);
  }

  // Coming to rest

  /** Whenever a function ends in a future, it has that future: the network holds it, or it is
      the one a `then` function not started yet will be handed. */
  ghost predicate Provided(net: Net, s: State) {
    forall c: Id, o | c < |net| && net[c].Continued? && Denotes(net, net[c].parent, o) :: HasFuture(net, s, c, o)
  }

  ghost predicate HasFuture(net: Net, s: State, c: Id, o: Outcome)
    requires c < |net| && net[c].Continued?
  {
    var r := Call(net[c], o);
    r.ReturnedFuture? ==>
      Handle(r.id) in s.act || (r.id == net[c].parent && !net[c].skipsErrors && !Underway(s, c))
  }

  predicate Underway(s: State, c: Id) {
    exists k :: 0 <= k < |s.act| && s.act[k].Running? && s.act[k].c == c
  }

  /** The steps threads take by themselves: none of them gives up a future somebody holds. */
  predicate Own(s: State, step: Step) {
    match step
    case Complete(_) => true
    case Push(_) => true
    case Execute(_) => true
    case Drain(_) => true
    case Invoke(_) => true
    case RunTask(_) => true
    case Return(_, _) => true
    case Drop(k) => k < |s.act| && s.act[k].Temp?
    case _ => false
  }

  /** A future on i is held, or will be once the subscription under way is pushed. */
  predicate HeldSoon(s: State, i: Id) { Handle(i) in s.act || Subscribing(i) in s.act }

  /** What an own step puts in the place of its activity. */
  predicate Gives(net: Net, a: Activity, new_: seq<Activity>) {
    && !a.Handle?
    && (a.Subscribing? ==> Handle(a.c) in new_)
    && (forall b | b in new_ && b.Running? ::
          a == Task(b.c) && b.c < |net| && net[b.c].Continued?
          && (!net[b.c].skipsErrors ==> Handle(net[b.c].parent) in new_))
  }

  lemma InSplice(act: seq<Activity>, k: nat, new_: seq<Activity>, a: Activity)
    requires k < |act|
    ensures a in act && a != act[k] ==> a in Splice(act, k, new_)
    ensures a in new_ ==> a in Splice(act, k, new_)
    ensures a in Splice(act, k, new_) ==> a in act || a in new_
  {
    var r := Splice(act, k, new_);
    if a in act && a != act[k] {
      var n :| 0 <= n < |act| && act[n] == a;
      assert r[if n < k then n else n + |new_| - 1] == a;
    }
    if a in new_ {
      var n :| 0 <= n < |new_| && new_[n] == a;
      assert r[k + n] == a;
    }
    if a in r {
      var n :| 0 <= n < |r| && r[n] == a;
      assert n < k ==> act[n] == a;
      assert k <= n < k + |new_| ==> new_[n - k] == a;
      assert n >= k + |new_| ==> act[n - |new_| + 1] == a;
    }
  }

  lemma OwnGives(net: Net, s: State, step: Step) returns (new_: seq<Activity>)
    requires Safe(net, s) && Enabled(net, s, step) && Own(s, step)
    ensures step.k < |s.act| && Apply(net, s, step).act == Splice(s.act, step.k, new_) && Gives(net, s.act[step.k], new_)
  {
    var k, s' := step.k, Apply(net, s, step);
    match step
    case Complete(_) => new_ := if Lockable(s, s.act[k].id) then [Executing(s.act[k].id)] else [];
    case Push(_) => new_ := PushGives(net, s, k);
    case Execute(_) =>
      var i := s.act[k].id;
      new_ := [Draining(i, if s.cells[i].stack.Open? then s.cells[i].stack.conts else [])];
    case Drain(_) =>
      var i, ks := s.act[k].id, s.act[k].ks;
      new_ := if ks == [] then [] else [Invoking(ks[0]), Draining(i, ks[1..])];
    case Invoke(_) => new_ := InvokeGives(net, s, k);
    case RunTask(_) => new_ := RunTaskGives(net, s, k);
    case Return(_, depth) => new_ := ReturnGives(net, s, k, depth);
    case Drop(_) => new_ := [];
  }

  lemma PushGives(net: Net, s: State, k: nat) returns (new_: seq<Activity>)
    requires Enabled(net, s, Push(k))
    ensures DoPush(net, s, k).act == Splice(s.act, k, new_) && Gives(net, s.act[k], new_)
  {
    match s.act[k]
    case Subscribing(c) =>
      new_ := if s.cells[net[c].parent].stack.Open? then [Handle(c)] else [Invoking(Schedule(c)), Handle(c)];
    case Linking(o, j) =>
      new_ := if s.cells[j].stack.Open? then [Temp(o), Temp(j)] else [Invoking(Forward(o)), Temp(o), Temp(j)];
  }

  lemma InvokeGives(net: Net, s: State, k: nat) returns (new_: seq<Activity>)
    requires Enabled(net, s, Invoke(k))
    ensures DoInvoke(net, s, k).act == Splice(s.act, k, new_) && Gives(net, s.act[k], new_)
  {
    match s.act[k].k
    case Schedule(c) => new_ := if Lockable(s, c) then [Task(c)] else [];
    case Forward(o) => new_ := if Lockable(s, o) then [Executing(o)] else [];
    case Keep(_) => new_ := [];
  }

  lemma RunTaskGives(net: Net, s: State, k: nat) returns (new_: seq<Activity>)
    requires Safe(net, s) && Enabled(net, s, RunTask(k))
    ensures DoRunTask(net, s, k).act == Splice(s.act, k, new_) && Gives(net, s.act[k], new_)
  {
    var c := s.act[k].c;
    assert ActOk(net, s.cells, s.act[k]);
    if Lockable(s, c) {
      var p := s.cells[c].action.value;
      new_ := if net[c].runs then Started(net[c], c, p) else [Executing(c), Temp(p)];
      assert net[c].runs && !net[c].skipsErrors ==> new_[1] == Handle(net[c].parent);
    } else {
      new_ := [];
    }
  }

  lemma ReturnGives(net: Net, s: State, k: nat, depth: nat) returns (new_: seq<Activity>)
    requires Enabled(net, s, Return(k, depth))
    ensures DoReturn(net, s, k, depth).act == Splice(s.act, k, new_) && Gives(net, s.act[k], new_)
  {
    var c, p := s.act[k].c, s.act[k].parent;
    match Call(net[c], Follow(s.cells, p, depth).value)
    case ReturnedFuture(j) => new_ := [Linking(c, j)] + Closure(s.act[k]);
    case _ => new_ := [Executing(c)] + Closure(s.act[k]);
  }

  lemma StaysHeld(net: Net, act: seq<Activity>, k: nat, new_: seq<Activity>, i: Id)
    requires k < |act| && Gives(net, act[k], new_)
    ensures Handle(i) in act ==> Handle(i) in Splice(act, k, new_)
    ensures Subscribing(i) in act ==> Handle(i) in Splice(act, k, new_) || Subscribing(i) in Splice(act, k, new_)
  {
    InSplice(act, k, new_, Handle(i));
    InSplice(act, k, new_, Subscribing(i));
  }

  lemma StaysProvided(net: Net, s: State, s': State, k: nat, new_: seq<Activity>)
    requires Provided(net, s) && k < |s.act| && Gives(net, s.act[k], new_) && s'.act == Splice(s.act, k, new_)
    ensures Provided(net, s')
  {
    forall c: Id, o | c < |net| && net[c].Continued? && Denotes(net, net[c].parent, o) ensures HasFuture(net, s', c, o) {
      assert HasFuture(net, s, c, o);
      var r := Call(net[c], o);
      if r.ReturnedFuture? {
        StaysHeld(net, s.act, k, new_, r.id);
        if Underway(s', c) && Handle(r.id) !in s.act {
          var n :| 0 <= n < |s'.act| && s'.act[n].Running? && s'.act[n].c == c;
          InSplice(s.act, k, new_, s'.act[n]);
          InSplice(s.act, k, new_, Handle(net[c].parent));
        }
      }
    }
  }

  lemma ReturnsProvided(net: Net, s: State, k: nat)
    requires Safe(net, s) && AllJustified(net, s) && Provided(net, s) && k < |s.act| && s.act[k].Running?
    ensures s.act[k].parent < |s.cells| && Enabled(net, s, Return(k, s.cells[s.act[k].parent].readyAt + 1))
  {
    var c, p := s.act[k].c, s.act[k].parent;
    assert ActOk(net, s.cells, s.act[k]);
    RunningMoves(net, s, k);
    assert Underway(s, c);
    forall o | Denotes(net, p, o) ensures !Lacks(net, s, c, o) {
      assert HasFuture(net, s, c, o);
    }
  }

  /** A state that is not at rest has an own step. */
  lemma NextStep(net: Net, s: State) returns (step: Step)
    requires Safe(net, s) && AllJustified(net, s) && Provided(net, s) && !AtRest(net, s)
    ensures Enabled(net, s, step) && Own(s, step)
  {
    var k :| 0 <= k < |s.act| && !(match s.act[k]
                                    case World => true
                                    case Handle(_) => true
                                    case Owner(p) => p < |net| && net[p] == Promised(None)
                                    case _ => false);
    assert ActOk(net, s.cells, s.act[k]);
    if s.act[k].Running? {
      ReturnsProvided(net, s, k);
      return Return(k, s.cells[s.act[k].parent].readyAt + 1);
    }
    if s.act[k].Subscribing? {
      SubscribingMoves(net, s, k);
    } else {
      OthersMove(net, s, k);
    }
    match s.act[k]
    case Owner(_) => step := Complete(k);
    case Temp(_) => step := Drop(k);
    case Subscribing(_) => step := Push(k);
    case Linking(_, _) => step := Push(k);
    case Invoking(_) => step := Invoke(k);
    case Task(_) => step := RunTask(k);
    case Executing(_) => step := Execute(k);
    case Draining(_, _) => step := Drain(k);
  }

  /** What own steps keep and use up. */
  lemma OwnStep(net: Net, s: State, step: Step)
    requires Safe(net, s) && AllJustified(net, s) && Provided(net, s) && Enabled(net, s, step) && Own(s, step)
    ensures var s' := Apply(net, s, step);
            && Safe(net, s') && AllJustified(net, s') && Provided(net, s') && Measure(s') < Measure(s)
            && forall i: Id | HeldSoon(s, i) :: HeldSoon(s', i)
  {
    var s' := Apply(net, s, step);
    var new_ := OwnGives(net, s, step);
    StepSafe(net, s, step);
    StepJustified(net, s, step);
    StepLowers(net, s, step);
    StaysProvided(net, s, s', step.k, new_);
    forall i: Id | HeldSoon(s, i) ensures HeldSoon(s', i) {
      StaysHeld(net, s.act, step.k, new_, i);
    }
  }

  /** A schedule of own steps only. */
  predicate OwnRun(net: Net, s: State, steps: seq<Step>)
    decreases |steps|
  {
    steps != [] ==>
      if Enabled(net, s, steps[0]) then Own(s, steps[0]) && OwnRun(net, Apply(net, s, steps[0]), steps[1..])
      else OwnRun(net, s, steps[1..])
  }

  /** Left to itself the machine comes to rest: whatever own steps were chosen so far, the rest
      of the way is at most as long as the measure that is left, and whatever future was held,
      or about to be, is held in the end. */
  lemma {:induction false} ComesToRest(net: Net, s: State, steps: seq<Step>) returns (more: seq<Step>)
    requires Safe(net, s) && AllJustified(net, s) && Provided(net, s) && OwnRun(net, s, steps)
    ensures Rests(net, s, Run(net, Run(net, s, steps), more))
    ensures |more| <= Measure(Run(net, s, steps))
    decreases |steps|, Measure(s)
  {
    if steps == [] {
      if AtRest(net, s) {
        return [];
      }
      var step := NextStep(net, s);
      OwnStep(net, s, step);
      var rest := ComesToRest(net, Apply(net, s, step), []);
      more := [step] + rest;
      assert more[1..] == rest;
    } else if Enabled(net, s, steps[0]) {
      OwnStep(net, s, steps[0]);
      more := ComesToRest(net, Apply(net, s, steps[0]), steps[1..]);
    } else {
      more := ComesToRest(net, s, steps[1..]);
    }
  }

  ghost predicate Rests(net: Net, s: State, t: State) {
    && Safe(net, t) && AllJustified(net, t) && AtRest(net, t)
    && forall i: Id | HeldSoon(s, i) :: Handle(i) in t.act
  }

  /** Results arrive: from every reachable state, if functions that end in a future have it,
      threads that go on by own steps, in whatever order, come to rest, and then each future held
      at the start that stands for an outcome is ready and shows it. */
  lemma ResultsArrive(net: Net, before: seq<Step>, steps: seq<Step>) returns (more: seq<Step>)
    requires Provided(net, Run(net, Initial(net), before)) && OwnRun(net, Run(net, Initial(net), before), steps)
    ensures var s := Run(net, Initial(net), before); var t := Run(net, Run(net, s, steps), more);
            AtRest(net, t) && forall i: Id, o | HeldSoon(s, i) && Denotes(net, i, o) :: Shows(t, i, o)
    ensures |more| <= Measure(Run(net, Run(net, Initial(net), before), steps))
  {
    var s := Run(net, Initial(net), before);
    Reachable(net, before);
    more := ComesToRest(net, s, steps);
    var t := Run(net, Run(net, s, steps), more);
    forall i: Id, o | HeldSoon(s, i) && Denotes(net, i, o) ensures Shows(t, i, o) {
      RestShows(net, t, i, o);
    }
  }

  lemma RestShows(net: Net, t: State, i: Id, o: Outcome)
    requires Safe(net, t) && AllJustified(net, t) && AtRest(net, t) && Handle(i) in t.act && Denotes(net, i, o)
    ensures Shows(t, i, o)
  {
    var k :| 0 <= k < |t.act| && t.act[k] == Handle(i);
    Holds(net, t, k, i);
    var fuel: nat :| Den(net, i, fuel) == Some(o);
    ReadyAtRest(net, t, i, fuel);
    ReadyDenotes(net, t, i);
    DenotesUnique(net, i, o, Follow(t.cells, i, t.cells[i].readyAt + 1).value);
  }

  // A `then` that returns its argument

  function ThenNet(o: Outcome, f: Outcome -> CallResult): Net {
    [Promised(Some(o)), Continued(0, false, f, true)]
  }

  function ThenSteps(shared: bool): seq<Step> { [MakePromise(0), Attach(2, 1, shared)] }

  /** `p.then(f)` where f returns the very future it is handed, for every outcome of p and on
      unique and shared futures: the result arrives and shows that outcome. */
  lemma ThenReturnsArgument(o: Outcome, f: Outcome -> CallResult, shared: bool) returns (more: seq<Step>)
    requires f(o) == ReturnedFuture(0)
    ensures var net := ThenNet(o, f); var t := Run(net, Run(net, Initial(net), ThenSteps(shared)), more);
            AtRest(net, t) && Shows(t, 1, o)
  {
    var net := ThenNet(o, f);
    var s1 := Apply(net, Initial(net), MakePromise(0));
    assert s1.act[2] == Handle(0) && s1.cells[1] == BLANK;
    var s2 := Apply(net, s1, Attach(2, 1, shared));
    assert Run(net, Initial(net), ThenSteps(shared)) == s2 by {
      assert ThenSteps(shared)[1..] == [Attach(2, 1, shared)] && [Attach(2, 1, shared)][1..] == [];
      assert Run(net, s1, [Attach(2, 1, shared)]) == Run(net, s2, []);
    }
    assert s2.act[2] == Subscribing(1);
    assert Den(net, 0, 1) == Some(o) && Den(net, 1, 2) == Some(o);
    forall c: Id, x | c < |net| && net[c].Continued? && Denotes(net, net[c].parent, x) ensures HasFuture(net, s2, c, x) {
      DenotesUnique(net, 0, o, x);
    }
    more := ResultsArrive(net, ThenSteps(shared), []);
  }
}
