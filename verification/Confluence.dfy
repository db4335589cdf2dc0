/** Readiness, delegation and confluence of the network: whatever the schedule, a ready
    state holds what it denotes, and at rest every held state that denotes something is
    ready. */
module Confluence {
  import opened Outcomes
  import opened NetworkModel
  import opened NetworkLedger
  import opened NetworkSafety
  import opened NetworkSteps
  import opened Denotation

  /** What is stored is what the state stands for. */
  ghost predicate Justified(net: Net, i: Id, st: Storage) {
    match st
    case Empty => true
    case HasValue(v) => Denotes(net, i, Value(v))
    case HasError(e) => Denotes(net, i, Failure(e))
    case HasInner(j) => Delegates(net, i, j)
  }

  ghost predicate AllJustified(net: Net, s: State) {
    |s.cells| == |net| && forall i: Id | i < |net| :: Justified(net, i, s.cells[i].storage)
  }

  // Delegation is well-founded

  /** In every safe state the recursion of value_ref/exception from a ready state ends,
      within as many steps as the state's own time of readiness allows. */
  lemma {:induction false} DelegationEnds(net: Net, s: State, i: Id)
    requires Safe(net, s) && Ready(s.cells, i)
    ensures Follow(s.cells, i, s.cells[i].readyAt + 1).Some?
    decreases s.cells[i].readyAt
  {
    assert CellOk(net, s.cells, s.clock, i);
    if s.cells[i].storage.HasInner? {
      var j := s.cells[i].storage.inner;
      DelegationEnds(net, s, j);
      FollowDeeper(s.cells, j, s.cells[j].readyAt + 1, s.cells[i].readyAt);
    }
  }

  lemma {:induction false} FollowDeeper(cells: seq<Cell>, i: Id, d: nat, e: nat)
    requires d <= e && Follow(cells, i, d).Some?
    ensures Follow(cells, i, e) == Follow(cells, i, d)
    decreases d
  {
    if cells[i].storage.HasInner? {
      FollowDeeper(cells, cells[i].storage.inner, d - 1, e - 1);
    }
  }

  lemma {:induction false} FollowDenotes(net: Net, s: State, i: Id, d: nat)
    requires AllJustified(net, s) && Follow(s.cells, i, d).Some?
    ensures Denotes(net, i, Follow(s.cells, i, d).value)
    decreases d
  {
    assert Justified(net, i, s.cells[i].storage);
    if s.cells[i].storage.HasInner? {
      FollowDenotes(net, s, s.cells[i].storage.inner, d - 1);
      DenotesInner(net, i, s.cells[i].storage.inner, Follow(s.cells, i, d).value);
    }
  }

  lemma ReadyDenotes(net: Net, s: State, i: Id)
    requires Safe(net, s) && AllJustified(net, s) && Ready(s.cells, i)
    ensures Follow(s.cells, i, s.cells[i].readyAt + 1).Some?
    ensures Denotes(net, i, Follow(s.cells, i, s.cells[i].readyAt + 1).value)
  {
    DelegationEnds(net, s, i);
    FollowDenotes(net, s, i, s.cells[i].readyAt + 1);
  }

  // Every store is justified

  lemma CompleteJustified(net: Net, s: State, k: nat)
    requires AllJustified(net, s) && Enabled(net, s, Complete(k))
    ensures AllJustified(net, DoComplete(net, s, k))
  {
    var p := s.act[k].id;
    assert Den(net, p, 1) == net[p].result;
  }

  lemma RunTaskJustified(net: Net, s: State, k: nat)
    requires Safe(net, s) && AllJustified(net, s) && Enabled(net, s, RunTask(k))
    ensures AllJustified(net, DoRunTask(net, s, k))
  {
    var c := s.act[k].c;
    assert ActOk(net, s.cells, s.act[k]);
    ReadyDenotes(net, s, net[c].parent);
    DenotesCall(net, c, Follow(s.cells, net[c].parent, s.cells[net[c].parent].readyAt + 1).value);
  }

  lemma ReturnJustified(net: Net, s: State, k: nat, depth: nat)
    requires Safe(net, s) && AllJustified(net, s) && Enabled(net, s, Return(k, depth))
    ensures AllJustified(net, DoReturn(net, s, k, depth))
  {
    var c, p := s.act[k].c, s.act[k].parent;
    assert ActOk(net, s.cells, s.act[k]);
    FollowDenotes(net, s, p, depth);
    DenotesCall(net, c, Follow(s.cells, p, depth).value);
  }

  lemma CallbacksStore(net: Net, s: State, step: Step)
    requires Enabled(net, s, step) && (step.Push? || step.Execute? || step.Drain? || step.Invoke? || step.Detach?)
    ensures var s' := Apply(net, s, step);
            && |s'.cells| == |s.cells|
            && forall i: Id | i < |net| :: s'.cells[i].storage == s.cells[i].storage
  {
  }

  lemma HandlesStore(net: Net, s: State, step: Step)
    requires Enabled(net, s, step)
    requires step.MakePromise? || step.Attach? || step.Copy? || step.Drop? || step.Destroy?
    ensures var s' := Apply(net, s, step);
            && |s'.cells| == |s.cells|
            && forall i: Id | i < |net| :: s'.cells[i].storage in {s.cells[i].storage, Empty}
  {
  }

  lemma StepJustified(net: Net, s: State, step: Step)
    requires Safe(net, s) && AllJustified(net, s) && Enabled(net, s, step)
    ensures AllJustified(net, Apply(net, s, step))
  {
    match step
    case Complete(k) => CompleteJustified(net, s, k);
    case RunTask(k) => RunTaskJustified(net, s, k);
    case Return(k, depth) => ReturnJustified(net, s, k, depth);
    case MakePromise(_) => HandlesStore(net, s, step);
    case Attach(_, _, _) => HandlesStore(net, s, step);
    case Copy(_) => HandlesStore(net, s, step);
    case Drop(_) => HandlesStore(net, s, step);
    case Destroy(_) => HandlesStore(net, s, step);
    case _ => CallbacksStore(net, s, step);
  }

  lemma {:induction false} RunJustified(net: Net, s: State, steps: seq<Step>)
    requires Safe(net, s) && AllJustified(net, s)
    ensures Safe(net, Run(net, s, steps)) && AllJustified(net, Run(net, s, steps))
    decreases |steps|
  {
    if steps != [] {
      if Enabled(net, s, steps[0]) {
        StepSafe(net, s, steps[0]);
        StepJustified(net, s, steps[0]);
        RunJustified(net, Apply(net, s, steps[0]), steps[1..]);
      } else {
        RunJustified(net, s, steps[1..]);
      }
    }
  }

  lemma Reachable(net: Net, steps: seq<Step>)
    ensures Safe(net, Run(net, Initial(net), steps)) && AllJustified(net, Run(net, Initial(net), steps))
  {
    InitialSafe(net);
    RunJustified(net, Initial(net), steps);
  }

  // Rest

  /** Nothing is under way: only handles and promises that are never completed are left. */
  ghost predicate AtRest(net: Net, s: State) {
    forall k | 0 <= k < |s.act| ::
      match s.act[k]
      case World => true
      case Handle(_) => true
      case Owner(p) => p < |net| && net[p] == Promised(None)
      case _ => false
  }

  /** Activity k has a step of its own, or is one of those that may stay. */
  ghost predicate CanMove(net: Net, s: State, k: nat)
    requires k < |s.act|
  {
    match s.act[k]
    case World => true
    case Handle(_) => true
    case Owner(p) => p < |net| && (net[p] == Promised(None) || Enabled(net, s, Complete(k)))
    case Temp(_) => Enabled(net, s, Drop(k))
    case Subscribing(_) => Enabled(net, s, Push(k))
    case Linking(_, _) => Enabled(net, s, Push(k))
    case Invoking(_) => Enabled(net, s, Invoke(k))
    case Task(_) => Enabled(net, s, RunTask(k))
    case Executing(_) => Enabled(net, s, Execute(k))
    case Draining(_, _) => Enabled(net, s, Drain(k))
    case Running(c, p, _) => CanReturn(net, s, k, c, p)
  }

  /** The function running at k has its parent's outcome and can return, unless it is to return
      a future that has been dropped; and then it cannot. */
  ghost predicate CanReturn(net: Net, s: State, k: nat, c: Id, p: Id) {
    && c < |net| && net[c].Continued? && p < |s.cells|
    && exists o :: Denotes(net, p, o) && (Enabled(net, s, Return(k, s.cells[p].readyAt + 1)) <==> !Lacks(net, s, c, o))
  }

  predicate Lacks(net: Net, s: State, c: Id, o: Outcome)
    requires c < |net| && net[c].Continued?
  {
    var r := Call(net[c], o);
    r.ReturnedFuture? && Handle(r.id) !in s.act
  }

  lemma RunningMoves(net: Net, s: State, k: nat)
    requires Safe(net, s) && AllJustified(net, s) && k < |s.act| && s.act[k].Running?
    ensures CanMove(net, s, k)
  {
    assert ActOk(net, s.cells, s.act[k]);
    ReadyDenotes(net, s, s.act[k].parent);
  }

  lemma SubscribingMoves(net: Net, s: State, k: nat)
    requires Safe(net, s) && k < |s.act| && s.act[k].Subscribing?
    ensures CanMove(net, s, k)
  {
    assert ActOk(net, s.cells, s.act[k]);
    Holds(net, s, k, s.act[k].c);
    CellHolds(net, s, s.act[k].c, net[s.act[k].c].parent);
  }

  lemma OthersMove(net: Net, s: State, k: nat)
    requires |s.cells| == |net| && k < |s.act| && ActOk(net, s.cells, s.act[k])
    requires !s.act[k].Running? && !s.act[k].Subscribing?
    ensures CanMove(net, s, k)
  {
  }

  /** Rest is all that can stop the machine: every other activity of a reachable state has a
      step of its own, whatever else is going on, except exactly a function that has let go of
      the future it is to return. */
  lemma NotStuck(net: Net, steps: seq<Step>, k: nat)
    requires k < |Run(net, Initial(net), steps).act|
    ensures CanMove(net, Run(net, Initial(net), steps), k)
  {
    var s := Run(net, Initial(net), steps);
    Reachable(net, steps);
    if s.act[k].Running? {
      RunningMoves(net, s, k);
    } else if s.act[k].Subscribing? {
      SubscribingMoves(net, s, k);
    } else {
      assert ActOk(net, s.cells, s.act[k]);
      OthersMove(net, s, k);
    }
  }

  /** The function of a `then` on p is running at k and holds the future it was handed. */
  predicate Handed(s: State, k: nat, c: Id, p: Id) {
    && k + 1 < |s.act| && s.act[k] == Running(c, p, false) && s.act[k + 1] == Handle(p)
    && Ready(s.cells, p) && s.strong[p] > 0
  }

  lemma StartsHanded(net: Net, s: State, k: nat)
    requires Safe(net, s) && Enabled(net, s, RunTask(k)) && Lockable(s, s.act[k].c)
    requires net[s.act[k].c].runs && !net[s.act[k].c].skipsErrors
    ensures Handed(DoRunTask(net, s, k), k, s.act[k].c, net[s.act[k].c].parent)
  {
    HandsOver(net, s, k);
    var t, p := DoRunTask(net, s, k), net[s.act[k].c].parent;
    SafeRunTask(net, s, k);
    Holds(net, t, k + 1, p);
    assert ActOk(net, t.cells, t.act[k]);
  }

  lemma HandsOver(net: Net, s: State, k: nat)
    requires Safe(net, s) && Enabled(net, s, RunTask(k)) && Lockable(s, s.act[k].c)
    requires net[s.act[k].c].runs && !net[s.act[k].c].skipsErrors
    ensures var t, p := DoRunTask(net, s, k), net[s.act[k].c].parent;
            k + 1 < |t.act| && t.act[k] == Running(s.act[k].c, p, false) && t.act[k + 1] == Handle(p)
  {
    assert CellOk(net, s.cells, s.clock, s.act[k].c) && ActOk(net, s.cells, s.act[k]);
  }

  /** The function may return the future it was handed: nothing holds the return up. */
  ghost predicate MayReturnParent(net: Net, s: State, k: nat, c: Id, p: Id) {
    && c < |net| && net[c].Continued? && p < |s.cells|
    && exists o :: Denotes(net, p, o)
         && (Call(net[c], o) == ReturnedFuture(p) ==> Enabled(net, s, Return(k, s.cells[p].readyAt + 1)))
  }

  lemma HandedReturns(net: Net, s: State, k: nat, c: Id, p: Id)
    requires Safe(net, s) && AllJustified(net, s) && Handed(s, k, c, p)
    ensures MayReturnParent(net, s, k, c, p)
  {
    assert ActOk(net, s.cells, s.act[k]) && s.act[k + 1] in s.act;
    ReadyDenotes(net, s, p);
  }

  /** ... and it may continue that future: no continuation of p is ruled out. */
  ghost predicate MayContinueParent(net: Net, s: State, k: nat, p: Id) {
    && |s.cells| == |net|
    && forall d: Id | d < |net| && net[d].Continued? && net[d].parent == p && s.cells[d].life.Unborn? ::
      CanAttach(net, s, k + 1, d)
  }

  predicate CanAttach(net: Net, s: State, k: nat, d: Id) {
    Enabled(net, s, Attach(k, d, false)) && Enabled(net, s, Attach(k, d, true))
  }

  lemma HandedContinues(net: Net, s: State, k: nat, c: Id, p: Id)
    requires |s.cells| == |net| && Handed(s, k, c, p)
    ensures MayContinueParent(net, s, k, p)
  {
  }

  ghost predicate HasParent(net: Net, s: State, k: nat, c: Id, p: Id) {
    Handed(s, k, c, p) && MayReturnParent(net, s, k, c, p) && MayContinueParent(net, s, k, p)
  }

  lemma StartsWithParent(net: Net, s: State, k: nat)
    requires Safe(net, s) && AllJustified(net, s) && Enabled(net, s, RunTask(k)) && Lockable(s, s.act[k].c)
    requires net[s.act[k].c].runs && !net[s.act[k].c].skipsErrors
    ensures HasParent(net, DoRunTask(net, s, k), k, s.act[k].c, net[s.act[k].c].parent)
  {
    var t, c, p := DoRunTask(net, s, k), s.act[k].c, net[s.act[k].c].parent;
    StartsHanded(net, s, k);
    SafeRunTask(net, s, k);
    RunTaskJustified(net, s, k);
    HandedReturns(net, t, k, c, p);
    HandedContinues(net, t, k, c, p);
  }

  /** What makes `then` more than `next`: its function starts with the future of the ready
      parent in its hands, may continue it, and when it returns that very future nothing holds
      it up. */
  lemma ThenIsHandedParent(net: Net, steps: seq<Step>, k: nat)
    requires var s := Run(net, Initial(net), steps);
             Enabled(net, s, RunTask(k)) && Lockable(s, s.act[k].c)
             && net[s.act[k].c].runs && !net[s.act[k].c].skipsErrors
    ensures var s := Run(net, Initial(net), steps);
            HasParent(net, DoRunTask(net, s, k), k, s.act[k].c, net[s.act[k].c].parent)
  {
    Reachable(net, steps);
    StartsWithParent(net, Run(net, Initial(net), steps), k);
  }

  /** At rest a live state that is not ready still waits for its promise, or its token
      lies on the stack of a live state that is not ready either. */
  lemma WaitsFor(net: Net, s: State, i: Id) returns (p: Id)
    requires Safe(net, s) && AtRest(net, s) && s.strong[i] > 0 && s.cells[i].stack.Open?
    ensures i < |net| && p < |net|
    ensures net[i] == Promised(None) || (s.strong[p] > 0 && s.cells[p].stack.Open?)
    ensures net[i] == Promised(None) ||
            if s.cells[i].storage.HasInner? then s.cells[i].storage.inner == p
            else net[i].Continued? && net[i].parent == p
  {
    assert TokenOk(s, i);
    if ActCount(s.act, Token(i)) > 0 {
      var k := ActHolder(s.act, Token(i));
      p := i;
      assert ActOk(net, s.cells, s.act[k]);
    } else {
      p := CellHolder(s.cells, Token(i));
      assert CellOk(net, s.cells, s.clock, p);
      var ks := s.cells[p].stack.conts;
      var n := ContHolder(ks, Token(i));
      assert ks[n] in ks;
      CellHolds(net, s, i, p);
    }
  }

  lemma {:induction false} ReadyAtRest(net: Net, s: State, i: Id, fuel: nat)
    requires Safe(net, s) && AllJustified(net, s) && AtRest(net, s)
    requires s.strong[i] > 0 && Den(net, i, fuel).Some?
    ensures Ready(s.cells, i)
    decreases fuel
  {
    assert i < |net| && s.cells[i].life.Alive?;
    if s.cells[i].stack.Open? {
      var p := WaitsFor(net, s, i);
      if s.cells[i].storage.HasInner? {
        assert Justified(net, i, s.cells[i].storage);
        DelegatesDen(net, i, p, fuel);
      }
      ReadyAtRest(net, s, p, fuel - 1);
    }
  }

  /** Confluence: at rest a live state is ready if and only if it denotes an outcome, and
      then value_ref/exception yield that outcome. */
  lemma Confluent(net: Net, steps: seq<Step>, i: Id)
    requires var s := Run(net, Initial(net), steps); AtRest(net, s) && s.strong[i] > 0
    ensures var s := Run(net, Initial(net), steps);
            && (Ready(s.cells, i) <==> exists o :: Denotes(net, i, o))
            && forall o :: Denotes(net, i, o) ==> exists d :: Follow(s.cells, i, d) == Some(o)
  {
    var s := Run(net, Initial(net), steps);
    Reachable(net, steps);
    if Ready(s.cells, i) {
      ReadyDenotes(net, s, i);
    }
    forall o | Denotes(net, i, o)
      ensures Ready(s.cells, i) && Follow(s.cells, i, s.cells[i].readyAt + 1) == Some(o)
    {
      var fuel: nat :| Den(net, i, fuel) == Some(o);
      ReadyAtRest(net, s, i, fuel);
      ReadyDenotes(net, s, i);
      DenotesUnique(net, i, o, Follow(s.cells, i, s.cells[i].readyAt + 1).value);
    }
  }

  /** State i is ready and value_ref/exception yield o. */
  ghost predicate Shows(s: State, i: Id, o: Outcome) {
    Ready(s.cells, i) && exists d: nat :: Follow(s.cells, i, d) == Some(o)
  }

  lemma ShowsDenoted(net: Net, steps: seq<Step>, i: Id, x: Outcome)
    requires var s := Run(net, Initial(net), steps); AtRest(net, s) && s.strong[i] > 0
    ensures Shows(Run(net, Initial(net), steps), i, x) <==> Denotes(net, i, x)
  {
    var s := Run(net, Initial(net), steps);
    Reachable(net, steps);
    Confluent(net, steps, i);
    if Shows(s, i, x) {
      var d: nat :| Follow(s.cells, i, d) == Some(x);
      FollowDenotes(net, s, i, d);
    }
  }

  /** What is shown at rest, in the program's own terms: a promise shows what it was completed
      with ... */
  lemma PromiseShows(net: Net, steps: seq<Step>, i: Id, x: Outcome)
    requires var s := Run(net, Initial(net), steps); AtRest(net, s) && s.strong[i] > 0
    requires i < |net| && net[i].Promised?
    ensures Shows(Run(net, Initial(net), steps), i, x) <==> net[i].result == Some(x)
  {
    ShowsDenoted(net, steps, i, x);
    PromiseDenotes(net, i, x);
  }

  /** ... a `then`, what its function makes of the parent's outcome, be that a value or an
      exception ... */
  lemma ThenShows(net: Net, steps: seq<Step>, i: Id, x: Outcome)
    requires var s := Run(net, Initial(net), steps); AtRest(net, s) && s.strong[i] > 0
    requires i < |net| && net[i].Continued? && net[i].runs && !net[i].skipsErrors
    ensures Shows(Run(net, Initial(net), steps), i, x) <==>
            exists o :: Denotes(net, net[i].parent, o) && Resolves(net, net[i].f(o), x)
  {
    ShowsDenoted(net, steps, i, x);
    ThenDenotes(net, i, x);
  }

  /** ... and a continuation that was never run, broken_promise. */
  lemma DroppedShows(net: Net, steps: seq<Step>, i: Id, x: Outcome)
    requires var s := Run(net, Initial(net), steps); AtRest(net, s) && s.strong[i] > 0
    requires i < |net| && net[i].Continued? && !net[i].runs
    ensures Shows(Run(net, Initial(net), steps), i, x) <==>
            x == Failure(BrokenPromise) && exists o :: Denotes(net, net[i].parent, o)
  {
    ShowsDenoted(net, steps, i, x);
    DroppedDenotes(net, i, x);
  }

  /** Any two schedules that come to rest with i alive agree on it. */
  lemma SchedulesAgree(net: Net, a: seq<Step>, b: seq<Step>, i: Id)
    requires var s := Run(net, Initial(net), a); AtRest(net, s) && s.strong[i] > 0
    requires var t := Run(net, Initial(net), b); AtRest(net, t) && t.strong[i] > 0
    ensures var s, t := Run(net, Initial(net), a), Run(net, Initial(net), b);
            && (Ready(s.cells, i) <==> Ready(t.cells, i))
            && (Ready(s.cells, i) ==>
                  exists d, e, o :: Follow(s.cells, i, d) == Some(o) && Follow(t.cells, i, e) == Some(o))
  {
    Confluent(net, a, i);
    Confluent(net, b, i);
    var s, t := Run(net, Initial(net), a), Run(net, Initial(net), b);
    if Ready(s.cells, i) {
      var o :| Denotes(net, i, o);
      var d :| Follow(s.cells, i, d) == Some(o);
      var e :| Follow(t.cells, i, e) == Some(o);
    }
  }
}
