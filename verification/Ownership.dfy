/** Who keeps a shared state alive: cancellation by dropping futures, `detach`, and the
    fate of continuations whose result nobody holds any more. */
module Ownership {
  import opened Outcomes
  import opened NetworkModel
  import opened NetworkLedger
  import opened NetworkSafety
  import opened NetworkSteps
  import opened Denotation
  import opened Confluence

  /** promise::is_awaiten: the weak pointer has not expired. */
  predicate Awaited(s: State, i: Id) { s.strong[i] > 0 }

  /** `detach` left its callback on the stack of i, which has not been executed. */
  predicate Pinned(s: State, i: Id) {
    && i < |s.cells| && s.cells[i].life.Alive? && s.cells[i].stack.Open?
    && Keep(i) in s.cells[i].stack.conts
  }

  /** A handle, a running call or a detach owns a reference to i. */
  ghost predicate Root(s: State, i: Id) {
    Pinned(s, i) || exists k :: 0 <= k < |s.act| && Count(s.act[k], Strong(i)) > 0
  }

  /** A strong edge: continuation to parent, or outer to inner state. */
  predicate Edge(s: State, c: Id, i: Id) {
    && c < |s.cells| && s.cells[c].life.Alive?
    && (s.cells[c].action == Some(i) || s.cells[c].storage == HasInner(i))
  }

  /** i is reached from a root over at most n strong edges. */
  ghost predicate ReachedIn(s: State, i: Id, n: nat)
    decreases n
  {
    Root(s, i) || (n > 0 && exists c :: Edge(s, c, i) && ReachedIn(s, c, n - 1))
  }

  ghost predicate Reached(s: State, i: Id) {
    exists n: nat :: ReachedIn(s, i, n)
  }

  /** Every destructor that is due has run. */
  ghost predicate Drained(s: State) {
    forall i: Id | i < |s.cells| && s.cells[i].life.Alive? :: s.strong[i] > 0
  }

  /** No continuation returns, for an outcome its parent stands for, a future derived from its
      own result: a numbering goes down from every continuation to its parent and to the state
      it delegates to. */
  ghost predicate Ranked(net: Net, rank: seq<nat>) {
    && |rank| == |net|
    && forall c | 0 <= c < |net| && net[c].Continued? ::
         && net[c].parent < |net| && rank[net[c].parent] < rank[c]
         && forall j | 0 <= j < |net| && Delegates(net, c, j) :: rank[j] < rank[c]
  }

  /** Each state on the path is owned by the next one. */
  predicate OwnedAlong(s: State, path: seq<Id>) {
    path != [] && forall k | 0 < k < |path| :: Edge(s, path[k], path[k - 1])
  }

  ghost predicate Repeats(path: seq<Id>) {
    exists a, b :: 0 <= a < b < |path| && path[a] == path[b]
  }

  /** Going from i to its owner, the owner of that one and so on runs into a cycle. */
  ghost predicate HeldByCycle(s: State, i: Id) {
    exists path :: OwnedAlong(s, path) && path[0] == i && Repeats(path)
  }

  lemma RootHeld(net: Net, s: State, i: Id)
    requires Safe(net, s) && Root(s, i)
    ensures s.strong[i] > 0
  {
    if Pinned(s, i) {
      var ks := s.cells[i].stack.conts;
      var n :| 0 <= n < |ks| && ks[n] == Keep(i);
      ContsHave(ks, n);
      CellHolds(net, s, i, i);
    } else {
      var k :| 0 <= k < |s.act| && Count(s.act[k], Strong(i)) > 0;
      Holds(net, s, k, i);
    }
  }

  /** Whoever holds the reference: a root, or a live state over an edge. */
  lemma Holder(net: Net, s: State, i: Id) returns (c: Id)
    requires Safe(net, s) && s.strong[i] > 0
    ensures Root(s, i) || Edge(s, c, i)
  {
    assert s.strong[i] == Total(s, Strong(i));
    if ActCount(s.act, Strong(i)) > 0 {
      var k := ActHolder(s.act, Strong(i));
      c := i;
    } else {
      c := CellHolder(s.cells, Strong(i));
      if !Edge(s, c, i) {
        var n := ContHolder(s.cells[c].stack.conts, Strong(i));
        assert CellOk(net, s.cells, s.clock, c) && s.cells[c].stack.conts[n] in s.cells[c].stack.conts;
      }
    }
  }

  lemma EdgeGoesDown(net: Net, s: State, rank: seq<nat>, c: Id, i: Id)
    requires Safe(net, s) && AllJustified(net, s) && Ranked(net, rank) && Edge(s, c, i)
    ensures c < |net| && i < |net| && rank[i] < rank[c]
  {
    assert CellOk(net, s.cells, s.clock, c) && Justified(net, c, s.cells[c].storage);
  }

  lemma {:induction false} ReachedAlive(net: Net, s: State, i: Id, n: nat)
    requires Safe(net, s) && ReachedIn(s, i, n)
    ensures s.strong[i] > 0 && i < |net| && s.cells[i].life.Alive?
  {
    if Root(s, i) {
      RootHeld(net, s, i);
    } else {
      var c :| Edge(s, c, i) && ReachedIn(s, c, n - 1);
      CellHolds(net, s, c, i);
    }
  }

  /** The owner of a live state that nothing reaches is another such state. */
  lemma UnreachedOwner(net: Net, s: State, i: Id) returns (c: Id)
    requires Safe(net, s) && Drained(s) && s.strong[i] > 0 && !Reached(s, i)
    ensures Edge(s, c, i) && s.strong[c] > 0 && !Reached(s, c)
  {
    c := Holder(net, s, i);
    assert ReachedIn(s, i, 0) <==> Root(s, i);
    if n: nat :| ReachedIn(s, c, n) {
      assert ReachedIn(s, i, n + 1);
    }
  }

  /** So the owners can be followed for any number of steps. */
  lemma {:induction false} Backwards(net: Net, s: State, i: Id, n: nat) returns (path: seq<Id>)
    requires Safe(net, s) && Drained(s) && s.strong[i] > 0 && !Reached(s, i)
    ensures OwnedAlong(s, path) && |path| == n + 1 && path[0] == i
    ensures forall j | j in path :: j < |net|
    decreases n
  {
    if n == 0 {
      return [i];
    }
    var c := UnreachedOwner(net, s, i);
    var rest := Backwards(net, s, c, n - 1);
    path := [i] + rest;
    forall k | 0 < k < |path| ensures Edge(s, path[k], path[k - 1]) {
      assert path[k] == rest[k - 1] && (k > 1 ==> path[k - 1] == rest[k - 2]);
    }
  }

  /** More than n numbers below n are not all different. */
  lemma {:induction false} Pigeonhole(path: seq<Id>, n: nat)
    requires |path| > n && forall j | j in path :: j < n
    ensures Repeats(path)
    decreases n
  {
    assert path[0] in path;
    var m := n - 1;
    if k :| 0 <= k < |path| && path[k] == m {
      if l :| 0 <= l < |path| && l != k && path[l] == m {
        assert path[if k < l then k else l] == path[if k < l then l else k];
      } else {
        var rest := path[..k] + path[k + 1..];
        assert forall j | j in rest :: j in path && j != m;
        Pigeonhole(rest, m);
        var a, b :| 0 <= a < b < |rest| && rest[a] == rest[b];
        assert path[if a < k then a else a + 1] == path[if b < k then b else b + 1];
      }
    } else {
      Pigeonhole(path, m);
    }
  }

  lemma UnreachedCycle(net: Net, s: State, i: Id)
    requires Safe(net, s) && Drained(s) && s.strong[i] > 0 && !Reached(s, i)
    ensures HeldByCycle(s, i)
  {
    var path := Backwards(net, s, i, |net|);
    Pigeonhole(path, |net|);
  }

  lemma CycleHolds(net: Net, s: State, i: Id)
    requires Safe(net, s) && HeldByCycle(s, i)
    ensures s.strong[i] > 0 && i < |net| && s.cells[i].life.Alive?
  {
    var path :| OwnedAlong(s, path) && path[0] == i && Repeats(path);
    CellHolds(net, s, path[1], path[0]);
  }

  /** In a ranked network owners have higher numbers, so no cycle closes. */
  lemma RankedHasNoCycle(net: Net, s: State, rank: seq<nat>, i: Id)
    requires Safe(net, s) && AllJustified(net, s) && Ranked(net, rank)
    ensures !HeldByCycle(s, i)
  {
    if path :| OwnedAlong(s, path) && path[0] == i && Repeats(path) {
      var a, b :| 0 <= a < b < |path| && path[a] == path[b];
      OwnersRise(net, s, rank, path, a, b);
    }
  }

  lemma {:induction false} OwnersRise(net: Net, s: State, rank: seq<nat>, path: seq<Id>, a: nat, b: nat)
    requires Safe(net, s) && AllJustified(net, s) && Ranked(net, rank) && OwnedAlong(s, path) && a < b < |path|
    ensures path[a] < |net| && path[b] < |net| && rank[path[a]] < rank[path[b]]
    decreases b
  {
    EdgeGoesDown(net, s, rank, path[b], path[b - 1]);
    if a < b - 1 {
      OwnersRise(net, s, rank, path, a, b - 1);
    }
  }

  /** Who is alive, in any network: once the due destructors have run, a promise is awaited and
      its state alive exactly when the state is reached from a handle, a running call or a
      detach over strong child-to-parent and outer-to-inner edges, or its owners run into a
      cycle. */
  lemma AliveExactly(net: Net, steps: seq<Step>, i: Id)
    requires i < |net| && Drained(Run(net, Initial(net), steps))
    ensures var s := Run(net, Initial(net), steps);
            && |s.cells| == |net|
            && (s.cells[i].life.Alive? <==> Reached(s, i) || HeldByCycle(s, i))
            && (Awaited(s, i) <==> Reached(s, i) || HeldByCycle(s, i))
  {
    var s := Run(net, Initial(net), steps);
    Reachable(net, steps);
    if s.strong[i] > 0 && !Reached(s, i) {
      UnreachedCycle(net, s, i);
    }
    if HeldByCycle(s, i) {
      CycleHolds(net, s, i);
    }
    if n: nat :| ReachedIn(s, i, n) {
      ReachedAlive(net, s, i, n);
    }
  }

  /** Cancellation: in a network where no continuation delegates to what was derived from its
      own result, reachability alone decides. */
  lemma AliveIffReached(net: Net, steps: seq<Step>, rank: seq<nat>, i: Id)
    requires Ranked(net, rank) && i < |net|
    requires Drained(Run(net, Initial(net), steps))
    ensures var s := Run(net, Initial(net), steps);
            && |s.cells| == |net|
            && (s.cells[i].life.Alive? <==> Reached(s, i))
            && (Awaited(s, i) <==> Reached(s, i))
  {
    Reachable(net, steps);
    AliveExactly(net, steps, i);
    RankedHasNoCycle(net, Run(net, Initial(net), steps), rank, i);
  }

  // The cascade of destructors

  function LiveCount(cells: seq<Cell>): nat {
    if cells == [] then 0 else (if cells[0].life.Alive? then 1 else 0) + LiveCount(cells[1..])
  }

  lemma {:induction false} LiveCountDrops(cells: seq<Cell>, i: nat, cell: Cell)
    requires i < |cells| && cells[i].life.Alive? && !cell.life.Alive?
    ensures LiveCount(cells[i := cell]) == LiveCount(cells) - 1
  {
    if i == 0 {
      assert cells[i := cell][1..] == cells[1..];
    } else {
      assert cells[i := cell][1..] == cells[1..][i - 1 := cell];
      LiveCountDrops(cells[1..], i - 1, cell);
    }
  }

  /** The cascade ends: at most one destructor per live state, and then none is due. */
  lemma {:induction false} CascadeEnds(net: Net, s: State) returns (steps: seq<Step>)
    requires Safe(net, s)
    ensures forall step | step in steps :: step.Destroy?
    ensures |steps| <= LiveCount(s.cells)
    ensures Drained(Run(net, s, steps)) && Run(net, s, steps).act == s.act
    decreases LiveCount(s.cells)
  {
    if i: Id :| i < |s.cells| && s.cells[i].life.Alive? && s.strong[i] == 0 {
      var s' := DoDestroy(net, s, i);
      LiveCountDrops(s.cells, i, s'.cells[i]);
      SafeDestroy(net, s, i);
      var rest := CascadeEnds(net, s');
      steps := [Destroy(i)] + rest;
      assert steps[1..] == rest;
    } else {
      steps := [];
    }
  }

  // What is dead stays as it is

  /** A state without references: nothing can lock it again. */
  predicate Dead(s: State, i: Id) {
    i < |s.cells| && !s.cells[i].life.Unborn? && s.strong[i] == 0
  }

  /** The user-visible fate of a state: calls of its function, stored result, readiness. */
  predicate SameFate(a: Cell, b: Cell) {
    a.calls == b.calls && a.storage == b.storage && a.stack.Open? == b.stack.Open? && !b.life.Unborn?
  }

  /** The activity a step works on, if it is a call that owns a reference to i. */
  lemma DeadUntouched(net: Net, s: State, k: nat, i: Id)
    requires Safe(net, s) && Dead(s, i) && k < |s.act|
    ensures Count(s.act[k], Strong(i)) == 0
  {
    ActHas(s.act, k, Strong(i));
    assert s.strong[i] == Total(s, Strong(i));
  }

  lemma DeadComplete(net: Net, s: State, k: nat, i: Id)
    requires Safe(net, s) && Enabled(net, s, Complete(k)) && Dead(s, i)
    ensures Dead(DoComplete(net, s, k), i) && SameFate(s.cells[i], DoComplete(net, s, k).cells[i])
  {
    DeadUntouched(net, s, k, i);
  }

  lemma DeadRunTask(net: Net, s: State, k: nat, i: Id)
    requires Safe(net, s) && Enabled(net, s, RunTask(k)) && Dead(s, i)
    ensures Dead(DoRunTask(net, s, k), i) && SameFate(s.cells[i], DoRunTask(net, s, k).cells[i])
  {
    DeadUntouched(net, s, k, i);
  }

  lemma DeadReturn(net: Net, s: State, k: nat, depth: nat, i: Id)
    requires Safe(net, s) && Enabled(net, s, Return(k, depth)) && Dead(s, i)
    ensures Dead(DoReturn(net, s, k, depth), i) && SameFate(s.cells[i], DoReturn(net, s, k, depth).cells[i])
  {
    DeadUntouched(net, s, k, i);
    var r := Call(net[s.act[k].c], Follow(s.cells, s.act[k].parent, depth).value);
    if r.ReturnedFuture? {
      var h :| 0 <= h < |s.act| && s.act[h] == Handle(r.id);
      DeadUntouched(net, s, h, i);
    }
  }

  lemma DeadSubscribe(net: Net, s: State, k: nat, i: Id)
    requires Safe(net, s) && Enabled(net, s, Push(k)) && Dead(s, i) && s.act[k].Subscribing?
    ensures Dead(DoPush(net, s, k), i) && SameFate(s.cells[i], DoPush(net, s, k).cells[i])
  {
    DeadUntouched(net, s, k, i);
    Holds(net, s, k, s.act[k].c);
    assert ActOk(net, s.cells, s.act[k]);
    CellHolds(net, s, s.act[k].c, net[s.act[k].c].parent);
  }

  lemma DeadLink(net: Net, s: State, k: nat, i: Id)
    requires Safe(net, s) && Enabled(net, s, Push(k)) && Dead(s, i) && s.act[k].Linking?
    ensures Dead(DoPush(net, s, k), i) && SameFate(s.cells[i], DoPush(net, s, k).cells[i])
  {
    DeadUntouched(net, s, k, i);
  }

  lemma DeadExecute(net: Net, s: State, k: nat, i: Id)
    requires Safe(net, s) && Enabled(net, s, Execute(k)) && Dead(s, i)
    ensures Dead(DoExecute(net, s, k), i) && SameFate(s.cells[i], DoExecute(net, s, k).cells[i])
  {
    DeadUntouched(net, s, k, i);
  }

  lemma DeadDrain(net: Net, s: State, k: nat, i: Id)
    requires Safe(net, s) && Enabled(net, s, Drain(k)) && Dead(s, i)
    ensures Dead(DoDrain(net, s, k), i) && SameFate(s.cells[i], DoDrain(net, s, k).cells[i])
  {
    DeadUntouched(net, s, k, i);
  }

  lemma DeadInvoke(net: Net, s: State, k: nat, i: Id)
    requires Safe(net, s) && Enabled(net, s, Invoke(k)) && Dead(s, i)
    ensures Dead(DoInvoke(net, s, k), i) && SameFate(s.cells[i], DoInvoke(net, s, k).cells[i])
  {
    DeadUntouched(net, s, k, i);
  }

  lemma DeadAttach(net: Net, s: State, k: nat, c: Id, shared: bool, i: Id)
    requires Safe(net, s) && Enabled(net, s, Attach(k, c, shared)) && Dead(s, i)
    ensures Dead(DoAttach(net, s, k, c, shared), i) && SameFate(s.cells[i], DoAttach(net, s, k, c, shared).cells[i])
  {
    DeadUntouched(net, s, k, i);
  }

  lemma DeadDetach(net: Net, s: State, k: nat, i: Id)
    requires Safe(net, s) && Enabled(net, s, Detach(k)) && Dead(s, i)
    ensures Dead(DoDetach(net, s, k), i) && SameFate(s.cells[i], DoDetach(net, s, k).cells[i])
  {
    DeadUntouched(net, s, k, i);
  }

  lemma DeadCopy(net: Net, s: State, k: nat, i: Id)
    requires Safe(net, s) && Enabled(net, s, Copy(k)) && Dead(s, i)
    ensures Dead(DoCopy(s, k), i) && SameFate(s.cells[i], DoCopy(s, k).cells[i])
  {
    DeadUntouched(net, s, k, i);
  }

  lemma DeadDrop(net: Net, s: State, k: nat, i: Id)
    requires Safe(net, s) && Enabled(net, s, Drop(k)) && Dead(s, i)
    ensures Dead(DoDrop(s, k), i) && SameFate(s.cells[i], DoDrop(s, k).cells[i])
  {
    DeadUntouched(net, s, k, i);
  }

  lemma DeadMakePromise(net: Net, s: State, j: Id, i: Id)
    requires Safe(net, s) && Enabled(net, s, MakePromise(j)) && Dead(s, i)
    ensures Dead(DoMakePromise(net, s, j), i) && SameFate(s.cells[i], DoMakePromise(net, s, j).cells[i])
  {
  }

  lemma DeadDestroy(net: Net, s: State, j: Id, i: Id)
    requires Safe(net, s) && Enabled(net, s, Destroy(j)) && Dead(s, i)
    ensures Dead(DoDestroy(net, s, j), i) && SameFate(s.cells[i], DoDestroy(net, s, j).cells[i])
  {
  }

  lemma StepDead(net: Net, s: State, step: Step, i: Id)
    requires Safe(net, s) && Enabled(net, s, step) && Dead(s, i)
    ensures Dead(Apply(net, s, step), i) && SameFate(s.cells[i], Apply(net, s, step).cells[i])
  {
    match step
    case MakePromise(j) => DeadMakePromise(net, s, j, i);
    case Attach(k, c, shared) => DeadAttach(net, s, k, c, shared, i);
    case Copy(k) => DeadCopy(net, s, k, i);
    case Drop(k) => DeadDrop(net, s, k, i);
    case Detach(k) => DeadDetach(net, s, k, i);
    case Complete(k) => DeadComplete(net, s, k, i);
    case Push(k) => if s.act[k].Subscribing? { DeadSubscribe(net, s, k, i); } else { DeadLink(net, s, k, i); }
    case Execute(k) => DeadExecute(net, s, k, i);
    case Drain(k) => DeadDrain(net, s, k, i);
    case Invoke(k) => DeadInvoke(net, s, k, i);
    case RunTask(k) => DeadRunTask(net, s, k, i);
    case Return(k, depth) => DeadReturn(net, s, k, depth, i);
    case Destroy(j) => DeadDestroy(net, s, j, i);
  }

  /** None of the functions of a freed suffix ever runs: whatever happens afterwards, a
      dead state is never called, completed or revived. */
  lemma {:induction false} DeadForever(net: Net, s: State, steps: seq<Step>, i: Id)
    requires Safe(net, s) && Dead(s, i)
    ensures var t := Run(net, s, steps); Dead(t, i) && SameFate(s.cells[i], t.cells[i])
    decreases |steps|
  {
    if steps != [] {
      if Enabled(net, s, steps[0]) {
        StepSafe(net, s, steps[0]);
        StepDead(net, s, steps[0], i);
        DeadForever(net, Apply(net, s, steps[0]), steps[1..], i);
      } else {
        DeadForever(net, s, steps[1..], i);
      }
    }
  }

  /** Once the due destructors have run, exactly the states neither reached nor held by a cycle
      are destroyed. */
  lemma UnreachedDestroyed(net: Net, t: State, i: Id)
    requires Safe(net, t) && Drained(t) && i < |net| && !t.cells[i].life.Unborn?
    ensures t.cells[i].life.Destroyed? <==> !Reached(t, i) && !HeldByCycle(t, i)
    ensures t.cells[i].life.Destroyed? ==> Dead(t, i)
  {
    if t.strong[i] > 0 && !Reached(t, i) {
      UnreachedCycle(net, t, i);
    }
    if HeldByCycle(t, i) {
      CycleHolds(net, t, i);
    }
    if n: nat :| ReachedIn(t, i, n) {
      ReachedAlive(net, t, i, n);
    }
  }

  /** Dropping a future, the last one of a chain say: some cascade of destructors follows,
      after which exactly the states neither reached nor held by a cycle are destroyed, and
      whatever runs later neither calls their functions nor completes them. */
  lemma Cancelled(net: Net, before: seq<Step>, k: nat)
    returns (cascade: seq<Step>)
    requires Enabled(net, Run(net, Initial(net), before), Drop(k))
    ensures forall step | step in cascade :: step.Destroy?
    ensures var t := Run(net, Apply(net, Run(net, Initial(net), before), Drop(k)), cascade);
            forall i: Id | i < |net| && !t.cells[i].life.Unborn? ::
              t.cells[i].life.Destroyed? <==> !Reached(t, i) && !HeldByCycle(t, i)
    ensures var t := Run(net, Apply(net, Run(net, Initial(net), before), Drop(k)), cascade);
            forall rank, i: Id | Ranked(net, rank) && i < |net| :: !HeldByCycle(t, i)
    ensures var t := Run(net, Apply(net, Run(net, Initial(net), before), Drop(k)), cascade);
            forall i: Id, after: seq<Step> | i < |net| && t.cells[i].life.Destroyed? ::
              SameFate(t.cells[i], Run(net, t, after).cells[i])
  {
    var s0 := Run(net, Initial(net), before);
    Reachable(net, before);
    StepSafe(net, s0, Drop(k));
    StepJustified(net, s0, Drop(k));
    var s := Apply(net, s0, Drop(k));
    cascade := CascadeEnds(net, s);
    RunJustified(net, s, cascade);
    var t := Run(net, s, cascade);
    forall i: Id | i < |net| && !t.cells[i].life.Unborn?
      ensures t.cells[i].life.Destroyed? <==> !Reached(t, i) && !HeldByCycle(t, i)
    {
      UnreachedDestroyed(net, t, i);
    }
    forall rank, i: Id | Ranked(net, rank) && i < |net| ensures !HeldByCycle(t, i) {
      RankedHasNoCycle(net, t, rank, i);
    }
    forall i: Id, after: seq<Step> | i < |net| && t.cells[i].life.Destroyed?
      ensures SameFate(t.cells[i], Run(net, t, after).cells[i])
    {
      UnreachedDestroyed(net, t, i);
      DeadForever(net, t, after, i);
    }
  }

  // Detach

  lemma PinnedStays(net: Net, s: State, step: Step, i: Id)
    requires Safe(net, s) && Enabled(net, s, step) && Pinned(s, i)
    ensures Pinned(Apply(net, s, step), i) || Ready(Apply(net, s, step).cells, i)
  {
    RootHeld(net, s, i);
    StepSafe(net, s, step);
    if step.Destroy? {
      assert step.i != i;
    } else {
      assert Keeps(s.cells[i], Apply(net, s, step).cells[i]);
    }
  }

  /** a lies n strong edges below i: its parent, its inner state, and so on. */
  ghost predicate Below(s: State, i: Id, a: Id, n: nat)
    decreases n
  {
    i == a || (n > 0 && exists c :: Edge(s, c, a) && Below(s, i, c, n - 1))
  }

  lemma {:induction false} BelowReached(net: Net, s: State, i: Id, a: Id, n: nat)
    requires Safe(net, s) && Pinned(s, i) && Below(s, i, a, n)
    ensures s.strong[a] > 0
    decreases n
  {
    if i == a {
      RootHeld(net, s, i);
    } else {
      var c :| Edge(s, c, a) && Below(s, i, c, n - 1);
      CellHolds(net, s, c, a);
    }
  }

  /** A pinned state stays pinned until it is executed, and everything it waits for stays alive
      with it. */
  lemma {:induction false} PinnedKeeps(net: Net, s: State, steps: seq<Step>, i: Id)
    requires Safe(net, s) && Pinned(s, i)
    ensures Kept(Run(net, s, steps), i)
    decreases |steps|
  {
    if steps == [] {
      RootHeld(net, s, i);
      forall a, n: nat | Below(s, i, a, n) ensures s.strong[a] > 0 {
        BelowReached(net, s, i, a, n);
      }
    } else if Enabled(net, s, steps[0]) {
      var s' := Apply(net, s, steps[0]);
      StepSafe(net, s, steps[0]);
      PinnedStays(net, s, steps[0], i);
      if Pinned(s', i) {
        PinnedKeeps(net, s', steps[1..], i);
      } else {
        RunFinal(net, s', steps[1..], i);
      }
    } else {
      PinnedKeeps(net, s, steps[1..], i);
    }
  }

  /** State i was executed, or it is pinned and all it waits for is alive. */
  ghost predicate Kept(s: State, i: Id) {
    Ready(s.cells, i) || (Pinned(s, i) && s.strong[i] > 0 && forall a, n: nat :: Below(s, i, a, n) ==> s.strong[a] > 0)
  }

  /** `detach` on a future not ready leaves one more reference to its state, on the state's own
      stack, and the future itself; on a ready one it does nothing. */
  lemma DetachPins(net: Net, s: State, k: nat)
    requires Safe(net, s) && Enabled(net, s, Detach(k))
    ensures var t, i := Apply(net, s, Detach(k)), s.act[k].id;
            if Ready(s.cells, i) then t == s
            else Pinned(t, i) && t.act == s.act && t.strong == s.strong + multiset{i} && t.strong[i] == s.strong[i] + 1
  {
    var t, i := Apply(net, s, Detach(k)), s.act[k].id;
    assert ActOk(net, s.cells, s.act[k]);
    Holds(net, s, k, i);
    if s.cells[i].stack.Open? {
      assert t.cells[i].stack.conts[0] == Keep(i);
      assert t.act == s.act;
    }
  }

  /** After `detach`, whatever happens and whichever futures are dropped, the state is alive until
      it is executed, and everything it waits for is alive with it. */
  lemma DetachKeeps(net: Net, before: seq<Step>, k: nat, after: seq<Step>)
    requires Enabled(net, Run(net, Initial(net), before), Detach(k))
    ensures var s := Run(net, Initial(net), before); Kept(Run(net, Apply(net, s, Detach(k)), after), s.act[k].id)
  {
    var s := Run(net, Initial(net), before);
    var i := s.act[k].id;
    Reachable(net, before);
    DetachPins(net, s, k);
    StepSafe(net, s, Detach(k));
    if Ready(s.cells, i) {
      RunFinal(net, s, after, i);
    } else {
      PinnedKeeps(net, Apply(net, s, Detach(k)), after, i);
    }
  }

  // Finality

  /** A stored result, and readiness, are final: the owner's second set finds storage
      that no step ever rewrites. */
  lemma {:induction false} RunFinal(net: Net, s: State, steps: seq<Step>, i: Id)
    requires Safe(net, s) && i < |net|
    ensures Grows(s.cells[i], Run(net, s, steps).cells[i])
    decreases |steps|
  {
    assert CellOk(net, s.cells, s.clock, i);
    if steps != [] {
      if Enabled(net, s, steps[0]) {
        StepSafe(net, s, steps[0]);
        assert Grows(s.cells[i], Apply(net, s, steps[0]).cells[i]);
        RunFinal(net, Apply(net, s, steps[0]), steps[1..], i);
      } else {
        RunFinal(net, s, steps[1..], i);
      }
    }
  }

  // Nothing leaks

  lemma PinnedWaits(net: Net, s: State, i: Id)
    requires Safe(net, s) && AllJustified(net, s) && AtRest(net, s) && Pinned(s, i)
    ensures forall o :: !Denotes(net, i, o)
  {
    RootHeld(net, s, i);
    forall o | Denotes(net, i, o) ensures false {
      var fuel: nat :| Den(net, i, fuel) == Some(o);
      ReadyAtRest(net, s, i, fuel);
    }
  }

  /** At rest, with no future held and every detached state able to complete, only a state held
      by a cycle is still alive; in a ranked network there is none, so nothing leaks. */
  lemma NothingLeaks(net: Net, steps: seq<Step>, i: Id)
    requires i < |net|
    requires var s := Run(net, Initial(net), steps);
             && AtRest(net, s) && Drained(s)
             && (forall k | 0 <= k < |s.act| :: !s.act[k].Handle?)
             && forall p | Pinned(s, p) :: exists o :: Denotes(net, p, o)
    ensures var s := Run(net, Initial(net), steps);
            && |s.cells| == |net|
            && (s.cells[i].life.Alive? <==> HeldByCycle(s, i))
            && forall rank | Ranked(net, rank) :: !s.cells[i].life.Alive?
  {
    var s := Run(net, Initial(net), steps);
    Reachable(net, steps);
    AliveExactly(net, steps, i);
    forall n: nat ensures !ReachedIn(s, i, n) {
      NoRoots(net, s, i, n);
    }
    forall rank | Ranked(net, rank) ensures !HeldByCycle(s, i) {
      RankedHasNoCycle(net, s, rank, i);
    }
  }

  lemma {:induction false} NoRoots(net: Net, s: State, i: Id, n: nat)
    requires Safe(net, s) && AllJustified(net, s) && AtRest(net, s)
    requires forall k | 0 <= k < |s.act| :: !s.act[k].Handle?
    requires forall p | Pinned(s, p) :: exists o :: Denotes(net, p, o)
    ensures !ReachedIn(s, i, n)
    decreases n
  {
    if ReachedIn(s, i, n) {
      if Pinned(s, i) {
        PinnedWaits(net, s, i);
      } else {
        assert !Root(s, i);
        var c :| Edge(s, c, i) && ReachedIn(s, c, n - 1);
        NoRoots(net, s, c, n - 1);
      }
    }
  }

  // The user function

  /** Exactly once: in every reachable state the function of c was started at most once,
      never before its parent was ready, and a ready continuation state was completed
      either by its function or, when its executor destroyed the task, by broken_promise. */
  lemma CalledOnce(net: Net, steps: seq<Step>, c: Id)
    requires c < |net| && net[c].Continued?
    ensures var s := Run(net, Initial(net), steps);
            && |s.cells| == |net|
            && s.cells[c].calls <= 1
            && (s.cells[c].calls == 1 ==> net[c].runs)
            && (Ready(s.cells, c) && net[c].runs ==> s.cells[c].calls == 1)
            && (Ready(s.cells, c) && !net[c].runs ==> s.cells[c].calls == 0 && s.cells[c].storage == HasError(BrokenPromise))
    ensures var s := Run(net, Initial(net), steps);
            forall k, p, h | 0 <= k < |s.act| && s.act[k] == Running(c, p, h) :: p == net[c].parent && Ready(s.cells, p)
  {
    var s := Run(net, Initial(net), steps);
    Reachable(net, steps);
    assert CellOk(net, s.cells, s.clock, c);
    forall k, p, h | 0 <= k < |s.act| && s.act[k] == Running(c, p, h) ensures p == net[c].parent && Ready(s.cells, p) {
      assert ActOk(net, s.cells, s.act[k]);
    }
  }
}
