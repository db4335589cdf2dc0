/** Why the theorems on ownership ask that no continuation returns a future derived from its
    own result: the state such a continuation makes owns itself. */
module SelfReference {
  import opened Outcomes
  import opened NetworkModel
  import opened NetworkSafety
  import opened NetworkSteps
  import opened Denotation
  import opened Confluence
  import opened Ownership

  /** `f = p.next([&f](int) { return std::move(f); })` for a promise that is kept. */
  const NET: Net := [Promised(Some(Value(0))), Continued(0, true, (_: Outcome) => ReturnedFuture(1), true)]

  const DONE := Cell(Alive, HasValue(0), Consumed, false, None, 0, 0)
  const WAITING := Cell(Alive, Empty, Open([]), true, Some(0), 0, 0)

  const S1 := State([BLANK.(life := Alive), BLANK], [World, Owner(0), Handle(0)], multiset{0}, 0)
  const S2 := State([BLANK.(life := Alive), WAITING], [World, Owner(0), Subscribing(1)], multiset{0, 1}, 0)
  const S3 := State([BLANK.(life := Alive, stack := Open([Schedule(1)])), WAITING],
                    [World, Owner(0), Handle(1)], multiset{0, 1}, 0)
  const S4 := State([S3.cells[0].(storage := HasValue(0)), WAITING], [World, Executing(0), Handle(1)], multiset{0, 0, 1}, 0)
  const S5 := State([DONE, WAITING], [World, Draining(0, [Schedule(1)]), Handle(1)], multiset{0, 0, 1}, 1)
  const S6 := S5.(act := [World, Invoking(Schedule(1)), Draining(0, []), Handle(1)])
  const S7 := State([DONE, WAITING.(exec := false)], [World, Task(1), Draining(0, []), Handle(1)], multiset{0, 0, 1}, 1)
  const CALLED := Cell(Alive, Empty, Open([]), false, None, 1, 0)
  const S8 := State([DONE, CALLED], [World, Running(1, 0, true), Draining(0, []), Handle(1)], multiset{0, 0, 1, 1}, 1)
  const S9 := State([DONE, CALLED.(storage := HasInner(1))],
                    [World, Linking(1, 1), Temp(0), Draining(0, []), Handle(1)], multiset{0, 0, 1, 1, 1, 1}, 1)
  const OWN := Cell(Alive, HasInner(1), Open([Forward(1)]), false, None, 1, 0)
  const S10 := State([DONE, OWN], [World, Temp(1), Temp(1), Temp(0), Draining(0, []), Handle(1)],
                     multiset{0, 0, 1, 1, 1, 1}, 1)
  const S15 := State([DONE, OWN], [World], multiset{1}, 1)

  predicate Goes(s: State, step: Step, t: State) { Enabled(NET, s, step) && Apply(NET, s, step) == t }

  const STEPS: seq<Step> :=
    [MakePromise(0), Attach(2, 1, false), Push(2), Complete(1), Execute(1), Drain(1), Invoke(1), RunTask(1),
     Return(1, 1), Push(1), Drop(1), Drop(1), Drop(1), Drain(1), Drop(1), Destroy(0)]

  lemma RunsOn(s: State, k: nat, t: State)
    requires k < |STEPS| && Goes(s, STEPS[k], t)
    ensures Run(NET, s, STEPS[k..]) == Run(NET, t, STEPS[k + 1..])
  {
    assert STEPS[k..][1..] == STEPS[k + 1..];
  }

  lemma Making()
    ensures Run(NET, Initial(NET), STEPS[0..]) == Run(NET, S1, STEPS[1..])
  {
    assert Initial(NET).cells == [BLANK, BLANK];
    assert Splice([World], 0, [World, Owner(0), Handle(0)]) == S1.act;
    RunsOn(Initial(NET), 0, S1);
  }

  lemma Attaching()
    ensures Run(NET, S1, STEPS[1..]) == Run(NET, S2, STEPS[2..])
  {
    assert Splice(S1.act, 2, [Subscribing(1)]) == S2.act;
    RunsOn(S1, 1, S2);
  }

  lemma Pushing()
    ensures Run(NET, S2, STEPS[2..]) == Run(NET, S3, STEPS[3..])
  {
    var kont: Continuation := Schedule(1);
    assert [kont] + [] == [kont];
    assert Splice(S2.act, 2, [Handle(1)]) == S3.act;
    RunsOn(S2, 2, S3);
  }

  lemma Completing()
    ensures Run(NET, S3, STEPS[3..]) == Run(NET, S4, STEPS[4..])
  {
    assert Splice(S3.act, 1, [Executing(0)]) == S4.act;
    RunsOn(S3, 3, S4);
  }

  lemma ExecutingParent()
    ensures Run(NET, S4, STEPS[4..]) == Run(NET, S5, STEPS[5..])
  {
    assert Splice(S4.act, 1, [Draining(0, [Schedule(1)])]) == S5.act;
    RunsOn(S4, 4, S5);
  }

  lemma DrainingParent()
    ensures Run(NET, S5, STEPS[5..]) == Run(NET, S6, STEPS[6..])
  {
    var ks := S5.act[1].ks;
    assert ks[1..] == [];
    assert Splice(S5.act, 1, [Invoking(ks[0]), Draining(0, [])]) == S6.act;
    RunsOn(S5, 5, S6);
  }

  lemma Calling()
    ensures Run(NET, S6, STEPS[6..]) == Run(NET, S8, STEPS[8..])
  {
    assert Splice(S6.act, 1, [Task(1)]) == S7.act;
    assert Apply(NET, S6, Invoke(1)) == S7;
    assert Splice(S7.act, 1, [Running(1, 0, true)]) == S8.act;
    assert Apply(NET, S7, RunTask(1)) == S8;
    RunsOn(S6, 6, S7);
    RunsOn(S7, 7, S8);
  }

  lemma Returning()
    ensures Run(NET, S8, STEPS[8..]) == Run(NET, S10, STEPS[10..])
  {
    assert Follow(S8.cells, 0, 1) == Some(Value(0));
    assert Call(NET[1], Value(0)) == ReturnedFuture(1);
    assert S8.act[3] == Handle(1);
    assert Splice(S8.act, 1, [Linking(1, 1), Temp(0)]) == S9.act;
    assert Apply(NET, S8, Return(1, 1)) == S9;
    var kont: Continuation := Forward(1);
    assert [kont] + [] == [kont];
    assert Splice(S9.act, 1, [Temp(1), Temp(1)]) == S10.act;
    assert Apply(NET, S9, Push(1)) == S10;
    RunsOn(S8, 8, S9);
    RunsOn(S9, 9, S10);
  }

  const S11 := State([DONE, OWN], [World, Temp(1), Temp(0), Draining(0, []), Handle(1)], multiset{0, 0, 1, 1, 1}, 1)
  const S12 := State([DONE, OWN], [World, Temp(0), Draining(0, []), Handle(1)], multiset{0, 0, 1, 1}, 1)
  const S13 := State([DONE, OWN], [World, Draining(0, []), Handle(1)], multiset{0, 1, 1}, 1)
  const S14 := State([DONE, OWN], [World, Handle(1)], multiset{1, 1}, 1)
  const LEFT := State([DONE.(life := Destroyed), OWN], [World], multiset{1}, 1)

  lemma DroppingFirst()
    ensures Run(NET, S10, STEPS[10..]) == Run(NET, S11, STEPS[11..])
  {
    assert Splice(S10.act, 1, []) == S11.act;
    RunsOn(S10, 10, S11);
  }

  lemma DroppingSecond()
    ensures Run(NET, S11, STEPS[11..]) == Run(NET, S12, STEPS[12..])
  {
    assert Splice(S11.act, 1, []) == S12.act;
    RunsOn(S11, 11, S12);
  }

  lemma DroppingParent()
    ensures Run(NET, S12, STEPS[12..]) == Run(NET, S13, STEPS[13..])
  {
    assert Splice(S12.act, 1, []) == S13.act;
    RunsOn(S12, 12, S13);
  }

  lemma DrainingLast()
    ensures Run(NET, S13, STEPS[13..]) == Run(NET, S14, STEPS[14..])
  {
    assert Splice(S13.act, 1, []) == S14.act;
    RunsOn(S13, 13, S14);
  }

  lemma DroppingHandle()
    ensures Run(NET, S14, STEPS[14..]) == Run(NET, S15, STEPS[15..])
  {
    assert Splice(S14.act, 1, []) == S15.act;
    RunsOn(S14, 14, S15);
  }

  lemma Destroying()
    ensures Run(NET, S15, STEPS[15..]) == LEFT
  {
    RunsOn(S15, 15, LEFT);
    assert STEPS[16..] == [];
  }

  lemma Leftover()
    ensures Run(NET, Initial(NET), STEPS) == LEFT
  {
    Making();
    Attaching();
    Pushing();
    Completing();
    ExecutingParent();
    DrainingParent();
    Calling();
    Returning();
    DroppingFirst();
    DroppingSecond();
    DroppingParent();
    DrainingLast();
    DroppingHandle();
    Destroying();
    assert STEPS[0..] == STEPS;
  }

  /** Everything has come to rest, no future is held and every destructor that was due has
      run; but state 1 is alive, owns itself, and nothing reaches it. */
  ghost predicate Stranded(s: State) {
    && AtRest(NET, s) && Drained(s) && (forall k | 0 <= k < |s.act| :: !s.act[k].Handle?)
    && |s.cells| == 2 && s.cells[1].life.Alive? && Awaited(s, 1) && HeldByCycle(s, 1) && !Reached(s, 1)
  }

  lemma LeftStranded()
    ensures Stranded(LEFT)
  {
    assert OwnedAlong(LEFT, [1, 1]) && [1, 1][0] == [1, 1][1];
    forall n: nat ensures !ReachedIn(LEFT, 1, n) {
      Unreached(n);
    }
  }

  /** The condition is needed: without a ranking a run can leave a state behind for good. */
  lemma SelfReferenceLeaks()
    ensures Stranded(Run(NET, Initial(NET), STEPS))
    ensures !exists rank :: Ranked(NET, rank)
  {
    Leftover();
    LeftStranded();
    Unranked();
  }

  lemma Unranked()
    ensures !exists rank :: Ranked(NET, rank)
  {
    assert Den(NET, 0, 1) == Some(Value(0)) && Call(NET[1], Value(0)) == ReturnedFuture(1);
    assert Delegates(NET, 1, 1);
  }

  lemma {:induction false} Unreached(n: nat)
    ensures !ReachedIn(LEFT, 1, n)
  {
    if ReachedIn(LEFT, 1, n) {
      assert !Root(LEFT, 1);
      var c :| Edge(LEFT, c, 1) && ReachedIn(LEFT, c, n - 1);
      assert c == 1;
      Unreached(n - 1);
    }
  }

  // What never becomes ready

  /** State i waits for a state of C: its parent, or the one it delegates to. */
  ghost predicate WaitsIn(net: Net, C: set<Id>, i: Id) {
    i < |net| && net[i].Continued? && (net[i].parent in C || exists j :: j in C && Delegates(net, i, j))
  }

  /** The states of C wait for each other. */
  ghost predicate Entangled(net: Net, C: set<Id>) {
    forall i | i in C :: WaitsIn(net, C, i)
  }

  lemma {:induction false} NoDenotation(net: Net, C: set<Id>, i: Id, fuel: nat)
    requires Entangled(net, C) && i in C
    ensures Den(net, i, fuel).None?
    decreases fuel
  {
    assert WaitsIn(net, C, i);
    if fuel > 0 && Den(net, i, fuel).Some? {
      if net[i].parent in C {
        NoDenotation(net, C, net[i].parent, fuel - 1);
      } else {
        var j :| j in C && Delegates(net, i, j);
        DelegatesDen(net, i, j, fuel);
        NoDenotation(net, C, j, fuel - 1);
      }
    }
  }

  /** Self-referential networks are harmless to everybody else: in no run does a state that
      waits for itself, over any number of parents and delegations, become ready. */
  lemma NeverReady(net: Net, C: set<Id>, steps: seq<Step>, i: Id)
    requires Entangled(net, C) && i in C
    ensures !Ready(Run(net, Initial(net), steps).cells, i)
  {
    var s := Run(net, Initial(net), steps);
    Reachable(net, steps);
    if Ready(s.cells, i) {
      ReadyDenotes(net, s, i);
      var fuel: nat :| Den(net, i, fuel) == Some(Follow(s.cells, i, s.cells[i].readyAt + 1).value);
      NoDenotation(net, C, i, fuel);
    }
  }
}
