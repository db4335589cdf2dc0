/** Every step of the network keeps the structural invariant, so every run does. */
module NetworkSteps {
  import opened Outcomes
  import opened NetworkModel
  import opened NetworkLedger
  import opened NetworkSafety

  lemma InitialSafe(net: Net)
    ensures Safe(net, Initial(net))
  {
    var s := Initial(net);
    forall x: Item ensures Total(s, x) == 0 {
      NothingHeld(s.cells, x);
      FewCount(s.act, x);
    }
  }

  /** A strong reference an activity or a cell owns is counted, so its state lives. */
  lemma Holds(net: Net, s: State, k: nat, i: Id)
    requires Safe(net, s) && k < |s.act| && Count(s.act[k], Strong(i)) > 0
    ensures s.strong[i] > 0 && i < |net| && s.cells[i].life.Alive?
  {
    ActHas(s.act, k, Strong(i));
  }

  lemma CellHolds(net: Net, s: State, c: Id, i: Id)
    requires Safe(net, s) && c < |net| && CellCount(s.cells[c], Strong(i)) > 0
    ensures s.strong[i] > 0 && i < |net| && s.cells[i].life.Alive?
  {
    CellsHave(s.cells, c, Strong(i));
  }

  lemma LookHere(net: Net, s: State, k: nat, i: Id)
    requires Safe(net, s) && k < |s.act| && i < |net|
    ensures Here(net, s, k, i)
  {
    ActHas(s.act, k, Token(i));
  }

  /** The state after activity k gave way to others and nothing but counts changed. */
  function Swapped(s: State, k: nat, new_: seq<Activity>, strong: multiset<Id>): State
    requires k < |s.act|
  {
    s.(act := Splice(s.act, k, new_), strong := strong)
  }

  /** Activities that are no more than a token of i, or no more than a reference to it. */
  predicate OnlyToken(a: Activity, i: Id) {
    a == Owner(i) || a == Task(i) || a == Invoking(Schedule(i)) || a == Invoking(Forward(i))
  }

  predicate OnlyRef(a: Activity, i: Id) {
    a == Handle(i) || a == Temp(i) || a == Draining(i, []) || a == Invoking(Keep(i))
  }

  lemma OnlyCounts(a: Activity, i: Id, x: Item)
    ensures OnlyToken(a, i) ==> Count(a, x) == One(Token(i), x)
    ensures OnlyRef(a, i) ==> Count(a, x) == One(Strong(i), x)
  {
  }

  /** A token whose state is already gone is dropped: the lock failed. */
  lemma LoseToken(net: Net, s: State, k: nat, i: Id)
    requires Here(net, s, k, i) && s.strong[i] == 0 && OnlyToken(s.act[k], i)
    ensures Local(net, s, Swapped(s, k, [], s.strong), k, [], i, -1, multiset{}, multiset{})
  {
    forall x: Item ensures Few([], x) == Count(s.act[k], x) + Change(x, i, -1, multiset{}, multiset{}) {
      OnlyCounts(s.act[k], i, x);
    }
    Swap(net, s, Swapped(s, k, [], s.strong), k, [], i, -1, multiset{}, multiset{});
  }

  /** An activity that only owned a reference ends. */
  lemma LoseRef(net: Net, s: State, k: nat, i: Id)
    requires Here(net, s, k, i) && OnlyRef(s.act[k], i)
    ensures Local(net, s, Swapped(s, k, [], s.strong - multiset{i}), k, [], i, 0, multiset{}, multiset{i})
  {
    forall x: Item ensures Few([], x) == Count(s.act[k], x) + Change(x, i, 0, multiset{}, multiset{i}) {
      OnlyCounts(s.act[k], i, x);
    }
    Swap(net, s, Swapped(s, k, [], s.strong - multiset{i}), k, [], i, 0, multiset{}, multiset{i});
  }

  lemma CopyLocal(net: Net, s: State, k: nat, i: Id)
    requires Here(net, s, k, i) && s.act[k] == Handle(i) && s.strong[i] > 0
    ensures Local(net, s, Swapped(s, k, [s.act[k], s.act[k]], s.strong + multiset{i}), k, [s.act[k], s.act[k]], i,
                  0, multiset{i}, multiset{})
  {
    Swap(net, s, Swapped(s, k, [s.act[k], s.act[k]], s.strong + multiset{i}), k, [s.act[k], s.act[k]], i,
         0, multiset{i}, multiset{});
  }

  lemma DrainLocal(net: Net, s: State, k: nat, i: Id, ks: seq<Continuation>)
    requires Here(net, s, k, i) && s.act[k] == Draining(i, ks) && ks != []
    ensures Local(net, s, Swapped(s, k, [Invoking(ks[0]), Draining(i, ks[1..])], s.strong), k,
                  [Invoking(ks[0]), Draining(i, ks[1..])], i, 0, multiset{}, multiset{})
  {
    var new_ := [Invoking(ks[0]), Draining(i, ks[1..])];
    Swap(net, s, Swapped(s, k, new_, s.strong), k, new_, i, 0, multiset{}, multiset{});
  }

  lemma ForwardLocal(net: Net, s: State, k: nat, o: Id)
    requires Here(net, s, k, o) && s.act[k] == Invoking(Forward(o)) && s.strong[o] > 0
    ensures Local(net, s, Swapped(s, k, [Executing(o)], s.strong + multiset{o}), k, [Executing(o)], o,
                  0, multiset{o}, multiset{})
  {
    Swap(net, s, Swapped(s, k, [Executing(o)], s.strong + multiset{o}), k, [Executing(o)], o, 0, multiset{o}, multiset{});
  }

  /** A push on a consumed stack fails and the callback is invoked by the pusher. */
  lemma FailedPush(net: Net, s: State, k: nat, kont: Continuation, p: Id, new_: seq<Activity>)
    requires Here(net, s, k, p) && s.cells[p].stack.Consumed?
    requires ContOk(net, s.cells, kont) && Subject(net, s.cells, kont) == p
    requires match s.act[k]
             case Subscribing(c) => kont == Schedule(c) && c < |net| && new_ == [Invoking(kont), Handle(c)]
             case Linking(o, j) =>
               kont == Forward(o) && o < |net| && j < |net| && new_ == [Invoking(kont), Temp(o), Temp(j)]
             case _ => false
    ensures Local(net, s, Swapped(s, k, new_, s.strong), k, new_, p, 0, multiset{}, multiset{})
  {
    Swap(net, s, Swapped(s, k, new_, s.strong), k, new_, p, 0, multiset{}, multiset{});
  }

  // Creating states

  lemma MakePromiseLocal(net: Net, s: State, s': State, i: Id)
    requires Here(net, s, 0, i) && net[i].Promised? && s.cells[i].life.Unborn? && s.act[0] == World
    requires s' == Update(s, 0, [World, Owner(i), Handle(i)], i, BLANK.(life := Alive), s.strong + multiset{i})
    ensures Local(net, s, s', 0, [World, Owner(i), Handle(i)], i, 1, multiset{i}, multiset{})
  {
    LocalBalance(s, s', 0, [World, Owner(i), Handle(i)], i, 1, multiset{i}, multiset{});
    assert Total(s', Token(i)) == Total(s, Token(i)) + Change(Token(i), i, 1, multiset{i}, multiset{});
  }

  lemma AttachLocal(net: Net, s: State, s': State, k: nat, c: Id)
    requires Here(net, s, k, c) && net[c].Continued? && s.cells[c].life.Unborn?
    requires s.act[k] == Handle(net[c].parent) && s.strong[net[c].parent] > 0
    requires s' == Update(s, k, [Subscribing(c)], c, BLANK.(life := Alive, exec := true, action := Some(net[c].parent)),
                          s.strong + multiset{c})
    ensures Local(net, s, s', k, [Subscribing(c)], c, 1, multiset{c}, multiset{})
  {
    LocalBalance(s, s', k, [Subscribing(c)], c, 1, multiset{c}, multiset{});
    assert Total(s', Token(c)) == Total(s, Token(c)) + Change(Token(c), c, 1, multiset{c}, multiset{});
  }

  lemma AttachSharedLocal(net: Net, s: State, s': State, k: nat, c: Id, new_: seq<Activity>, up: multiset<Id>)
    requires Here(net, s, k, c) && net[c].Continued? && s.cells[c].life.Unborn?
    requires s.act[k] == Handle(net[c].parent) && s.strong[net[c].parent] > 0
    requires new_ == [Subscribing(c), Handle(net[c].parent)] && up == multiset{c, net[c].parent}
    requires s' == Update(s, k, new_, c, BLANK.(life := Alive, exec := true, action := Some(net[c].parent)), s.strong + up)
    ensures Local(net, s, s', k, new_, c, 1, up, multiset{})
  {
    LocalBalance(s, s', k, new_, c, 1, up, multiset{});
    assert Total(s', Token(c)) == Total(s, Token(c)) + Change(Token(c), c, 1, up, multiset{});
  }

  lemma SafeMakePromise(net: Net, s: State, i: Id)
    requires Safe(net, s) && Enabled(net, s, MakePromise(i))
    ensures Safe(net, DoMakePromise(net, s, i)) && AllKeep(s, DoMakePromise(net, s, i))
  {
    LookHere(net, s, 0, i);
    MakePromiseLocal(net, s, DoMakePromise(net, s, i), i);
    StepFrame(net, s, DoMakePromise(net, s, i), 0, [World, Owner(i), Handle(i)], i, 1, multiset{i}, multiset{});
  }

  lemma SafeAttach(net: Net, s: State, k: nat, c: Id, shared: bool)
    requires Safe(net, s) && Enabled(net, s, Attach(k, c, shared))
    ensures Safe(net, DoAttach(net, s, k, c, shared)) && AllKeep(s, DoAttach(net, s, k, c, shared))
  {
    var s', p := DoAttach(net, s, k, c, shared), net[c].parent;
    LookHere(net, s, k, c);
    Holds(net, s, k, p);
    if shared {
      AttachSharedLocal(net, s, s', k, c, [Subscribing(c), Handle(p)], multiset{c, p});
      StepFrame(net, s, s', k, [Subscribing(c), Handle(p)], c, 1, multiset{c, p}, multiset{});
    } else {
      AttachLocal(net, s, s', k, c);
      StepFrame(net, s, s', k, [Subscribing(c)], c, 1, multiset{c}, multiset{});
    }
  }

  // Pushing callbacks

  /** A callback put on the stack it belongs to, in exchange for `token`s of activity k. */
  lemma PushLocal(net: Net, s: State, s': State, k: nat, kont: Continuation, p: Id,
                  new_: seq<Activity>, up: multiset<Id>)
    requires Here(net, s, k, p) && s.cells[p].stack.Open? && s.cells[p].life.Alive?
    requires ContOk(net, s.cells, kont) && Subject(net, s.cells, kont) == p && |new_| <= 3
    requires s' == Update(s, k, new_, p, s.cells[p].(stack := Opened(s.cells[p].stack, kont)), s.strong + up)
    requires forall x: Item :: Few(new_, x) + One(ContItem(kont), x)
                            == Count(s.act[k], x) + Change(x, p, 0, up, multiset{})
    requires forall j: Id | j in up :: s.strong[j] > 0
    requires forall a | a in new_ :: (a.Handle? || a.Temp?) && a.id < |net|
    ensures Local(net, s, s', k, new_, p, 0, up, multiset{})
  {
    assert s'.cells[p].stack.conts[1..] == s.cells[p].stack.conts;
    LocalBalance(s, s', k, new_, p, 0, up, multiset{});
    assert Total(s', Token(p)) == Total(s, Token(p)) + Change(Token(p), p, 0, up, multiset{});
    forall j | j in s'.cells[p].stack.conts
      ensures ContOk(net, s'.cells, j) && Subject(net, s'.cells, j) == p
    {
      ContKept(net, s.cells, p, s'.cells[p], j);
    }
  }

  /** A callback moved by its token from activity k onto the stack it belongs to. */
  lemma SuccessfulPush(net: Net, s: State, s': State, k: nat, kont: Continuation, p: Id, new_: seq<Activity>)
    requires Here(net, s, k, p) && s.cells[p].stack.Open? && s.cells[p].life.Alive?
    requires ContOk(net, s.cells, kont) && Subject(net, s.cells, kont) == p
    requires match s.act[k]
             case Subscribing(c) => kont == Schedule(c) && c < |net| && new_ == [Handle(c)]
             case Linking(o, j) => kont == Forward(o) && o < |net| && j < |net| && new_ == [Temp(o), Temp(j)]
             case _ => false
    requires s' == Update(s, k, new_, p, s.cells[p].(stack := Opened(s.cells[p].stack, kont)), s.strong)
    ensures Local(net, s, s', k, new_, p, 0, multiset{}, multiset{})
  {
    PushLocal(net, s, s', k, kont, p, new_, multiset{});
  }

  lemma SafeDetach(net: Net, s: State, k: nat)
    requires Safe(net, s) && Enabled(net, s, Detach(k))
    ensures Safe(net, DoDetach(net, s, k)) && AllKeep(s, DoDetach(net, s, k))
  {
    var i, s' := s.act[k].id, DoDetach(net, s, k);
    forall j: Id | j < |net| ensures Keeps(s.cells[j], s.cells[j]) {
      assert CellOk(net, s.cells, s.clock, j);
    }
    if s.cells[i].stack.Open? {
      LookHere(net, s, k, i);
      Holds(net, s, k, i);
      PushLocal(net, s, s', k, Keep(i), i, [s.act[k]], multiset{i});
      StepFrame(net, s, s', k, [s.act[k]], i, 0, multiset{i}, multiset{});
    }
  }

  lemma SafeSubscribe(net: Net, s: State, k: nat)
    requires Safe(net, s) && Enabled(net, s, Push(k)) && s.act[k].Subscribing?
    ensures Safe(net, DoPush(net, s, k)) && AllKeep(s, DoPush(net, s, k))
  {
    var c, s' := s.act[k].c, DoPush(net, s, k);
    var p := net[c].parent;
    LookHere(net, s, k, c);
    Holds(net, s, k, c);
    CellHolds(net, s, c, p);
    LookHere(net, s, k, p);
    if s.cells[p].stack.Open? {
      SuccessfulPush(net, s, s', k, Schedule(c), p, [Handle(c)]);
      StepFrame(net, s, s', k, [Handle(c)], p, 0, multiset{}, multiset{});
    } else {
      var new_ := [Invoking(Schedule(c)), Handle(c)];
      FailedPush(net, s, k, Schedule(c), p, new_);
      assert s' == Swapped(s, k, new_, s.strong);
      StepFrame(net, s, s', k, new_, p, 0, multiset{}, multiset{});
    }
  }

  lemma SafeLink(net: Net, s: State, k: nat)
    requires Safe(net, s) && Enabled(net, s, Push(k)) && s.act[k].Linking?
    ensures Safe(net, DoPush(net, s, k)) && AllKeep(s, DoPush(net, s, k))
  {
    var o, j, s' := s.act[k].outer, s.act[k].inner, DoPush(net, s, k);
    Holds(net, s, k, o);
    Holds(net, s, k, j);
    LookHere(net, s, k, j);
    if s.cells[j].stack.Open? {
      SuccessfulPush(net, s, s', k, Forward(o), j, [Temp(o), Temp(j)]);
      StepFrame(net, s, s', k, [Temp(o), Temp(j)], j, 0, multiset{}, multiset{});
    } else {
      var new_ := [Invoking(Forward(o)), Temp(o), Temp(j)];
      FailedPush(net, s, k, Forward(o), j, new_);
      assert s' == Swapped(s, k, new_, s.strong);
      StepFrame(net, s, s', k, new_, j, 0, multiset{}, multiset{});
    }
  }

  // Completing states

  lemma CompleteLocal(net: Net, s: State, s': State, k: nat, p: Id, o: Outcome)
    requires Here(net, s, k, p) && s.act[k] == Owner(p) && s.strong[p] > 0
    requires s' == Update(s, k, [Executing(p)], p, s.cells[p].(storage := StorageOf(o)), s.strong + multiset{p})
    ensures Local(net, s, s', k, [Executing(p)], p, 0, multiset{p}, multiset{})
  {
    LocalBalance(s, s', k, [Executing(p)], p, 0, multiset{p}, multiset{});
    assert Total(s', Token(p)) == Total(s, Token(p)) + Change(Token(p), p, 0, multiset{p}, multiset{});
  }

  lemma SafeComplete(net: Net, s: State, k: nat)
    requires Safe(net, s) && Enabled(net, s, Complete(k))
    ensures Safe(net, DoComplete(net, s, k)) && AllKeep(s, DoComplete(net, s, k))
  {
    var p, s' := s.act[k].id, DoComplete(net, s, k);
    LookHere(net, s, k, p);
    if Lockable(s, p) {
      CompleteLocal(net, s, s', k, p, net[p].result.value);
      StepFrame(net, s, s', k, [Executing(p)], p, 0, multiset{p}, multiset{});
    } else {
      LoseToken(net, s, k, p);
      assert s' == Swapped(s, k, [], s.strong);
      StepFrame(net, s, s', k, [], p, -1, multiset{}, multiset{});
    }
  }

  lemma ExecuteLocal(net: Net, s: State, s': State, k: nat, i: Id, ks: seq<Continuation>)
    requires Here(net, s, k, i) && s.act[k] == Executing(i) && s.cells[i].stack == Open(ks) && s.cells[i].life.Alive?
    requires s.cells[i].storage.HasInner? ==> CellOk(net, s.cells, s.clock, s.cells[i].storage.inner)
    requires ContCount(ks, Token(i)) == 0
    requires s' == Update(s, k, [Draining(i, ks)], i, s.cells[i].(stack := Consumed, readyAt := s.clock), s.strong)
                     .(clock := s.clock + 1)
    ensures Local(net, s, s', k, [Draining(i, ks)], i, -1, multiset{}, multiset{})
  {
    var new_ := [Draining(i, ks)];
    LocalBalance(s, s', k, new_, i, -1, multiset{}, multiset{});
    assert Total(s', Token(i)) == Total(s, Token(i)) + Change(Token(i), i, -1, multiset{}, multiset{});
    forall j | j in ks ensures Fired(net, s'.cells, j) {
      var n :| 0 <= n < |ks| && ks[n] == j;
      ContsHave(ks, n);
      ContKept(net, s.cells, i, s'.cells[i], j);
    }
  }

  lemma SafeExecute(net: Net, s: State, k: nat)
    requires Safe(net, s) && Enabled(net, s, Execute(k))
    ensures Safe(net, DoExecute(net, s, k)) && AllKeep(s, DoExecute(net, s, k))
  {
    var i, s' := s.act[k].id, DoExecute(net, s, k);
    LookHere(net, s, k, i);
    Holds(net, s, k, i);
    ActAndCell(s, k, i, Token(i));
    var ks := s.cells[i].stack.conts;
    if s.cells[i].storage.HasInner? {
      assert CellOk(net, s.cells, s.clock, s.cells[i].storage.inner);
    }
    ExecuteLocal(net, s, s', k, i, ks);
    StepFrame(net, s, s', k, [Draining(i, ks)], i, -1, multiset{}, multiset{});
  }

  lemma SafeDrain(net: Net, s: State, k: nat)
    requires Safe(net, s) && Enabled(net, s, Drain(k))
    ensures Safe(net, DoDrain(net, s, k)) && AllKeep(s, DoDrain(net, s, k))
  {
    var i, ks, s' := s.act[k].id, s.act[k].ks, DoDrain(net, s, k);
    Holds(net, s, k, i);
    LookHere(net, s, k, i);
    if ks == [] {
      LoseRef(net, s, k, i);
      StepFrame(net, s, s', k, [], i, 0, multiset{}, multiset{i});
    } else {
      var new_ := [Invoking(ks[0]), Draining(i, ks[1..])];
      DrainLocal(net, s, k, i, ks);
      StepFrame(net, s, s', k, new_, i, 0, multiset{}, multiset{});
    }
  }

  // Calling back

  lemma ScheduleLocal(net: Net, s: State, s': State, k: nat, c: Id)
    requires Here(net, s, k, c) && s.act[k] == Invoking(Schedule(c))
    requires s' == Update(s, k, [Task(c)], c, s.cells[c].(exec := false), s.strong)
    ensures Local(net, s, s', k, [Task(c)], c, 0, multiset{}, multiset{})
  {
    LocalBalance(s, s', k, [Task(c)], c, 0, multiset{}, multiset{});
    assert Total(s', Token(c)) == Total(s, Token(c)) + Change(Token(c), c, 0, multiset{}, multiset{});
  }

  lemma SafeLetGo(net: Net, s: State, k: nat)
    requires Safe(net, s) && Enabled(net, s, Invoke(k)) && s.act[k].k.Keep?
    ensures Safe(net, DoInvoke(net, s, k)) && AllKeep(s, DoInvoke(net, s, k))
  {
    var i := s.act[k].k.self;
    assert ActOk(net, s.cells, s.act[k]);
    LookHere(net, s, k, i);
    LoseRef(net, s, k, i);
    StepFrame(net, s, DoInvoke(net, s, k), k, [], i, 0, multiset{}, multiset{i});
  }

  /** The weak pointer of the callback has expired. */
  lemma SafeExpired(net: Net, s: State, k: nat, i: Id)
    requires Safe(net, s) && Enabled(net, s, Invoke(k)) && !Lockable(s, i)
    requires s.act[k].k == Schedule(i) || s.act[k].k == Forward(i)
    ensures Safe(net, DoInvoke(net, s, k)) && AllKeep(s, DoInvoke(net, s, k))
  {
    assert ActOk(net, s.cells, s.act[k]);
    LookHere(net, s, k, i);
    LoseToken(net, s, k, i);
    assert DoInvoke(net, s, k) == Swapped(s, k, [], s.strong);
    StepFrame(net, s, DoInvoke(net, s, k), k, [], i, -1, multiset{}, multiset{});
  }

  lemma SafeSchedule(net: Net, s: State, k: nat, c: Id)
    requires Safe(net, s) && Enabled(net, s, Invoke(k)) && Lockable(s, c) && s.act[k].k == Schedule(c)
    ensures Safe(net, DoInvoke(net, s, k)) && AllKeep(s, DoInvoke(net, s, k))
  {
    var s' := DoInvoke(net, s, k);
    assert ActOk(net, s.cells, s.act[k]);
    LookHere(net, s, k, c);
    ScheduleLocal(net, s, s', k, c);
    StepFrame(net, s, s', k, [Task(c)], c, 0, multiset{}, multiset{});
  }

  lemma SafeForward(net: Net, s: State, k: nat, o: Id)
    requires Safe(net, s) && Enabled(net, s, Invoke(k)) && Lockable(s, o) && s.act[k].k == Forward(o)
    ensures Safe(net, DoInvoke(net, s, k)) && AllKeep(s, DoInvoke(net, s, k))
  {
    assert ActOk(net, s.cells, s.act[k]);
    LookHere(net, s, k, o);
    ForwardLocal(net, s, k, o);
    StepFrame(net, s, DoInvoke(net, s, k), k, [Executing(o)], o, 0, multiset{o}, multiset{});
  }

  lemma SafeInvoke(net: Net, s: State, k: nat)
    requires Safe(net, s) && Enabled(net, s, Invoke(k))
    ensures Safe(net, DoInvoke(net, s, k)) && AllKeep(s, DoInvoke(net, s, k))
  {
    match s.act[k].k
    case Keep(_) => SafeLetGo(net, s, k);
    case Schedule(c) => if Lockable(s, c) { SafeSchedule(net, s, k, c); } else { SafeExpired(net, s, k, c); }
    case Forward(o) => if Lockable(s, o) { SafeForward(net, s, k, o); } else { SafeExpired(net, s, k, o); }
  }

  lemma RunTaskLocal(net: Net, s: State, s': State, k: nat, c: Id, p: Id, new_: seq<Activity>, cell: Cell)
    requires Here(net, s, k, c) && s.act[k] == Task(c) && s.strong[c] > 0 && p == net[c].parent < |net|
    requires if net[c].runs
             then (new_, cell) == (Started(net[c], c, p), s.cells[c].(action := None, calls := s.cells[c].calls + 1))
             else (new_, cell) == ([Executing(c), Temp(p)], s.cells[c].(action := None, storage := HasError(BrokenPromise)))
    requires s' == Update(s, k, new_, c, cell, s.strong + multiset{c})
    ensures Local(net, s, s', k, new_, c, 0, multiset{c}, multiset{})
  {
    LocalBalance(s, s', k, new_, c, 0, multiset{c}, multiset{});
    assert Total(s', Token(c)) == Total(s, Token(c)) + Change(Token(c), c, 0, multiset{c}, multiset{});
  }

  lemma SafeRunTask(net: Net, s: State, k: nat)
    requires Safe(net, s) && Enabled(net, s, RunTask(k))
    ensures Safe(net, DoRunTask(net, s, k)) && AllKeep(s, DoRunTask(net, s, k))
  {
    var c, s' := s.act[k].c, DoRunTask(net, s, k);
    LookHere(net, s, k, c);
    if !Lockable(s, c) {
      LoseToken(net, s, k, c);
      assert s' == Swapped(s, k, [], s.strong);
      StepFrame(net, s, s', k, [], c, -1, multiset{}, multiset{});
    } else {
      var p := net[c].parent;
      CellHolds(net, s, c, p);
      var new_ := if net[c].runs then Started(net[c], c, p) else [Executing(c), Temp(p)];
      RunTaskLocal(net, s, s', k, c, p, new_, s'.cells[c]);
      StepFrame(net, s, s', k, new_, c, 0, multiset{c}, multiset{});
    }
  }

  lemma ReturnLocal(net: Net, s: State, s': State, k: nat, c: Id, p: Id, st: Storage)
    requires Here(net, s, k, c) && s.act[k].Running? && s.act[k].c == c && s.act[k].parent == p && s.strong[c] > 0
    requires st.HasValue? || st.HasError?
    requires s' == Update(s, k, [Executing(c)] + Closure(s.act[k]), c, s.cells[c].(storage := st), s.strong)
    ensures Local(net, s, s', k, [Executing(c)] + Closure(s.act[k]), c, 0, multiset{}, multiset{})
  {
    LocalBalance(s, s', k, [Executing(c)] + Closure(s.act[k]), c, 0, multiset{}, multiset{});
    assert Total(s', Token(c)) == Total(s, Token(c)) + Change(Token(c), c, 0, multiset{}, multiset{});
  }

  lemma UnwrapLocal(net: Net, s: State, s': State, k: nat, c: Id, p: Id, j: Id)
    requires Here(net, s, k, c) && s.act[k].Running? && s.act[k].c == c && s.act[k].parent == p && s.strong[c] > 0
    requires s.strong[j] > 0 && j < |net|
    requires s' == Update(s, k, [Linking(c, j)] + Closure(s.act[k]), c, s.cells[c].(storage := HasInner(j)),
                          s.strong + multiset{j, j})
    ensures Local(net, s, s', k, [Linking(c, j)] + Closure(s.act[k]), c, 0, multiset{j, j}, multiset{})
  {
    LocalBalance(s, s', k, [Linking(c, j)] + Closure(s.act[k]), c, 0, multiset{j, j}, multiset{});
    assert Total(s', Token(c)) == Total(s, Token(c)) + Change(Token(c), c, 0, multiset{j, j}, multiset{});
  }

  lemma SafeReturn(net: Net, s: State, k: nat, depth: nat)
    requires Safe(net, s) && Enabled(net, s, Return(k, depth))
    ensures Safe(net, DoReturn(net, s, k, depth)) && AllKeep(s, DoReturn(net, s, k, depth))
  {
    var c, p, s' := s.act[k].c, s.act[k].parent, DoReturn(net, s, k, depth);
    LookHere(net, s, k, c);
    Holds(net, s, k, c);
    match Call(net[c], Follow(s.cells, p, depth).value)
    case ReturnedFuture(j) =>
      var h :| 0 <= h < |s.act| && s.act[h] == Handle(j);
      Holds(net, s, h, j);
      UnwrapLocal(net, s, s', k, c, p, j);
      StepFrame(net, s, s', k, [Linking(c, j)] + Closure(s.act[k]), c, 0, multiset{j, j}, multiset{});
    case _ =>
      ReturnLocal(net, s, s', k, c, p, s'.cells[c].storage);
      StepFrame(net, s, s', k, [Executing(c)] + Closure(s.act[k]), c, 0, multiset{}, multiset{});
  }

  // Handles

  lemma SafeHandles(net: Net, s: State, step: Step)
    requires Safe(net, s) && Enabled(net, s, step) && (step.Copy? || step.Drop?)
    ensures Safe(net, Apply(net, s, step)) && AllKeep(s, Apply(net, s, step))
  {
    var k, s' := step.k, Apply(net, s, step);
    var i := s.act[k].id;
    Holds(net, s, k, i);
    LookHere(net, s, k, i);
    if step.Copy? {
      var new_ := [s.act[k], s.act[k]];
      CopyLocal(net, s, k, i);
      StepFrame(net, s, s', k, new_, i, 0, multiset{i}, multiset{});
    } else {
      LoseRef(net, s, k, i);
      StepFrame(net, s, s', k, [], i, 0, multiset{}, multiset{i});
    }
  }

  // Destroying states

  /** The nodes on the stack of a state that dies own no reference. */
  lemma DyingKeepsNothing(net: Net, s: State, i: Id, j: Id)
    requires Safe(net, s) && Enabled(net, s, Destroy(i)) && s.cells[i].stack.Open?
    ensures ContCount(s.cells[i].stack.conts, Strong(j)) == 0
  {
    var ks := s.cells[i].stack.conts;
    if ContCount(ks, Strong(j)) > 0 {
      var n := ContHolder(ks, Strong(j));
      assert CellOk(net, s.cells, s.clock, i) && ks[n] in ks;
      assert s.strong[i] == Total(s, Strong(i));
      CellsHave(s.cells, i, Strong(i));
    }
  }

  /** ... and no token of a state that lives on: that state would hold this one. */
  lemma DyingCarriesNobody(net: Net, s: State, i: Id, j: Id)
    requires Safe(net, s) && Enabled(net, s, Destroy(i)) && s.cells[i].stack.Open?
    requires s.strong[j] > 0
    ensures ContCount(s.cells[i].stack.conts, Token(j)) == 0
  {
    var ks := s.cells[i].stack.conts;
    if ContCount(ks, Token(j)) > 0 {
      var n := ContHolder(ks, Token(j));
      assert CellOk(net, s.cells, s.clock, i) && ks[n] in ks;
      assert s.strong[i] == Total(s, Strong(i));
      CellsHave(s.cells, j, Strong(i));
    }
  }

  lemma DestroyTotals(net: Net, s: State, i: Id, x: Item)
    requires Safe(net, s) && Enabled(net, s, Destroy(i))
    ensures Total(DoDestroy(net, s, i), x) == Total(s, x) - CellCount(s.cells[i], x)
  {
    CellUpdateCount(s.cells, i, DoDestroy(net, s, i).cells[i], x);
  }

  lemma DestroyCounted(net: Net, s: State, i: Id)
    requires Safe(net, s) && Enabled(net, s, Destroy(i))
    ensures Counted(DoDestroy(net, s, i))
  {
    var s' := DoDestroy(net, s, i);
    forall j: Id ensures s'.strong[j] == Total(s', Strong(j)) {
      DestroyTotals(net, s, i, Strong(j));
      CellsHave(s.cells, i, Strong(j));
      if s.cells[i].stack.Open? {
        DyingKeepsNothing(net, s, i, j);
      }
      assert Owned(s.cells[i])[j] == CellCount(s.cells[i], Strong(j));
      assert s.strong[j] == Total(s, Strong(j));
    }
  }

  lemma DestroyCells(net: Net, s: State, i: Id)
    requires Safe(net, s) && Enabled(net, s, Destroy(i))
    ensures var s' := DoDestroy(net, s, i);
            forall j: Id | j < |net| :: TokenOk(s', j) && CellOk(net, s'.cells, s'.clock, j)
  {
    var s' := DoDestroy(net, s, i);
    assert CellOk(net, s.cells, s.clock, i) && TokenOk(s, i);
    forall j: Id | j < |net| ensures TokenOk(s', j) && CellOk(net, s'.cells, s'.clock, j) {
      assert CellOk(net, s.cells, s.clock, j) && TokenOk(s, j);
      DestroyTotals(net, s, i, Token(j));
      if s.strong[j] > 0 && s.cells[i].stack.Open? {
        DyingCarriesNobody(net, s, i, j);
      }
      if j != i {
        CellKept(net, s.cells, s.clock, i, s'.cells[i], s'.clock, j);
      }
    }
  }

  lemma SafeDestroy(net: Net, s: State, i: Id)
    requires Safe(net, s) && Enabled(net, s, Destroy(i))
    ensures Safe(net, DoDestroy(net, s, i)) && AllGrow(s, DoDestroy(net, s, i))
  {
    var s' := DoDestroy(net, s, i);
    DestroyCounted(net, s, i);
    DestroyCells(net, s, i);
    forall j: Id | j < |net| ensures Grows(s.cells[j], s'.cells[j]) {
      assert CellOk(net, s.cells, s.clock, j);
    }
    forall m | 0 <= m < |s'.act| ensures ActOk(net, s'.cells, s'.act[m]) {
      ActKept(net, s.cells, i, s'.cells[i], s.act[m]);
    }
  }

  // Runs

  lemma StepSafe(net: Net, s: State, step: Step)
    requires Safe(net, s) && Enabled(net, s, step)
    ensures Safe(net, Apply(net, s, step)) && AllGrow(s, Apply(net, s, step))
    ensures !step.Destroy? ==> AllKeep(s, Apply(net, s, step))
  {
    match step
    case MakePromise(i) => SafeMakePromise(net, s, i);
    case Attach(k, c, shared) => SafeAttach(net, s, k, c, shared);
    case Copy(_) => SafeHandles(net, s, step);
    case Drop(_) => SafeHandles(net, s, step);
    case Detach(k) => SafeDetach(net, s, k);
    case Complete(k) => SafeComplete(net, s, k);
    case Push(k) => if s.act[k].Subscribing? { SafeSubscribe(net, s, k); } else { SafeLink(net, s, k); }
    case Execute(k) => SafeExecute(net, s, k);
    case Drain(k) => SafeDrain(net, s, k);
    case Invoke(k) => SafeInvoke(net, s, k);
    case RunTask(k) => SafeRunTask(net, s, k);
    case Return(k, depth) => SafeReturn(net, s, k, depth);
    case Destroy(i) => SafeDestroy(net, s, i);
  }

  lemma {:induction false} RunSafe(net: Net, s: State, steps: seq<Step>)
    requires Safe(net, s)
    ensures Safe(net, Run(net, s, steps))
    decreases |steps|
  {
    if steps != [] {
      if Enabled(net, s, steps[0]) {
        StepSafe(net, s, steps[0]);
        RunSafe(net, Apply(net, s, steps[0]), steps[1..]);
      } else {
        RunSafe(net, s, steps[1..]);
      }
    }
  }

  /** Main result: in every reachable state the explicit counts are the references that
      exist and every unready live state is carried by exactly one token. */
  lemma ReachableSafe(net: Net, steps: seq<Step>)
    ensures Safe(net, Run(net, Initial(net), steps))
  {
    InitialSafe(net);
    RunSafe(net, Initial(net), steps);
  }
}
