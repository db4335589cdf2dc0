/** The latch: threads that wait, count down or do both, and the destructor that waits for
    the waiters to leave. A critical section is one step; going to sleep on the condition
    variable releases the mutex in the same step, and a sleeping thread may wake for no
    reason at all. */
module Latch {
  import opened Outcomes

  datatype Op = Wait | CountDown(n: nat) | CountDownAndWait | Destroy

  /** `Notifying` is count_down after it has released the mutex. */
  datatype Pc = Idle | Asleep | Woken | Notifying | Returned

  datatype Thread = Thread(op: Op, pc: Pc)

  /** `dying` is the thread that has entered the destructor. */
  datatype State = State(counter: nat, waiters: nat, threads: seq<Thread>, dying: Option<nat>)

  /** `Enter` starts the call of thread t, `Retry` is the re-evaluation of the predicate by a
      woken thread; `target` is the thread that the single notify_one of the step reaches, if
      there is any thread asleep. */
  datatype Step =
    | Enter(t: nat, target: nat)
    | Retry(t: nat, target: nat)
    | NotifyAll(t: nat)
    | Spurious(t: nat)

  /** A thread counted in waiters_. */
  predicate Counted(th: Thread) { (th.op.Wait? || th.op.CountDownAndWait?) && (th.pc.Asleep? || th.pc.Woken?) }

  predicate Sleeping(s: State, t: nat) { t < |s.threads| && s.threads[t].pc.Asleep? }

  predicate SomeoneSleeps(s: State) { exists t :: 0 <= t < |s.threads| && s.threads[t].pc.Asleep? }

  /** What the callers owe: the counter is not taken below zero, there is one destructor, and
      no call begins after it. */
  predicate Enabled(s: State, step: Step) {
    match step
    case Enter(t, target) =>
      && t < |s.threads| && s.threads[t].pc.Idle? && s.dying.None?
      && (s.threads[t].op.CountDown? ==> s.threads[t].op.n <= s.counter)
      && (s.threads[t].op.CountDownAndWait? ==> 0 < s.counter)
      && (SomeoneSleeps(s) ==> Sleeping(s, target))
    case Retry(t, target) =>
      && t < |s.threads| && s.threads[t].pc.Woken?
      && (SomeoneSleeps(s) ==> Sleeping(s, target))
    case NotifyAll(t) => t < |s.threads| && s.threads[t].pc.Notifying?
    case Spurious(t) => Sleeping(s, t)
  }

  function Put(s: State, t: nat, pc: Pc): State
    requires t < |s.threads|
  {
    s.(threads := s.threads[t := s.threads[t].(pc := pc)])
  }

  function NotifiedOne(s: State, target: nat): State {
    if Sleeping(s, target) then Put(s, target, Woken) else s
  }

  function NotifiedAll(s: State): State {
    s.(threads := seq(|s.threads|, t requires 0 <= t < |s.threads| =>
                    if s.threads[t].pc.Asleep? then s.threads[t].(pc := Woken) else s.threads[t]))
  }

  /** The end of a wait at counter zero: the last to leave notifies. */
  function Left(s: State, t: nat, target: nat): State
    requires t < |s.threads|
  {
    var s' := Put(s, t, Returned);
    if s.waiters == 0 then NotifiedOne(s', target) else s'
  }

  function Apply(s: State, step: Step): State
    requires Enabled(s, step)
  {
    match step
    case Enter(t, target) =>
      (match s.threads[t].op
       case Wait =>
         if s.counter == 0 then Left(s, t, target) else Put(s.(waiters := s.waiters + 1), t, Asleep)
       case CountDownAndWait =>
         if s.counter == 1 then NotifiedAll(Put(s.(counter := 0), t, Returned))
         else Put(s.(counter := s.counter - 1, waiters := s.waiters + 1), t, Asleep)
       case CountDown(n) =>
         Put(s.(counter := s.counter - n), t, if s.counter > n then Returned else Notifying)
       case Destroy => Put(s.(dying := Some(t)), t, if s.waiters == 0 then Returned else Asleep))
    case Retry(t, target) =>
      if s.threads[t].op.Destroy? then Put(s, t, if s.waiters == 0 then Returned else Asleep)
      else if s.counter != 0 then Put(s, t, Asleep)
      else Left(s.(waiters := if s.waiters == 0 then 0 else s.waiters - 1), t, target)
    case NotifyAll(t) => NotifiedAll(Put(s, t, Returned))
    case Spurious(t) => Put(s, t, Woken)
  }

  function Run(s: State, steps: seq<Step>): State
    decreases |steps|
  {
    if steps == [] then s else Run(if Enabled(s, steps[0]) then Apply(s, steps[0]) else s, steps[1..])
  }

  predicate Initial(s: State) {
    s.waiters == 0 && s.dying.None? && forall t | 0 <= t < |s.threads| :: s.threads[t].pc.Idle?
  }

  // Counting the waiters

  function Waiters(threads: seq<Thread>): nat {
    if threads == [] then 0
    else Waiters(threads[..|threads| - 1]) + if Counted(threads[|threads| - 1]) then 1 else 0
  }

  lemma {:induction false} Replace(threads: seq<Thread>, t: nat, th: Thread)
    requires t < |threads|
    ensures Waiters(threads[t := th]) - (if Counted(th) then 1 else 0)
            == Waiters(threads) - (if Counted(threads[t]) then 1 else 0)
  {
    var k := |threads| - 1;
    if t == k {
      assert threads[t := th][..k] == threads[..k];
    } else {
      Replace(threads[..k], t, th);
      assert threads[t := th][..k] == threads[..k][t := th];
    }
  }

  /** Waking threads up leaves them counted. */
  lemma {:induction false} SameWaiters(a: seq<Thread>, b: seq<Thread>)
    requires |a| == |b| && forall t | 0 <= t < |a| :: Counted(a[t]) <==> Counted(b[t])
    ensures Waiters(a) == Waiters(b)
  {
    if a != [] {
      SameWaiters(a[..|a| - 1], b[..|b| - 1]);
    }
  }

  lemma {:induction false} NoWaiters(threads: seq<Thread>)
    ensures Waiters(threads) == 0 <==> forall t | 0 <= t < |threads| :: !Counted(threads[t])
  {
    if threads != [] {
      var k := |threads| - 1;
      NoWaiters(threads[..k]);
      assert forall t | 0 <= t < k :: threads[..k][t] == threads[t];
    }
  }

  // The invariant

  predicate Announced(s: State) { exists t :: 0 <= t < |s.threads| && s.threads[t].pc.Notifying? }

  predicate ThreadOk(s: State, t: nat)
    requires t < |s.threads|
  {
    var th := s.threads[t];
    && (th.pc.Notifying? ==> th.op.CountDown? && s.counter == 0)
    && (th.pc.Returned? && (th.op.Wait? || th.op.CountDownAndWait?) ==> s.counter == 0)
    && (th.pc.Asleep? || th.pc.Woken? ==> !th.op.CountDown?)
    && (th.op.Destroy? && !th.pc.Idle? ==> s.dying == Some(t))
    && (th.op.Destroy? && th.pc.Returned? ==> s.waiters == 0)
    && (th.op.Destroy? && th.pc.Asleep? ==> s.waiters > 0)
    && (Counted(th) && th.pc.Asleep? && s.counter == 0 ==> Announced(s))
  }

  predicate Inv(s: State) {
    s.waiters == Waiters(s.threads) && forall t | 0 <= t < |s.threads| :: ThreadOk(s, t)
  }

  lemma InitialInv(s: State)
    requires Initial(s)
    ensures Inv(s)
  {
    NoWaiters(s.threads);
  }

  /** The threads other than t after a section of t that changes neither counts downwards. */
  lemma OthersOk(s: State, s': State, t: nat, u: nat)
    requires |s'.threads| == |s.threads| && t < |s.threads| && u < |s.threads| && u != t && ThreadOk(s, u)
    requires s'.threads[u] == s.threads[u] || (s.threads[u].pc.Asleep? && s'.threads[u] == s.threads[u].(pc := Woken))
    requires s'.dying == s.dying || (s.dying.None? && s'.dying == Some(t))
    requires s'.counter <= s.counter && (s.waiters > 0 ==> s'.waiters > 0) && (s.waiters == 0 && s'.waiters > 0 ==> s.dying.None?)
    requires Announced(s) ==> Announced(s')
    requires s'.counter == 0 && s.counter > 0 ==> Announced(s') || !s'.threads[u].pc.Asleep?
    ensures ThreadOk(s', u)
  {
  }

  lemma EnterInv(s: State, t: nat, target: nat)
    requires Inv(s) && Enabled(s, Enter(t, target))
    ensures Inv(Apply(s, Enter(t, target)))
  {
    var s' := Apply(s, Enter(t, target));
    NoWaiters(s.threads);
    EnterCount(s, t, target);
    AnnouncedStays(s, s', t);
    forall u | 0 <= u < |s'.threads| ensures ThreadOk(s', u) {
      assert ThreadOk(s, u);
      if u != t {
        OthersOk(s, s', t, u);
      }
    }
  }

  lemma EnterCount(s: State, t: nat, target: nat)
    requires Inv(s) && Enabled(s, Enter(t, target))
    ensures var s' := Apply(s, Enter(t, target)); s'.waiters == Waiters(s'.threads)
  {
    var s' := Apply(s, Enter(t, target));
    if s.threads[t].op.CountDownAndWait? && s.counter == 1 {
      SameWaiters(s.threads, s'.threads);
    } else if s.threads[t].op.Wait? && s.counter == 0 {
      SameWaiters(s.threads, s'.threads);
    } else {
      Replace(s.threads, t, s'.threads[t]);
      assert s'.threads == s.threads[t := s'.threads[t]];
    }
  }

  /** A pending notification stays pending while others move. */
  lemma AnnouncedStays(s: State, s': State, t: nat)
    requires |s'.threads| == |s.threads| && t < |s.threads| && !s.threads[t].pc.Notifying?
    requires forall u | 0 <= u < |s.threads| && u != t && s.threads[u].pc.Notifying? :: s'.threads[u] == s.threads[u]
    ensures Announced(s) ==> Announced(s')
    ensures s'.threads[t].pc.Notifying? ==> Announced(s')
  {
    if Announced(s) {
      var u :| 0 <= u < |s.threads| && s.threads[u].pc.Notifying?;
      assert s'.threads[u].pc.Notifying?;
    }
  }

  lemma RetryInv(s: State, t: nat, target: nat)
    requires Inv(s) && Enabled(s, Retry(t, target))
    ensures Inv(Apply(s, Retry(t, target)))
  {
    var s' := Apply(s, Retry(t, target));
    assert ThreadOk(s, t);
    RetryCount(s, t, target);
    AnnouncedStays(s, s', t);
    forall u | 0 <= u < |s'.threads| ensures ThreadOk(s', u) {
      assert ThreadOk(s, u);
      if u != t {
        if s'.waiters == 0 < s.waiters {
          LastOneWakes(s, t, target, u);
        } else {
          OthersOk(s, s', t, u);
        }
      }
    }
  }

  lemma RetryCount(s: State, t: nat, target: nat)
    requires Inv(s) && Enabled(s, Retry(t, target))
    ensures var s' := Apply(s, Retry(t, target)); s'.waiters == Waiters(s'.threads)
  {
    var s' := Apply(s, Retry(t, target));
    assert ThreadOk(s, t);
    NoWaiters(s.threads);
    Replace(s.threads, t, s'.threads[t]);
    SameWaiters(s.threads[t := s'.threads[t]], s'.threads);
  }

  /** When the last waiting thread leaves, nobody but the destructor can be asleep, so the
      one notification reaches it. */
  lemma LastOneWakes(s: State, t: nat, target: nat, u: nat)
    requires Inv(s) && Enabled(s, Retry(t, target)) && u < |s.threads| && u != t
    requires Apply(s, Retry(t, target)).waiters == 0 < s.waiters
    ensures var s' := Apply(s, Retry(t, target));
            && |s'.threads| == |s.threads| && !s'.threads[u].pc.Asleep?
            && (s'.threads[u] == s.threads[u] || s'.threads[u] == s.threads[u].(pc := Woken))
  {
    var s' := Apply(s, Retry(t, target));
    RetryCount(s, t, target);
    NoWaiters(s'.threads);
    assert !Counted(s'.threads[u]);
    assert ThreadOk(s, u);
    if s.threads[u].pc.Asleep? {
      assert SomeoneSleeps(s);
      assert !Counted(s'.threads[target]);
      assert ThreadOk(s, target);
    }
  }

  lemma WakeInv(s: State, step: Step)
    requires Inv(s) && Enabled(s, step) && (step.NotifyAll? || step.Spurious?)
    ensures Inv(Apply(s, step))
  {
    var s' := Apply(s, step);
    assert ThreadOk(s, step.t);
    SameWaiters(s.threads, s'.threads);
    if step.Spurious? {
      AnnouncedStays(s, s', step.t);
    }
    forall u | 0 <= u < |s'.threads| ensures ThreadOk(s', u) {
      assert ThreadOk(s, u);
    }
  }

  lemma StepInv(s: State, step: Step)
    requires Inv(s) && Enabled(s, step)
    ensures Inv(Apply(s, step))
  {
    match step
    case Enter(t, target) => EnterInv(s, t, target);
    case Retry(t, target) => RetryInv(s, t, target);
    case _ => WakeInv(s, step);
  }

  lemma {:induction false} RunInv(s: State, steps: seq<Step>)
    requires Inv(s)
    ensures Inv(Run(s, steps))
    decreases |steps|
  {
    if steps != [] {
      if Enabled(s, steps[0]) {
        StepInv(s, steps[0]);
        RunInv(Apply(s, steps[0]), steps[1..]);
      } else {
        RunInv(s, steps[1..]);
      }
    }
  }

  ghost predicate Reachable(s: State) {
    exists init, steps :: Initial(init) && s == Run(init, steps)
  }

  lemma ReachableInv(s: State)
    requires Reachable(s)
    ensures Inv(s)
  {
    var init, steps :| Initial(init) && s == Run(init, steps);
    InitialInv(init);
    RunInv(init, steps);
  }

  // The claims

  /** Waits return only at counter zero, waiters_ is the number of threads inside a wait, and
      at counter zero no waiter sleeps unless a notify_all is still to come. */
  lemma WaitsAreSafe(s: State)
    requires Reachable(s)
    ensures s.waiters == Waiters(s.threads)
    ensures forall th | th in s.threads && th.pc.Returned? && (th.op.Wait? || th.op.CountDownAndWait?) :: s.counter == 0
    ensures s.counter == 0 && !Announced(s) ==> forall th | th in s.threads && Counted(th) :: th.pc.Woken?
  {
    ReachableInv(s);
    forall th | th in s.threads
      ensures th.pc.Returned? && (th.op.Wait? || th.op.CountDownAndWait?) ==> s.counter == 0
      ensures s.counter == 0 && !Announced(s) && Counted(th) ==> th.pc.Woken?
    {
      var t :| 0 <= t < |s.threads| && s.threads[t] == th;
      assert ThreadOk(s, t);
    }
  }

  /** A call can begin whenever its caller keeps to the rules, and the thread is in it then. */
  lemma MayBegin(s: State, t: nat)
    requires Reachable(s) && t < |s.threads| && s.threads[t].pc.Idle? && s.dying.None?
    requires Takes(s.threads[t].op) <= s.counter
    ensures exists target :: Enabled(s, Enter(t, target)) && t < |Apply(s, Enter(t, target)).threads|
                             && !Apply(s, Enter(t, target)).threads[t].pc.Idle?
  {
    assert Enabled(s, Enter(t, Sleeper(s)));
  }

  /** A call that is begun returns at once or sleeps: a wait returns exactly at zero, the call that
      takes the count to zero notifies, a count_down with something left does not, and the destructor
      returns exactly when there is no waiter. */
  lemma BeginsExactly(s: State, t: nat, target: nat)
    requires Reachable(s) && Enabled(s, Enter(t, target))
    ensures var s' := Apply(s, Enter(t, target));
            && |s'.threads| == |s.threads| && t < |s.threads|
            && match s.threads[t].op
               case Wait => s'.counter == s.counter && s'.threads[t].pc == if s.counter == 0 then Returned else Asleep
               case CountDown(n) =>
                 s'.counter == s.counter - n && s'.threads[t].pc == if s.counter == n then Notifying else Returned
               case CountDownAndWait =>
                 s'.counter == s.counter - 1 && s'.threads[t].pc == if s.counter == 1 then Returned else Asleep
               case Destroy => s'.counter == s.counter && s'.threads[t].pc == if s.waiters == 0 then Returned else Asleep
  {
  }

  /** The single notify_one suffices: a destructor is asleep only while some thread is still
      counted, so the last one to leave has woken it; and the destructor returns only when no
      waiting thread is counted any more. */
  lemma DestructorSafe(s: State, d: nat)
    requires Reachable(s) && d < |s.threads| && s.threads[d].op.Destroy?
    ensures s.threads[d].pc.Asleep? ==> exists t :: 0 <= t < |s.threads| && Counted(s.threads[t])
    ensures s.threads[d].pc.Returned? ==> forall t | 0 <= t < |s.threads| :: !Counted(s.threads[t])
  {
    ReachableInv(s);
    assert ThreadOk(s, d);
    NoWaiters(s.threads);
  }

  /** The destructor of thread d has returned, and thread t has a step left inside the latch. */
  ghost predicate Touches(s: State, t: nat, d: nat) {
    && t < |s.threads| && d < |s.threads| && s.threads[d] == Thread(Destroy, Returned)
    && exists step :: Enabled(s, step) && step.t == t
  }

  /** That can only be a count_down that has yet to notify. */
  lemma TouchesLate(s: State, t: nat, d: nat)
    requires Inv(s)
    ensures Touches(s, t, d) <==> Outlived(s, t, d)
  {
    if Outlived(s, t, d) {
      assert Enabled(s, NotifyAll(t));
    }
    if Touches(s, t, d) {
      assert ThreadOk(s, d) && ThreadOk(s, t);
      NoWaiters(s.threads);
      assert !Counted(s.threads[t]);
    }
  }

  /** Programs do not change. */
  lemma {:induction false} ProgramsStay(s: State, steps: seq<Step>)
    ensures |Run(s, steps).threads| == |s.threads|
    ensures forall t | 0 <= t < |s.threads| :: Run(s, steps).threads[t].op == s.threads[t].op
    decreases |steps|
  {
    if steps != [] {
      ProgramsStay(if Enabled(s, steps[0]) then Apply(s, steps[0]) else s, steps[1..]);
    }
  }

  /** Threads that only wait, or count down and wait, leave a latch that is safe to destroy: in
      every run, once the destructor has returned no thread has any step left. */
  lemma SafeWithoutCountDown(init: State, steps: seq<Step>, d: nat, step: Step)
    requires Initial(init) && forall t | 0 <= t < |init.threads| :: !init.threads[t].op.CountDown?
    requires d < |Run(init, steps).threads| && Run(init, steps).threads[d] == Thread(Destroy, Returned)
    ensures !Enabled(Run(init, steps), step)
  {
    var s := Run(init, steps);
    ProgramsStay(init, steps);
    InitialInv(init);
    RunInv(init, steps);
    if step.t < |s.threads| {
      assert ThreadOk(s, step.t) && ThreadOk(s, d);
      NoWaiters(s.threads);
      assert !Counted(s.threads[step.t]);
    }
  }

  /** Thread t is about to call count_down with exactly what is left, and the destructor has not
      been called. */
  predicate Critical(s: State, t: nat, d: nat) {
    && t < |s.threads| && d < |s.threads| && s.dying.None?
    && s.threads[t] == Thread(CountDown(s.counter), Idle) && s.threads[d] == Thread(Destroy, Idle)
  }

  /** The destructor has returned and thread t has yet to notify. */
  predicate Outlived(s: State, t: nat, d: nat) {
    t < |s.threads| && d < |s.threads| && s.threads[t].pc.Notifying? && s.threads[d] == Thread(Destroy, Returned)
  }

  function Sleeper(s: State): (target: nat)
    ensures SomeoneSleeps(s) ==> Sleeping(s, target)
  {
    if SomeoneSleeps(s) then FirstSleeper(s, 0) else 0
  }

  function FirstSleeper(s: State, from: nat): (target: nat)
    requires exists t :: from <= t < |s.threads| && s.threads[t].pc.Asleep?
    ensures Sleeping(s, target)
    decreases |s.threads| - from
  {
    if s.threads[from].pc.Asleep? then from else FirstSleeper(s, from + 1)
  }

  lemma {:induction false} RunAppend(s: State, a: seq<Step>, b: seq<Step>)
    ensures Run(s, a + b) == Run(Run(s, a), b)
    decreases |a|
  {
    if a == [] {
      assert a + b == b;
    } else {
      assert (a + b)[1..] == a[1..] + b;
      RunAppend(if Enabled(s, a[0]) then Apply(s, a[0]) else s, a[1..], b);
    }
  }

  lemma One(s: State, step: Step)
    requires Enabled(s, step)
    ensures Run(s, [step]) == Apply(s, step)
  {
    assert [step][1..] == [];
  }

  /** The pending notification of t while the waiters wake up by themselves. */
  predicate Pending(s: State, t: nat, d: nat) {
    && t < |s.threads| && d < |s.threads| && s.dying.None? && s.counter == 0
    && s.threads[t].pc.Notifying? && s.threads[d] == Thread(Destroy, Idle)
  }

  lemma OneLeaves(s: State, t: nat, d: nat, u: nat)
    requires Inv(s) && Pending(s, t, d) && u < |s.threads| && Counted(s.threads[u]) && s.threads[u].pc.Woken?
    ensures var s' := Apply(s, Retry(u, Sleeper(s))); Inv(s') && Pending(s', t, d) && s'.waiters < s.waiters
  {
    NoWaiters(s.threads);
    StepInv(s, Retry(u, Sleeper(s)));
  }

  lemma {:induction false} WaitersLeave(s: State, t: nat, d: nat) returns (steps: seq<Step>)
    requires Inv(s) && Pending(s, t, d)
    ensures Inv(Run(s, steps)) && Pending(Run(s, steps), t, d) && Run(s, steps).waiters == 0
    decreases s.waiters
  {
    NoWaiters(s.threads);
    if s.waiters == 0 {
      return [];
    }
    var u: nat :| u < |s.threads| && Counted(s.threads[u]);
    var wake := if s.threads[u].pc.Asleep? then [Spurious(u)] else [];
    if s.threads[u].pc.Asleep? {
      One(s, Spurious(u));
      StepInv(s, Spurious(u));
    }
    var a := Run(s, wake);
    OneLeaves(a, t, d, u);
    One(a, Retry(u, Sleeper(a)));
    var rest := WaitersLeave(Apply(a, Retry(u, Sleeper(a))), t, d);
    RunAppend(a, [Retry(u, Sleeper(a))], rest);
    RunAppend(s, wake, [Retry(u, Sleeper(a))] + rest);
    steps := wake + ([Retry(u, Sleeper(a))] + rest);
  }

  /** From there the latch can be outlived: the call releases the mutex at zero, the waiters
      leave, the destructor finds none and returns, and the notify_all is still to come. */
  lemma CriticalOutlives(s: State, t: nat, d: nat) returns (steps: seq<Step>)
    requires Inv(s) && Critical(s, t, d)
    ensures Outlived(Run(s, steps), t, d)
  {
    var first, target := Enter(t, Sleeper(s)), Sleeper(s);
    StepInv(s, first);
    One(s, first);
    var a := Apply(s, first);
    var leave := WaitersLeave(a, t, d);
    var b := Run(a, leave);
    One(b, Enter(d, Sleeper(b)));
    RunAppend(a, leave, [Enter(d, Sleeper(b))]);
    RunAppend(s, [first], leave + [Enter(d, Sleeper(b))]);
    steps := [first] + (leave + [Enter(d, Sleeper(b))]);
  }

  /** Calls that have returned, and calls not begun before the destructor, stay as they are. */
  lemma {:induction false} Frozen(s: State, steps: seq<Step>, u: nat)
    requires u < |s.threads| && (s.threads[u].pc.Returned? || (s.threads[u].pc.Idle? && s.dying.Some?))
    ensures u < |Run(s, steps).threads| && Run(s, steps).threads[u] == s.threads[u]
    decreases |steps|
  {
    if steps != [] {
      Frozen(if Enabled(s, steps[0]) then Apply(s, steps[0]) else s, steps[1..], u);
    }
  }

  /** The step with which t or d enters the latch is t's, with exactly what is left. */
  lemma EntersCritical(s: State, first: Step, rest: seq<Step>, t: nat, d: nat)
    requires Inv(s) && Enabled(s, first) && t < |s.threads| && d < |s.threads| && s.dying.None?
    requires s.threads[t].pc.Idle? && s.threads[t].op.CountDown? && s.threads[d] == Thread(Destroy, Idle)
    requires Outlived(Run(Apply(s, first), rest), t, d)
    requires !(Apply(s, first).threads[t].pc.Idle? && Apply(s, first).threads[d].pc.Idle?)
    ensures Critical(s, t, d)
  {
    var s' := Apply(s, first);
    if s'.threads[t].pc.Returned? || s'.threads[t].pc.Idle? {
      Frozen(s', rest, t);
    }
  }

  /** And the latch is outlived only in runs that came by such a point. */
  lemma {:induction false} OutlivedWasCritical(s: State, steps: seq<Step>, t: nat, d: nat) returns (k: nat)
    requires Inv(s) && t < |s.threads| && d < |s.threads| && s.threads[t].pc.Idle? && s.threads[d].pc.Idle?
    requires Outlived(Run(s, steps), t, d)
    ensures k <= |steps| && Critical(Run(s, steps[..k]), t, d)
    decreases |steps|
  {
    if s.dying.Some? {
      Frozen(s, steps, t);
    }
    ProgramsStay(s, steps);
    RunInv(s, steps);
    assert ThreadOk(Run(s, steps), t);
    var s' := if Enabled(s, steps[0]) then Apply(s, steps[0]) else s;
    if Enabled(s, steps[0]) {
      StepInv(s, steps[0]);
      if !(s'.threads[t].pc.Idle? && s'.threads[d].pc.Idle?) {
        EntersCritical(s, steps[0], steps[1..], t, d);
        assert steps[..0] == [];
        return 0;
      }
    }
    k := OutlivedWasCritical(s', steps[1..], t, d);
    assert steps[..k + 1][1..] == steps[1..][..k];
    k := k + 1;
  }

  /** The exact condition: some run destroys the latch under a count_down that has yet to notify
      if and only if some run comes to a point where a count_down is called with exactly what is
      left before the destructor is called. */
  lemma OutlivedExactly(init: State, t: nat, d: nat)
    requires Initial(init) && t < |init.threads| && d < |init.threads|
    ensures (exists steps :: Outlived(Run(init, steps), t, d)) <==> (exists steps :: Critical(Run(init, steps), t, d))
  {
    InitialInv(init);
    if steps :| Outlived(Run(init, steps), t, d) {
      var k := OutlivedWasCritical(init, steps, t, d);
    }
    if steps :| Critical(Run(init, steps), t, d) {
      RunInv(init, steps);
      var more := CriticalOutlives(Run(init, steps), t, d);
      RunAppend(init, steps, more);
    }
  }

  // The same condition on the calls alone

  /** What a call takes from the count. */
  function Takes(op: Op): nat {
    match op
    case CountDown(n) => n
    case CountDownAndWait => 1
    case _ => 0
  }

  /** What the calls of the picked threads take together, from thread k on. */
  function Taken(threads: seq<Thread>, picked: set<nat>, k: nat): nat
    decreases |threads| - k
  {
    if k >= |threads| then 0
    else (if k in picked then Takes(threads[k].op) else 0) + Taken(threads, picked, k + 1)
  }

  lemma {:induction false} SameTaken(a: seq<Thread>, b: seq<Thread>, picked: set<nat>, k: nat)
    requires |a| == |b| && forall u | k <= u < |a| :: a[u].op == b[u].op
    ensures Taken(a, picked, k) == Taken(b, picked, k)
    decreases |a| - k
  {
    if k < |a| {
      SameTaken(a, b, picked, k + 1);
    }
  }

  lemma {:induction false} OneMore(threads: seq<Thread>, picked: set<nat>, u: nat, k: nat)
    requires u < |threads| && u !in picked
    ensures Taken(threads, picked + {u}, k) == Taken(threads, picked, k) + if k <= u then Takes(threads[u].op) else 0
    decreases |threads| - k
  {
    if k < |threads| {
      OneMore(threads, picked, u, k + 1);
    }
  }

  lemma {:induction false} NoneTaken(threads: seq<Thread>, k: nat)
    ensures Taken(threads, {}, k) == 0
    decreases |threads| - k
  {
    if k < |threads| {
      NoneTaken(threads, k + 1);
    }
  }

  function Begun(s: State): set<nat> { set u: nat | u < |s.threads| && !s.threads[u].pc.Idle? }

  lemma BeginTakes(s: State, t: nat, target: nat)
    requires Enabled(s, Enter(t, target))
    ensures var s' := Apply(s, Enter(t, target));
            && t < |s.threads| && t !in Begun(s) && Begun(s') == Begun(s) + {t}
            && s'.counter + Takes(s.threads[t].op) == s.counter
  {
  }

  lemma OthersTakeNothing(s: State, step: Step)
    requires Enabled(s, step) && !step.Enter?
    ensures Begun(Apply(s, step)) == Begun(s) && Apply(s, step).counter == s.counter
  {
  }

  /** The calls that have begun account for what is gone from the count. */
  lemma StepTakes(s: State, step: Step)
    requires Enabled(s, step)
    ensures var s' := Apply(s, step);
            s'.counter + Taken(s'.threads, Begun(s'), 0) == s.counter + Taken(s.threads, Begun(s), 0)
  {
    var s' := Apply(s, step);
    ProgramsStay(s, [step]);
    One(s, step);
    SameTaken(s'.threads, s.threads, Begun(s'), 0);
    if step.Enter? {
      BeginTakes(s, step.t, step.target);
      OneMore(s.threads, Begun(s), step.t, 0);
    } else {
      OthersTakeNothing(s, step);
    }
  }

  lemma {:induction false} RunTakes(s: State, steps: seq<Step>)
    ensures var t := Run(s, steps);
            t.counter + Taken(t.threads, Begun(t), 0) == s.counter + Taken(s.threads, Begun(s), 0)
    decreases |steps|
  {
    if steps != [] {
      if Enabled(s, steps[0]) {
        StepTakes(s, steps[0]);
        RunTakes(Apply(s, steps[0]), steps[1..]);
      } else {
        RunTakes(s, steps[1..]);
      }
    }
  }

  /** The picked calls from thread k on, which have not begun, leave n. */
  predicate Leaves(s: State, picked: set<nat>, k: nat, t: nat, d: nat, n: nat) {
    && t < |s.threads| && d < |s.threads| && t !in picked && d !in picked && s.dying.None?
    && s.threads[t] == Thread(CountDown(n), Idle) && s.threads[d] == Thread(Destroy, Idle)
    && k <= |s.threads| && (forall u | k <= u < |s.threads| :: s.threads[u].pc.Idle?)
    && Taken(s.threads, picked, k) + n == s.counter
  }

  lemma NextTakes(s: State, picked: set<nat>, k: nat, t: nat, d: nat, n: nat)
    requires Leaves(s, picked, k, t, d, n) && k < |s.threads| && k in picked && Takes(s.threads[k].op) > 0
    ensures Enabled(s, Enter(k, Sleeper(s))) && Leaves(Apply(s, Enter(k, Sleeper(s))), picked, k + 1, t, d, n)
  {
    var s' := Apply(s, Enter(k, Sleeper(s)));
    SameTaken(s.threads, s'.threads, picked, k + 1);
  }

  lemma {:induction false} ComesToCritical(s: State, picked: set<nat>, k: nat, t: nat, d: nat, n: nat) returns (steps: seq<Step>)
    requires Leaves(s, picked, k, t, d, n)
    ensures Critical(Run(s, steps), t, d)
    decreases |s.threads| - k
  {
    if k == |s.threads| {
      steps := [];
    } else if k in picked && Takes(s.threads[k].op) > 0 {
      NextTakes(s, picked, k, t, d, n);
      var first := Enter(k, Sleeper(s));
      var rest := ComesToCritical(Apply(s, first), picked, k + 1, t, d, n);
      steps := [first] + rest;
      assert steps[1..] == rest;
    } else {
      steps := ComesToCritical(s, picked, k + 1, t, d, n);
    }
  }

  /** Some other calls of the program together leave thread t's count_down exactly the count it
      takes. */
  ghost predicate LeftForOne(init: State, t: nat, d: nat) {
    && t < |init.threads| && d < |init.threads| && init.threads[t].op.CountDown? && init.threads[d].op.Destroy?
    && exists picked: set<nat> :: LeaveIt(init, picked, t, d, init.threads[t].op.n)
  }

  predicate LeaveIt(init: State, picked: set<nat>, t: nat, d: nat, n: nat) {
    t !in picked && d !in picked && TakenBy(init.threads, picked) + n == init.counter
  }

  function TakenBy(threads: seq<Thread>, picked: set<nat>): nat { Taken(threads, picked, 0) }

  lemma OutlivedNeeds(init: State, steps: seq<Step>, t: nat, d: nat)
    requires Initial(init) && t < |init.threads| && d < |init.threads| && Outlived(Run(init, steps), t, d)
    ensures LeftForOne(init, t, d)
  {
    InitialInv(init);
    var k := OutlivedWasCritical(init, steps, t, d);
    var s := Run(init, steps[..k]);
    ProgramsStay(init, steps[..k]);
    RunTakes(init, steps[..k]);
    assert Begun(init) == {};
    NoneTaken(init.threads, 0);
    SameTaken(init.threads, s.threads, Begun(s), 0);
    assert LeaveIt(init, Begun(s), t, d, init.threads[t].op.n);
  }

  lemma OutlivedRun(init: State, picked: set<nat>, t: nat, d: nat) returns (steps: seq<Step>)
    requires Initial(init) && t < |init.threads| && d < |init.threads|
    requires init.threads[t].op.CountDown? && init.threads[d].op.Destroy?
    requires LeaveIt(init, picked, t, d, init.threads[t].op.n)
    ensures Outlived(Run(init, steps), t, d)
  {
    var first := ComesToCritical(init, picked, 0, t, d, init.threads[t].op.n);
    InitialInv(init);
    RunInv(init, first);
    var more := CriticalOutlives(Run(init, first), t, d);
    RunAppend(init, first, more);
    steps := first + more;
  }

  /** The condition a caller can check without running anything: the latch can be destroyed under
      thread t's count_down if and only if what some other calls take, added to what it takes, is
      the count. */
  lemma OutlivedByCalls(init: State, t: nat, d: nat)
    requires Initial(init) && t < |init.threads| && d < |init.threads|
    ensures (exists steps :: Outlived(Run(init, steps), t, d)) <==> LeftForOne(init, t, d)
  {
    if steps :| Outlived(Run(init, steps), t, d) {
      OutlivedNeeds(init, steps, t, d);
    }
    if LeftForOne(init, t, d) {
      var picked: set<nat> :| LeaveIt(init, picked, t, d, init.threads[t].op.n);
      var steps := OutlivedRun(init, picked, t, d);
      assert exists r :: Outlived(Run(init, r), t, d);
    }
  }

  /** In the same terms: a run in which thread t is still inside the latch after the destructor
      exists if and only if t's count_down takes exactly what some other calls leave. */
  lemma TouchedAfter(init: State, t: nat, d: nat)
    requires Initial(init) && t < |init.threads| && d < |init.threads|
    ensures (exists steps :: Touches(Run(init, steps), t, d)) <==> LeftForOne(init, t, d)
  {
    InitialInv(init);
    if steps :| Touches(Run(init, steps), t, d) {
      RunInv(init, steps);
      TouchesLate(Run(init, steps), t, d);
      OutlivedNeeds(init, steps, t, d);
    }
    if LeftForOne(init, t, d) {
      var picked: set<nat> :| LeaveIt(init, picked, t, d, init.threads[t].op.n);
      var steps := OutlivedRun(init, picked, t, d);
      RunInv(init, steps);
      TouchesLate(Run(init, steps), t, d);
      assert exists r :: Touches(Run(init, r), t, d);
    }
  }

  /** In particular when the whole count is in one count_down: any such program has that run. */
  lemma CountDownOutlived(init: State, t: nat, d: nat)
    requires Initial(init) && t < |init.threads| && d < |init.threads|
    requires init.threads[t].op == CountDown(init.counter) && init.threads[d].op.Destroy?
    ensures exists steps :: Outlived(Run(init, steps), t, d)
  {
    NoneTaken(init.threads, 0);
    assert LeaveIt(init, {}, t, d, init.counter);
    OutlivedByCalls(init, t, d);
  }

  /** No thread has a step left except to wake for no reason. */
  ghost predicate AtRest(s: State) {
    forall step: Step | !step.Spurious? :: !Enabled(s, step)
  }

  /** Nobody is left behind: when the threads cannot move on and the counter is zero, every
      call that was begun has returned. */
  lemma EveryoneReturns(s: State)
    requires Reachable(s) && AtRest(s) && s.counter == 0
    ensures forall t | 0 <= t < |s.threads| :: s.threads[t].pc.Returned? || s.threads[t].pc.Idle?
  {
    ReachableInv(s);
    NoWaiters(s.threads);
    forall t | 0 <= t < |s.threads| ensures !s.threads[t].pc.Woken? && !s.threads[t].pc.Notifying? {
      assert !Enabled(s, NotifyAll(t));
      var target := if SomeoneSleeps(s) then (var u :| 0 <= u < |s.threads| && s.threads[u].pc.Asleep?; u) else 0;
      assert !Enabled(s, Retry(t, target));
    }
    forall t | 0 <= t < |s.threads| ensures !Counted(s.threads[t]) {
      assert ThreadOk(s, t);
    }
    forall t | 0 <= t < |s.threads| ensures s.threads[t].pc.Returned? || s.threads[t].pc.Idle? {
      assert ThreadOk(s, t);
    }
  }

  /** The counter only goes down, so a latch that is ready stays ready. */
  lemma {:induction false} ReadyForGood(s: State, steps: seq<Step>)
    ensures Run(s, steps).counter <= s.counter
    decreases |steps|
  {
    if steps != [] {
      ReadyForGood(if Enabled(s, steps[0]) then Apply(s, steps[0]) else s, steps[1..]);
    }
  }
}
