/** The end of static_thread_pool::attach: threads that have left the queue wait for each
    other, while new threads may still attach. */
module ExitBarrier {

  datatype Pc = Outside | Processing | Asleep | Woken | Notifying | Gone

  /** `attached` is attached_threads_. */
  datatype State = State(attached: int, threads: seq<Pc>)

  datatype Step = Spawn | Enter(t: nat) | Leave(t: nat) | Retry(t: nat) | Spurious(t: nat) | NotifyAll(t: nat)

  predicate Is(s: State, t: nat, pc: Pc) { t < |s.threads| && s.threads[t] == pc }

  predicate Enabled(s: State, step: Step) {
    match step
    case Spawn => true
    case Enter(t) => Is(s, t, Outside)
    case Leave(t) => Is(s, t, Processing)
    case Retry(t) => Is(s, t, Woken)
    case Spurious(t) => Is(s, t, Asleep)
    case NotifyAll(t) => Is(s, t, Notifying)
  }

  function Apply(s: State, step: Step): State
    requires Enabled(s, step)
  {
    match step
    case Spawn => State(s.attached, s.threads + [Outside])
    case Enter(t) => State(s.attached + 1, s.threads[t := Processing])
    case Leave(t) => State(s.attached - 1, s.threads[t := if s.attached - 1 == 0 then Notifying else Asleep])
    case Retry(t) => State(s.attached, s.threads[t := if s.attached == 0 then Notifying else Asleep])
    case Spurious(t) => State(s.attached, s.threads[t := Woken])
    case NotifyAll(t) =>
      State(s.attached, seq(|s.threads|, u requires 0 <= u < |s.threads| =>
                          if u == t then Gone else if s.threads[u].Asleep? then Woken else s.threads[u]))
  }

  function Run(s: State, steps: seq<Step>): State
    decreases |steps|
  {
    if steps == [] then s else Run(if Enabled(s, steps[0]) then Apply(s, steps[0]) else s, steps[1..])
  }

  function Busy(threads: seq<Pc>): nat {
    if threads == [] then 0
    else Busy(threads[..|threads| - 1]) + if threads[|threads| - 1].Processing? then 1 else 0
  }

  lemma {:induction false} Replace(threads: seq<Pc>, t: nat, pc: Pc)
    requires t < |threads|
    ensures Busy(threads[t := pc]) - (if pc.Processing? then 1 else 0)
            == Busy(threads) - (if threads[t].Processing? then 1 else 0)
  {
    var k := |threads| - 1;
    if t == k {
      assert threads[t := pc][..k] == threads[..k];
    } else {
      Replace(threads[..k], t, pc);
      assert threads[t := pc][..k] == threads[..k][t := pc];
    }
  }

  lemma {:induction false} SameBusy(a: seq<Pc>, b: seq<Pc>)
    requires |a| == |b| && forall t | 0 <= t < |a| :: a[t].Processing? <==> b[t].Processing?
    ensures Busy(a) == Busy(b)
  {
    if a != [] {
      SameBusy(a[..|a| - 1], b[..|b| - 1]);
    }
  }

  lemma {:induction false} NotBusy(threads: seq<Pc>)
    ensures Busy(threads) == 0 <==> forall t | 0 <= t < |threads| :: !threads[t].Processing?
  {
    if threads != [] {
      var k := |threads| - 1;
      NotBusy(threads[..k]);
      assert forall t | 0 <= t < k :: threads[..k][t] == threads[t];
    }
  }

  predicate Some(s: State, pc: Pc) { exists t :: 0 <= t < |s.threads| && s.threads[t] == pc }

  /** The counter is the number of threads in process_queue, and nobody sleeps at zero unless
      some thread is about to notify. */
  predicate Inv(s: State) {
    s.attached == Busy(s.threads) && (s.attached == 0 && Some(s, Asleep) ==> Some(s, Notifying))
  }

  lemma Witness(s: State, pc: Pc, t: nat)
    requires Is(s, t, pc)
    ensures Some(s, pc)
  {
  }

  lemma SpawnInv(s: State)
    requires Inv(s)
    ensures Inv(Apply(s, Spawn))
  {
    var s' := Apply(s, Spawn);
    assert s'.threads[..|s.threads|] == s.threads;
    if Some(s', Asleep) {
      var u :| 0 <= u < |s'.threads| && s'.threads[u] == Asleep;
      Witness(s, Asleep, u);
    }
    if Some(s, Notifying) {
      var u :| 0 <= u < |s.threads| && s.threads[u] == Notifying;
      Witness(s', Notifying, u);
    }
  }

  lemma NotifyInv(s: State, t: nat)
    requires Inv(s) && Enabled(s, NotifyAll(t))
    ensures Inv(Apply(s, NotifyAll(t)))
  {
    SameBusy(s.threads, Apply(s, NotifyAll(t)).threads);
  }

  /** A thread moves alone: whoever sleeps afterwards and is not it slept before. */
  lemma MoveInv(s: State, step: Step)
    requires Inv(s) && Enabled(s, step) && !step.Spawn? && !step.NotifyAll?
    ensures Inv(Apply(s, step))
  {
    var s', t := Apply(s, step), step.t;
    Replace(s.threads, t, s'.threads[t]);
    assert s'.threads == s.threads[t := s'.threads[t]];
    if s'.attached == 0 && Some(s', Asleep) {
      if s'.threads[t].Notifying? {
        Witness(s', Notifying, t);
      } else {
        var u :| 0 <= u < |s'.threads| && s'.threads[u] == Asleep;
        Witness(s, Asleep, u);
        var v :| 0 <= v < |s.threads| && s.threads[v] == Notifying;
        Witness(s', Notifying, v);
      }
    }
  }

  lemma StepInv(s: State, step: Step)
    requires Inv(s) && Enabled(s, step)
    ensures Inv(Apply(s, step))
  {
    match step
    case Spawn => SpawnInv(s);
    case NotifyAll(t) => NotifyInv(s, t);
    case _ => MoveInv(s, step);
  }

  lemma {:induction false} RunInv(s: State, steps: seq<Step>)
    requires Inv(s)
    ensures Inv(Run(s, steps))
    decreases |steps|
  {
    if steps != [] {
      if Enabled(s, steps[0]) {
        StepInv(s, steps[0]);
        RunInv(Apply(s, steps[0]), steps[1..]);
      } else {
        RunInv(s, steps[1..]);
      }
    }
  }

  predicate Initial(s: State) { s.attached == 0 && forall t | 0 <= t < |s.threads| :: s.threads[t].Outside? }

  ghost predicate Reachable(s: State) {
    exists init, steps :: Initial(init) && s == Run(init, steps)
  }

  lemma ReachableInv(s: State)
    requires Reachable(s)
    ensures Inv(s)
  {
    var init, steps :| Initial(init) && s == Run(init, steps);
    NotBusy(init.threads);
    assert forall t | 0 <= t < |init.threads| :: init.threads[t].Outside?;
    RunInv(init, steps);
  }

  /** A thread gets past the wait exactly at a moment when no attached thread is still
      processing, whether it is the last one to leave or was woken. */
  lemma LeavesTogether(s: State, step: Step)
    requires Reachable(s) && Enabled(s, step) && (step.Leave? || step.Retry?)
    ensures Apply(s, step).threads[step.t].Notifying? <==>
            forall t | 0 <= t < |s.threads| :: !Apply(s, step).threads[t].Processing?
  {
    ReachableInv(s);
    StepInv(s, step);
    NotBusy(Apply(s, step).threads);
  }

  /** No thread has a step left except to wake for no reason, and none is in process_queue. */
  ghost predicate AtRest(s: State) {
    forall step: Step | !step.Spurious? && !step.Enter? && !step.Spawn? :: !Enabled(s, step)
  }

  /** No wake-up is lost: at rest every thread that ever attached has gone, however many
      attached while others were already asleep. */
  lemma EveryoneGone(s: State)
    requires Reachable(s) && AtRest(s)
    ensures forall t | 0 <= t < |s.threads| :: s.threads[t].Outside? || s.threads[t].Gone?
  {
    ReachableInv(s);
    RestGone(s);
  }

  lemma RestGone(s: State)
    requires Inv(s) && AtRest(s)
    ensures forall t | 0 <= t < |s.threads| :: s.threads[t].Outside? || s.threads[t].Gone?
  {
    forall t | 0 <= t < |s.threads|
      ensures !s.threads[t].Processing? && !s.threads[t].Woken? && !s.threads[t].Notifying?
    {
      assert !Enabled(s, Leave(t)) && !Enabled(s, Retry(t)) && !Enabled(s, NotifyAll(t));
    }
    NotBusy(s.threads);
    forall t | 0 <= t < |s.threads| ensures !s.threads[t].Asleep? {
      assert s.threads[t].Asleep? ==> Some(s, Asleep);
    }
  }
}
