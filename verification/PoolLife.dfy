/** The pool from its constructor to its destructor: the queue's workers of ThreadPool and the
    exit barrier of ExitBarrier run by the same threads. The first `own` threads are the pool's,
    the others are guests that call `attach` themselves; the destructor joins only the former. */
module PoolLife {
  import opened Outcomes
  import P = ThreadPool
  import B = ExitBarrier

  /** `late` records that a guest attached after the pool was told to stop or close. */
  datatype State = State(pool: P.State, barrier: B.State, own: nat, late: bool)

  /** `Spawn` is a guest about to call attach, `Attach` the start of attach by thread t, `Work` a
      step on the queue and `Exit` one on the barrier. */
  datatype Step = Spawn | Attach(t: nat) | Work(p: P.Step) | Exit(b: B.Step)

  function Initial(own: nat, posts: set<nat>): State {
    State(P.New(posts).(workers := seq(own, _ => P.Worker(P.Outside, None))), B.State(0, seq(own, _ => B.Outside)), own, false)
  }

  predicate Enabled(s: State, step: Step) {
    match step
    case Spawn => true
    case Attach(t) => P.Enabled(s.pool, P.Attach(t)) && B.Enabled(s.barrier, B.Enter(t))
    case Work(p) => P.Enabled(s.pool, p) && !p.Spawn? && !p.Attach?
    case Exit(b) =>
      B.Enabled(s.barrier, b) && !b.Spawn? && !b.Enter? && (b.Leave? ==> P.IsPc(s.pool, b.t, P.Left))
  }

  function Apply(s: State, step: Step): State
    requires Enabled(s, step)
  {
    match step
    case Spawn => s.(pool := P.Apply(s.pool, P.Spawn), barrier := B.Apply(s.barrier, B.Spawn))
    case Attach(t) =>
      s.(pool := P.Apply(s.pool, P.Attach(t)), barrier := B.Apply(s.barrier, B.Enter(t)),
         late := s.late || (t >= s.own && (s.pool.closed || s.pool.stopped)))
    case Work(p) => s.(pool := P.Apply(s.pool, p))
    case Exit(b) => s.(barrier := B.Apply(s.barrier, b))
  }

  function Run(s: State, steps: seq<Step>): State
    decreases |steps|
  {
    if steps == [] then s else Run(if Enabled(s, steps[0]) then Apply(s, steps[0]) else s, steps[1..])
  }

  /** The destructor stops and closes the queue and joins the pool's own threads. */
  predicate DestructorPasses(s: State) {
    && s.pool.stopped && s.pool.closed && s.own <= |s.barrier.threads|
    && forall t | 0 <= t < s.own :: s.barrier.threads[t].Gone?
  }

  /** Thread t may still touch the queue. */
  predicate InLoop(s: State, t: nat) { B.Is(s.barrier, t, B.Processing) }

  /** Thread t has begun attach and not returned from it. */
  predicate InAttach(s: State, t: nat) {
    t < |s.barrier.threads| && !s.barrier.threads[t].Outside? && !s.barrier.threads[t].Gone?
  }

  // The invariant

  /** The wait of the barrier is behind thread t. */
  predicate Through(s: State, t: nat) { B.Is(s.barrier, t, B.Notifying) || B.Is(s.barrier, t, B.Gone) }

  predicate ThreadOk(s: State, t: nat)
    requires t < |s.pool.workers| == |s.barrier.threads|
  {
    var w, th := s.pool.workers[t], s.barrier.threads[t];
    && (w.pc.Outside? <==> th.Outside?)
    && (!th.Outside? && !th.Processing? ==> w.pc.Left?)
    && (w.pc.Left? ==> s.pool.closed || s.pool.stopped)
  }

  ghost predicate Inv(s: State) {
    && P.Inv(s.pool) && B.Inv(s.barrier)
    && s.own <= |s.pool.workers| == |s.barrier.threads|
    && (forall t | 0 <= t < |s.pool.workers| :: ThreadOk(s, t))
    && (!s.late && (exists t: nat :: Through(s, t)) ==> forall g | s.own <= g < |s.barrier.threads| :: !InLoop(s, g))
    && (!s.pool.closed && !s.pool.stopped ==> !s.late)
  }

  lemma InitialInv(own: nat, posts: set<nat>)
    ensures Inv(Initial(own, posts))
  {
    var s := Initial(own, posts);
    assert P.AwakeIn(s.pool.workers) >= 0;
    B.NotBusy(s.barrier.threads);
  }

  lemma SpawnInv(s: State)
    requires Inv(s)
    ensures Inv(Apply(s, Spawn))
  {
    var s' := Apply(s, Spawn);
    P.StepInv(s.pool, P.Spawn);
    B.StepInv(s.barrier, B.Spawn);
    forall t | 0 <= t < |s'.pool.workers| ensures ThreadOk(s', t) {
      assert t < |s.pool.workers| ==> ThreadOk(s, t);
    }
    Stays(s, s');
  }

  /** Whoever is through in s' was through in s. */
  lemma Stays(s: State, s': State)
    requires Inv(s) && s'.late == s.late && s'.own == s.own
    requires forall t: nat | Through(s', t) :: Through(s, t)
    requires forall t: nat | InLoop(s', t) :: InLoop(s, t)
    ensures !s'.late && (exists t: nat :: Through(s', t)) ==>
              forall g | s'.own <= g < |s'.barrier.threads| :: !InLoop(s', g)
  {
  }

  lemma AttachInv(s: State, t: nat)
    requires Inv(s) && Enabled(s, Attach(t))
    ensures Inv(Apply(s, Attach(t)))
  {
    var s' := Apply(s, Attach(t));
    P.StepInv(s.pool, P.Attach(t));
    B.StepInv(s.barrier, B.Enter(t));
    forall u | 0 <= u < |s'.pool.workers| ensures ThreadOk(s', u) {
      assert ThreadOk(s, u);
    }
    if !s'.late && exists u: nat :: Through(s', u) {
      var u: nat :| Through(s', u);
      assert Through(s, u) && ThreadOk(s, u);
      forall g | s'.own <= g < |s'.barrier.threads| ensures !InLoop(s', g) {
        assert !InLoop(s, g);
      }
    }
  }

  lemma WorkInv(s: State, p: P.Step)
    requires Inv(s) && Enabled(s, Work(p))
    ensures Inv(Apply(s, Work(p)))
  {
    var s' := Apply(s, Work(p));
    P.StepInv(s.pool, p);
    forall u | 0 <= u < |s'.pool.workers| ensures ThreadOk(s', u) {
      assert ThreadOk(s, u) && P.WorkerOk(s'.pool, u);
    }
    Stays(s, s');
  }

  lemma ExitInv(s: State, b: B.Step)
    requires Inv(s) && Enabled(s, Exit(b))
    ensures Inv(Apply(s, Exit(b)))
  {
    var s' := Apply(s, Exit(b));
    B.StepInv(s.barrier, b);
    forall u | 0 <= u < |s'.pool.workers| ensures ThreadOk(s', u) {
      assert ThreadOk(s, u);
    }
    if (b.Leave? || b.Retry?) && s'.barrier.threads[b.t].Notifying? {
      B.NotBusy(s'.barrier.threads);
    } else {
      forall t: nat | Through(s', t) ensures Through(s, t) {}
      Stays(s, s');
    }
  }

  lemma StepInv(s: State, step: Step)
    requires Inv(s) && Enabled(s, step)
    ensures Inv(Apply(s, step))
  {
    match step
    case Spawn => SpawnInv(s);
    case Attach(t) => AttachInv(s, t);
    case Work(p) => WorkInv(s, p);
    case Exit(b) => ExitInv(s, b);
  }

  lemma {:induction false} RunInv(s: State, steps: seq<Step>)
    requires Inv(s)
    ensures Inv(Run(s, steps))
    decreases |steps|
  {
    if steps != [] {
      if Enabled(s, steps[0]) {
        StepInv(s, steps[0]);
        RunInv(Apply(s, steps[0]), steps[1..]);
      } else {
        RunInv(s, steps[1..]);
      }
    }
  }

  // When the destructor is safe

  /** What the pool's user can see to: there is a thread to join and guests come in time, or
      there are no guests. */
  predicate Prudent(s: State) {
    |s.barrier.threads| == s.own || (s.own > 0 && !s.late)
  }

  /** Then nobody is in the loop over the queue when the destructor passes. */
  lemma LoopsLeft(s: State, t: nat)
    requires Inv(s) && DestructorPasses(s) && Prudent(s)
    ensures !InLoop(s, t)
  {
    if s.own > 0 {
      assert Through(s, 0);
    }
  }

  lemma NobodyInside(s: State)
    requires Inv(s) && DestructorPasses(s) && Prudent(s)
    ensures P.NobodyInside(s.pool)
  {
    forall w | w in s.pool.workers ensures w.pc.Outside? || w.pc.Left? {
      var t :| 0 <= t < |s.pool.workers| && s.pool.workers[t] == w;
      assert ThreadOk(s, t);
      LoopsLeft(s, t);
    }
  }

  /** In every run of a pool with at least one thread whose guests attach before it is told to
      stop, and of a pool without guests, the queue is out of use when the destructor passes.
      Without guests, every thread has returned. */
  lemma DestructorSafe(own: nat, posts: set<nat>, steps: seq<Step>, t: nat)
    requires DestructorPasses(Run(Initial(own, posts), steps))
    ensures Prudent(Run(Initial(own, posts), steps)) ==> !InLoop(Run(Initial(own, posts), steps), t)
    ensures |Run(Initial(own, posts), steps).barrier.threads| == own ==> !InAttach(Run(Initial(own, posts), steps), t)
  {
    var s := Run(Initial(own, posts), steps);
    InitialInv(own, posts);
    RunInv(Initial(own, posts), steps);
    OwnFixed(Initial(own, posts), steps);
    if Prudent(s) {
      LoopsLeft(s, t);
    }
  }

  lemma {:induction false} OwnFixed(s: State, steps: seq<Step>)
    ensures Run(s, steps).own == s.own
    decreases |steps|
  {
    if steps != [] {
      OwnFixed(if Enabled(s, steps[0]) then Apply(s, steps[0]) else s, steps[1..]);
    }
  }

  // Whether it returns at all

  /** What threads do by themselves: run, leave, get past the barrier; and the pool's own start. */
  predicate Moves(s: State, step: Step) {
    match step
    case Spawn => false
    case Attach(t) => t < s.own
    case Work(p) => p.Test? || p.Pop? || p.Finish?
    case Exit(b) => !b.Spurious?
  }

  ghost predicate AtRest(s: State) { forall step | Moves(s, step) :: !Enabled(s, step) }

  lemma QueueRests(s: State)
    requires AtRest(s)
    ensures P.AtRest(s.pool)
  {
    forall p: P.Step | p.Test? || p.Pop? || p.Finish? ensures !P.Enabled(s.pool, p) {
      assert Moves(s, Work(p)) && !Enabled(s, Work(p));
    }
  }

  lemma BarrierRests(s: State)
    requires Inv(s) && AtRest(s) && P.NobodyInside(s.pool)
    ensures B.AtRest(s.barrier)
  {
    forall b: B.Step | !b.Spurious? && !b.Enter? && !b.Spawn? ensures !B.Enabled(s.barrier, b) {
      assert Moves(s, Exit(b)) && !Enabled(s, Exit(b));
      if b.Leave? && b.t < |s.barrier.threads| {
        assert s.pool.workers[b.t] in s.pool.workers && ThreadOk(s, b.t);
      }
    }
  }

  /** The destructor of a prudently used pool returns if and only if no worker is stuck: when no
      thread has a step left after the stop, all it has to join have gone, or else one waits for
      the mutex it holds. */
  lemma DestructorReturns(own: nat, posts: set<nat>, steps: seq<Step>)
    requires var s := Run(Initial(own, posts), steps); AtRest(s) && s.pool.stopped && s.pool.closed && Prudent(s)
    ensures var s := Run(Initial(own, posts), steps); DestructorPasses(s) <==> !P.Locked(s.pool)
  {
    var s := Run(Initial(own, posts), steps);
    InitialInv(own, posts);
    RunInv(Initial(own, posts), steps);
    if P.Locked(s.pool) {
      if DestructorPasses(s) {
        NobodyInside(s);
        P.StuckInside(s.pool);
      }
    } else {
      QueueRests(s);
      P.RestsFree(s.pool);
      BarrierRests(s);
      B.RestGone(s.barrier);
      forall t | 0 <= t < s.own ensures s.barrier.threads[t].Gone? {
        assert ThreadOk(s, t) && Moves(s, Attach(t)) && !Enabled(s, Attach(t));
      }
    }
  }

  /** A thread of the pool that waits for the mutex it holds is waited for in vain: in no run that
      goes on from there does the destructor pass. */
  lemma DestructorHangs(own: nat, posts: set<nat>, before: seq<Step>, after: seq<Step>, t: nat)
    requires t < own && P.IsPc(Run(Initial(own, posts), before).pool, t, P.Stuck)
    ensures !DestructorPasses(Run(Run(Initial(own, posts), before), after))
  {
    var s := Run(Initial(own, posts), before);
    InitialInv(own, posts);
    RunInv(Initial(own, posts), before);
    RunInv(s, after);
    OwnFixed(Initial(own, posts), before);
    OwnFixed(s, after);
    StaysStuck(s, after, t);
    assert ThreadOk(Run(s, after), t);
  }

  lemma {:induction false} StaysStuck(s: State, steps: seq<Step>, t: nat)
    requires P.IsPc(s.pool, t, P.Stuck)
    ensures P.IsPc(Run(s, steps).pool, t, P.Stuck)
    decreases |steps|
  {
    if steps != [] {
      StaysStuck(if Enabled(s, steps[0]) then Apply(s, steps[0]) else s, steps[1..], t);
    }
  }

  // When it is not

  lemma {:induction false} RunAppend(s: State, a: seq<Step>, b: seq<Step>)
    ensures Run(s, a + b) == Run(Run(s, a), b)
    decreases |a|
  {
    if a == [] {
      assert a + b == b;
    } else {
      assert (a + b)[1..] == a[1..] + b;
      RunAppend(if Enabled(s, a[0]) then Apply(s, a[0]) else s, a[1..], b);
    }
  }

  /** The pool is told to stop, nobody is attached or asleep, the first t of its own threads have
      come and gone and the others have not attached yet. */
  predicate Calm(s: State, t: nat) {
    && s.pool.stopped && s.pool.closed && s.barrier.attached == 0
    && t <= s.own <= |s.pool.workers| == |s.barrier.threads|
    && (forall u | 0 <= u < |s.barrier.threads| :: !s.barrier.threads[u].Asleep?)
    && (forall u | 0 <= u < t :: s.barrier.threads[u].Gone?)
    && (forall u | t <= u < s.own :: s.barrier.threads[u].Outside? && s.pool.workers[u].pc.Outside?)
  }

  function Visit(t: nat): seq<Step> {
    [Attach(t), Work(P.Test(t)), Exit(B.Leave(t)), Exit(B.NotifyAll(t))]
  }

  /** A thread of the pool that starts after the stop leaves at once, alone. */
  lemma Visits(s: State, t: nat)
    requires Calm(s, t) && t < s.own
    ensures Calm(Run(s, Visit(t)), t + 1) && Run(s, Visit(t)).own == s.own && Run(s, Visit(t)).late == s.late
    ensures |Run(s, Visit(t)).barrier.threads| == |s.barrier.threads|
    ensures forall u | s.own <= u < |s.barrier.threads| ::
              Run(s, Visit(t)).barrier.threads[u] == s.barrier.threads[u]
  {
    var a := Apply(s, Attach(t));
    var b := Apply(a, Work(P.Test(t)));
    var c := Apply(b, Exit(B.Leave(t)));
    var d := Apply(c, Exit(B.NotifyAll(t)));
    assert Visit(t)[1..] == [Work(P.Test(t)), Exit(B.Leave(t)), Exit(B.NotifyAll(t))];
    assert Visit(t)[1..][1..] == [Exit(B.Leave(t)), Exit(B.NotifyAll(t))];
    assert Visit(t)[1..][1..][1..] == [Exit(B.NotifyAll(t))];
    assert Run(s, Visit(t)) == Run(a, Visit(t)[1..]) == Run(b, Visit(t)[1..][1..]) == Run(c, [Exit(B.NotifyAll(t))]) == d;
  }

  /** ... and so do all that are left. */
  lemma {:induction false} AllVisit(s: State, t: nat) returns (steps: seq<Step>)
    requires Calm(s, t)
    ensures DestructorPasses(Run(s, steps)) && Calm(Run(s, steps), s.own)
    ensures Run(s, steps).own == s.own && Run(s, steps).late == s.late
    ensures |Run(s, steps).barrier.threads| == |s.barrier.threads|
    ensures forall u | s.own <= u < |s.barrier.threads| ::
              Run(s, steps).barrier.threads[u] == s.barrier.threads[u]
    decreases s.own - t
  {
    if t == s.own {
      return [];
    }
    Visits(s, t);
    var rest := AllVisit(Run(s, Visit(t)), t + 1);
    steps := Visit(t) + rest;
    RunAppend(s, Visit(t), rest);
  }

  function GuestPart(own: nat): seq<Step> {
    [Spawn, Attach(own), Work(P.Stop), Work(P.Close), Work(P.Test(own)), Exit(B.Leave(own))]
  }

  /** A guest that attached in time leaves the loop first and alone. */
  lemma GuestLeaves(own: nat, posts: set<nat>)
    ensures var s := Run(Initial(own, posts), GuestPart(own));
            Calm(s, 0) && s.own == own && !s.late && |s.barrier.threads| == own + 1
            && B.Is(s.barrier, own, B.Notifying)
  {
    var first := GuestPart(own);
    GuestComes(own, posts);
    var b := Run(Initial(own, posts), first[..2]);
    RunAppend(Initial(own, posts), first[..2], first[2..]);
    assert first == first[..2] + first[2..];
    GuestGoes(b);
    assert first[2..] == [Work(P.Stop), Work(P.Close), Work(P.Test(own)), Exit(B.Leave(own))];
  }

  /** The only attached thread, a guest, is told to stop. */
  predicate GuestOnly(b: State) {
    && |b.pool.workers| == |b.barrier.threads| == b.own + 1 && b.barrier.attached == 1 && !b.late
    && b.pool.workers[b.own].pc.Testing? && b.barrier.threads[b.own].Processing?
    && forall u | 0 <= u < b.own :: b.barrier.threads[u].Outside? && b.pool.workers[u].pc.Outside?
  }

  lemma GuestTold(b: State)
    requires GuestOnly(b) && !P.Locked(b.pool)
    ensures var d := Run(b, [Work(P.Stop), Work(P.Close)]);
            GuestOnly(d) && d.own == b.own && d.pool.stopped && d.pool.closed
  {
    var steps := [Work(P.Stop), Work(P.Close)];
    Unroll(b, steps);
    Unroll(Apply(b, Work(P.Stop)), steps[1..]);
  }

  lemma GuestOut(d: State)
    requires GuestOnly(d) && d.pool.stopped && d.pool.closed
    ensures var s := Run(d, [Work(P.Test(d.own)), Exit(B.Leave(d.own))]);
            Calm(s, 0) && s.own == d.own && !s.late && |s.barrier.threads| == d.own + 1 && B.Is(s.barrier, d.own, B.Notifying)
  {
    var steps := [Work(P.Test(d.own)), Exit(B.Leave(d.own))];
    Unroll(d, steps);
    Unroll(Apply(d, Work(P.Test(d.own))), steps[1..]);
  }

  lemma GuestGoes(b: State)
    requires GuestOnly(b) && !P.Locked(b.pool)
    ensures var s := Run(b, [Work(P.Stop), Work(P.Close), Work(P.Test(b.own)), Exit(B.Leave(b.own))]);
            Calm(s, 0) && s.own == b.own && !s.late && |s.barrier.threads| == b.own + 1
            && B.Is(s.barrier, b.own, B.Notifying)
  {
    var first, last := [Work(P.Stop), Work(P.Close)], [Work(P.Test(b.own)), Exit(B.Leave(b.own))];
    GuestTold(b);
    GuestOut(Run(b, first));
    RunAppend(b, first, last);
    assert first + last == [Work(P.Stop), Work(P.Close), Work(P.Test(b.own)), Exit(B.Leave(b.own))];
  }

  lemma GuestComes(own: nat, posts: set<nat>)
    ensures var s := Run(Initial(own, posts), GuestPart(own)[..2]);
            s == Apply(Apply(Initial(own, posts), Spawn), Attach(own)) && Enabled(Apply(Initial(own, posts), Spawn), Attach(own))
  {
    var two := GuestPart(own)[..2];
    Unroll(Initial(own, posts), two);
    Unroll(Apply(Initial(own, posts), Spawn), two[1..]);
  }

  /** However many threads the pool has, a guest that attached in time may still be on its way
      out of `attach`, with its notification to make, when the destructor passes. */
  lemma GuestOwesNotification(own: nat, posts: set<nat>) returns (steps: seq<Step>)
    ensures var s := Run(Initial(own, posts), steps);
            DestructorPasses(s) && !s.late && |s.barrier.threads| == own + 1 && B.Is(s.barrier, own, B.Notifying)
  {
    GuestLeaves(own, posts);
    var s := Run(Initial(own, posts), GuestPart(own));
    var rest := AllVisit(s, 0);
    RunAppend(Initial(own, posts), GuestPart(own), rest);
    steps := GuestPart(own) + rest;
  }

  lemma Unroll(s: State, steps: seq<Step>)
    requires steps != [] && Enabled(s, steps[0])
    ensures Run(s, steps) == Run(Apply(s, steps[0]), steps[1..])
  {
  }

  /** A guest that attaches after the stop may be in its loop over the queue. */
  lemma LateGuestInLoop(own: nat, posts: set<nat>) returns (steps: seq<Step>)
    ensures var s := Run(Initial(own, posts), steps); DestructorPasses(s) && |s.barrier.threads| == own + 1 && InLoop(s, own)
  {
    var first := [Work(P.Stop), Work(P.Close)];
    var last := [Spawn, Attach(own)];
    var a := Apply(Apply(Initial(own, posts), Work(P.Stop)), Work(P.Close));
    Unroll(Initial(own, posts), first);
    Unroll(Apply(Initial(own, posts), Work(P.Stop)), first[1..]);
    var middle := AllVisit(a, 0);
    var b := Run(a, middle);
    Unroll(b, last);
    Unroll(Apply(b, Spawn), last[1..]);
    RunAppend(Initial(own, posts), first, middle);
    RunAppend(Initial(own, posts), first + middle, last);
    steps := first + middle + last;
  }

  /** And a pool without threads joins nobody: its guest may be in the loop although it attached
      before the stop. */
  lemma NobodyToJoin(posts: set<nat>)
    ensures var s := Run(Initial(0, posts), [Spawn, Attach(0), Work(P.Stop), Work(P.Close)]);
            DestructorPasses(s) && !s.late && InLoop(s, 0)
  {
    var steps := [Spawn, Attach(0), Work(P.Stop), Work(P.Close)];
    var a := Apply(Initial(0, posts), Spawn);
    var b := Apply(a, Attach(0));
    Unroll(Initial(0, posts), steps);
    Unroll(a, steps[1..]);
    Unroll(b, steps[2..]);
    Unroll(Apply(b, Work(P.Stop)), steps[3..]);
  }

  /** In some run with all guests in time, a thread is in the loop as the destructor passes. */
  ghost predicate TimelyLoop(own: nat, posts: set<nat>) {
    exists steps, t: nat ::
      DestructorPasses(Run(Initial(own, posts), steps)) && !Run(Initial(own, posts), steps).late
      && InLoop(Run(Initial(own, posts), steps), t)
  }

  /** The exact condition. With guests in time the destructor can pass over a thread in the
      loop if and only if the pool has no thread of its own; with a late guest it always can.
      It can pass over a thread still inside attach if and only if there is a guest. */
  lemma DestructorExactly(own: nat, posts: set<nat>)
    ensures TimelyLoop(own, posts) <==> own == 0
    ensures exists steps :: DestructorPasses(Run(Initial(own, posts), steps)) && InLoop(Run(Initial(own, posts), steps), own)
    ensures exists steps ::
              DestructorPasses(Run(Initial(own, posts), steps)) && |Run(Initial(own, posts), steps).barrier.threads| == own + 1
              && InAttach(Run(Initial(own, posts), steps), own)
    ensures forall steps, t: nat ::
              DestructorPasses(Run(Initial(own, posts), steps)) && |Run(Initial(own, posts), steps).barrier.threads| == own ==>
                !InAttach(Run(Initial(own, posts), steps), t)
  {
    if TimelyLoop(own, posts) {
      var steps, t: nat :| DestructorPasses(Run(Initial(own, posts), steps)) && !Run(Initial(own, posts), steps).late
                           && InLoop(Run(Initial(own, posts), steps), t);
      DestructorSafe(own, posts, steps, t);
      OwnFixed(Initial(own, posts), steps);
    }
    if own == 0 {
      NobodyToJoin(posts);
    }
    var late := LateGuestInLoop(own, posts);
    var owing := GuestOwesNotification(own, posts);
    forall steps, t: nat | DestructorPasses(Run(Initial(own, posts), steps))
                           && |Run(Initial(own, posts), steps).barrier.threads| == own
      ensures !InAttach(Run(Initial(own, posts), steps), t)
    {
      DestructorSafe(own, posts, steps, t);
    }
  }
}
