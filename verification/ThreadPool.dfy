/** The pool: any number of producers, the closable queue with its condition variable, and
    workers that take tasks until the queue runs dry or the pool is stopped. A critical
    section of the queue is one step. Tasks are known by their position among the accepted. */
module ThreadPool {
  import opened Outcomes

  /** Not attached yet, testing the stop flag, entering pop, asleep inside pop, woken inside it, running the
      task, past the loop, and inside pop for ever, waiting for the mutex it holds itself. */
  datatype Pc = Outside | Testing | Popping | Asleep | Woken | Working | Left | Stuck

  /** `hand` is the function object in the worker's local variable. */
  datatype Worker = Worker(pc: Pc, hand: Option<nat>)

  /** `posts` are the tasks whose function object, destroyed after its run, posts to this queue:
      it owns a promise, say, whose future continues on the pool. `taken` counts successful pops;
      `finished` and `dropped` are positions that have been run and whose function object has been
      destroyed; `refused` are tasks pushed after the queue was closed. */
  datatype State = State(posts: set<nat>, queue: seq<nat>, closed: bool, stopped: bool, workers: seq<Worker>,
                         accepted: seq<nat>, taken: nat, finished: set<nat>, dropped: set<nat>, refused: seq<nat>)

  /** `target` is the worker a push notifies if any is asleep. */
  datatype Step =
    | Spawn
    | Attach(w: nat)
    | Post(task: nat, target: nat)
    | Stop
    | Close
    | Test(w: nat)
    | Pop(w: nat)
    | Spurious(w: nat)
    | Finish(w: nat)

  function New(posts: set<nat>): State { State(posts, [], false, false, [], [], 0, {}, {}, []) }

  predicate IsPc(s: State, w: nat, pc: Pc) { w < |s.workers| && s.workers[w].pc == pc }

  predicate SomeoneSleeps(s: State) { exists w :: 0 <= w < |s.workers| && s.workers[w].pc.Asleep? }

  /** Some worker will never give back the mutex of the queue. */
  predicate Locked(s: State) { exists w :: 0 <= w < |s.workers| && s.workers[w].pc.Stuck? }

  predicate Enabled(s: State, step: Step) {
    match step
    case Spawn => true
    case Attach(w) => IsPc(s, w, Outside)
    case Post(_, target) => !Locked(s) && (SomeoneSleeps(s) ==> IsPc(s, target, Asleep))
    case Stop => true
    case Close => !Locked(s)
    case Test(w) => IsPc(s, w, Testing)
    case Pop(w) => !Locked(s) && (IsPc(s, w, Popping) || IsPc(s, w, Woken))
    case Spurious(w) => IsPc(s, w, Asleep)
    case Finish(w) => IsPc(s, w, Working) && s.workers[w].hand.Some?
  }

  function Put(s: State, w: nat, worker: Worker): State
    requires w < |s.workers|
  {
    s.(workers := s.workers[w := worker])
  }

  function Opened(hand: Option<nat>): set<nat> { if hand.Some? then {hand.value} else {} }

  /** Destroying this function object posts to the queue. */
  predicate PostsAgain(s: State, hand: Option<nat>) {
    hand.Some? && hand.value < |s.accepted| && s.accepted[hand.value] in s.posts
  }

  /** The loop ends and the local variable with it. The mutex is not held. */
  function Leave(s: State, w: nat): State
    requires w < |s.workers|
  {
    Put(s, w, Worker(Left, None)).(dropped := s.dropped + Opened(s.workers[w].hand))
  }

  function Apply(s: State, step: Step): State
    requires Enabled(s, step)
  {
    match step
    case Spawn => s.(workers := s.workers + [Worker(Outside, None)])
    case Attach(w) => Put(s, w, s.workers[w].(pc := Testing))
    case Post(task, target) =>
      if s.closed then s.(refused := s.refused + [task])
      else
        var s' := s.(queue := s.queue + [task], accepted := s.accepted + [task]);
        if IsPc(s, target, Asleep) then Put(s', target, s.workers[target].(pc := Woken)) else s'
    case Stop => s.(stopped := true)
    case Close =>
      s.(closed := true,
         workers := seq(|s.workers|, w requires 0 <= w < |s.workers| =>
                      if s.workers[w].pc.Asleep? then s.workers[w].(pc := Woken) else s.workers[w]))
    case Test(w) => if s.stopped then Leave(s, w) else Put(s, w, s.workers[w].(pc := Popping))
    case Pop(w) =>
      if s.queue != [] then
        // The swap leaves the worker's previous function in the front slot, which is popped, and
        // so destroyed, under the mutex; if that posts, `push` waits for this very mutex.
        Put(s, w, Worker(if PostsAgain(s, s.workers[w].hand) then Stuck else Working, Some(s.taken)))
          .(queue := s.queue[1..], taken := s.taken + 1, dropped := s.dropped + Opened(s.workers[w].hand))
      else if s.closed then Leave(s, w)
      else Put(s, w, s.workers[w].(pc := Asleep))
    case Spurious(w) => Put(s, w, s.workers[w].(pc := Woken))
    case Finish(w) => Put(s, w, s.workers[w].(pc := Testing)).(finished := s.finished + {s.workers[w].hand.value})
  }

  function Run(s: State, steps: seq<Step>): State
    decreases |steps|
  {
    if steps == [] then s else Run(if Enabled(s, steps[0]) then Apply(s, steps[0]) else s, steps[1..])
  }

  // The invariant

  function AwakeIn(workers: seq<Worker>): nat {
    if workers == [] then 0
    else AwakeIn(workers[..|workers| - 1]) + if workers[|workers| - 1].pc.Woken? then 1 else 0
  }

  lemma {:induction false} Replace(workers: seq<Worker>, w: nat, x: Worker)
    requires w < |workers|
    ensures AwakeIn(workers[w := x]) - (if x.pc.Woken? then 1 else 0)
            == AwakeIn(workers) - (if workers[w].pc.Woken? then 1 else 0)
  {
    var k := |workers| - 1;
    if w == k {
      assert workers[w := x][..k] == workers[..k];
    } else {
      Replace(workers[..k], w, x);
      assert workers[w := x][..k] == workers[..k][w := x];
    }
  }

  lemma {:induction false} NoneAwake(workers: seq<Worker>)
    ensures AwakeIn(workers) == 0 <==> forall w | 0 <= w < |workers| :: !workers[w].pc.Woken?
  {
    if workers != [] {
      var k := |workers| - 1;
      NoneAwake(workers[..k]);
      assert forall w | 0 <= w < k :: workers[..k][w] == workers[w];
    }
  }

  predicate InHand(s: State, w: nat, p: nat) { w < |s.workers| && s.workers[w].hand == Some(p) }

  /** One function object per accepted task: in the queue, in one worker's hand or destroyed. */
  predicate WorkerOk(s: State, w: nat)
    requires w < |s.workers|
  {
    var x := s.workers[w];
    && (x.pc.Working? || x.pc.Stuck? ==> x.hand.Some? && x.hand.value !in s.finished)
    && (x.hand.Some? ==> x.hand.value < s.taken && x.hand.value !in s.dropped)
    && (x.hand.Some? && !x.pc.Working? && !x.pc.Stuck? ==> x.hand.value in s.finished)
    && (x.pc.Outside? ==> x.hand.None?)
    && (x.pc.Left? ==> x.hand.None? && (s.stopped || (s.closed && s.queue == [])))
    && (x.pc.Asleep? ==> !s.closed)
  }

  ghost predicate TaskOk(s: State, p: nat) {
    p in s.dropped || exists w: nat :: InHand(s, w, p)
  }

  predicate Disjoint(s: State) {
    forall v, w | 0 <= v < w < |s.workers| && s.workers[v].hand.Some? :: s.workers[v].hand != s.workers[w].hand
  }

  ghost predicate Inv(s: State) {
    && s.taken <= |s.accepted| && s.queue == s.accepted[s.taken..]
    && (forall p | p in s.finished :: p < s.taken)
    && (forall p | p in s.dropped :: p in s.finished)
    && (forall w | 0 <= w < |s.workers| :: WorkerOk(s, w))
    && Disjoint(s)
    && (forall p | 0 <= p < s.taken :: TaskOk(s, p))
    && (SomeoneSleeps(s) ==> |s.queue| <= AwakeIn(s.workers))
  }

  /** A step of worker w that keeps its hand or empties it into `dropped`. */
  lemma TasksKept(s: State, s': State, w: nat)
    requires Inv(s) && w < |s.workers| && |s'.workers| == |s.workers|
    requires s'.workers == s.workers[w := s'.workers[w]] && s.dropped <= s'.dropped
    requires s'.workers[w].hand == s.workers[w].hand || Opened(s.workers[w].hand) <= s'.dropped
    ensures forall p | 0 <= p < s.taken :: TaskOk(s', p)
  {
    forall p | 0 <= p < s.taken ensures TaskOk(s', p) {
      assert TaskOk(s, p);
      if p !in s.dropped {
        var v: nat :| InHand(s, v, p);
        assert v != w ==> InHand(s', v, p);
        assert s'.workers[w].hand == s.workers[w].hand ==> InHand(s', v, p);
      }
    }
  }

  /** What a worker picks up is in nobody else's hand. */
  lemma StillDisjoint(s: State, s': State, w: nat)
    requires Inv(s) && w < |s.workers| && |s'.workers| == |s.workers|
    requires s'.workers == s.workers[w := s'.workers[w]]
    requires s'.workers[w].hand in {s.workers[w].hand, None, Some(s.taken)}
    ensures Disjoint(s')
  {
    forall v | 0 <= v < |s.workers| ensures s.workers[v].hand != Some(s.taken) {
      assert WorkerOk(s, v);
    }
  }

  lemma TakeInv(s: State, w: nat)
    requires Inv(s) && Enabled(s, Pop(w)) && s.queue != []
    ensures Inv(Apply(s, Pop(w)))
  {
    var s' := Apply(s, Pop(w));
    Replace(s.workers, w, s'.workers[w]);
    assert WorkerOk(s, w);
    TasksKept(s, s', w);
    StillDisjoint(s, s', w);
    assert InHand(s', w, s.taken);
    forall v | 0 <= v < |s'.workers| ensures WorkerOk(s', v) {
      assert WorkerOk(s, v);
    }
    if SomeoneSleeps(s') && s'.queue != [] {
      var v :| 0 <= v < |s'.workers| && s'.workers[v].pc.Asleep?;
      assert s.workers[v].pc.Asleep?;
    }
  }

  /** A pop that finds nothing goes to sleep, or leaves if the queue is closed. */
  lemma EmptyInv(s: State, w: nat)
    requires Inv(s) && Enabled(s, Pop(w)) && s.queue == []
    ensures Inv(Apply(s, Pop(w)))
  {
    var s' := Apply(s, Pop(w));
    Replace(s.workers, w, s'.workers[w]);
    assert WorkerOk(s, w);
    TasksKept(s, s', w);
    StillDisjoint(s, s', w);
    forall v | 0 <= v < |s'.workers| ensures WorkerOk(s', v) {
      assert WorkerOk(s, v);
    }
  }

  /** Whoever sleeps after a step of worker w slept before. */
  lemma SleepersStay(s: State, s': State, w: nat)
    requires Inv(s) && w < |s.workers| == |s'.workers|
    requires s'.workers == s.workers[w := s'.workers[w]] && !s'.workers[w].pc.Asleep?
    requires s'.queue == s.queue && (s.workers[w].pc.Woken? ==> s'.workers[w].pc.Woken?)
    ensures SomeoneSleeps(s') ==> |s'.queue| <= AwakeIn(s'.workers)
  {
    Replace(s.workers, w, s'.workers[w]);
    if SomeoneSleeps(s') {
      var v :| 0 <= v < |s'.workers| && s'.workers[v].pc.Asleep?;
      assert s.workers[v].pc.Asleep?;
    }
  }

  lemma WorkerInv(s: State, step: Step)
    requires Inv(s) && Enabled(s, step) && (step.Attach? || step.Test? || step.Spurious? || step.Finish?)
    ensures Inv(Apply(s, step))
  {
    var s', w := Apply(s, step), step.w;
    assert WorkerOk(s, w);
    TasksKept(s, s', w);
    SleepersStay(s, s', w);
    forall v | 0 <= v < |s'.workers| ensures WorkerOk(s', v) {
      assert WorkerOk(s, v);
    }
  }

  /** A step that leaves every hand alone. */
  lemma HandsKept(s: State, s': State)
    requires Inv(s) && s.dropped <= s'.dropped && |s.workers| <= |s'.workers|
    requires forall v | 0 <= v < |s.workers| :: s'.workers[v].hand == s.workers[v].hand
    ensures forall p | 0 <= p < s.taken :: TaskOk(s', p)
  {
    forall p | 0 <= p < s.taken ensures TaskOk(s', p) {
      assert TaskOk(s, p);
      if p !in s.dropped {
        var v: nat :| InHand(s, v, p);
        assert InHand(s', v, p);
      }
    }
  }

  lemma PostInv(s: State, task: nat, target: nat)
    requires Inv(s) && Enabled(s, Post(task, target))
    ensures Inv(Apply(s, Post(task, target)))
  {
    var s' := Apply(s, Post(task, target));
    forall v | 0 <= v < |s'.workers| ensures WorkerOk(s', v) {
      assert WorkerOk(s, v);
    }
    if IsPc(s, target, Asleep) && !s.closed {
      Replace(s.workers, target, s'.workers[target]);
      TasksKept(s, s', target);
    } else {
      HandsKept(s, s');
    }
    if SomeoneSleeps(s') {
      var v :| 0 <= v < |s'.workers| && s'.workers[v].pc.Asleep?;
      assert s.workers[v].pc.Asleep?;
    }
  }

  lemma SpawnInv(s: State)
    requires Inv(s)
    ensures Inv(Apply(s, Spawn))
  {
    var s' := Apply(s, Spawn);
    forall v | 0 <= v < |s'.workers| ensures WorkerOk(s', v) {
      assert v < |s.workers| ==> WorkerOk(s, v);
    }
    HandsKept(s, s');
    assert s'.workers[..|s.workers|] == s.workers;
    if SomeoneSleeps(s') {
      var v :| 0 <= v < |s'.workers| && s'.workers[v].pc.Asleep?;
      assert s.workers[v].pc.Asleep?;
    }
  }

  lemma StopInv(s: State, step: Step)
    requires Inv(s) && Enabled(s, step) && (step.Stop? || step.Close?)
    ensures Inv(Apply(s, step))
  {
    var s' := Apply(s, step);
    forall v | 0 <= v < |s'.workers| ensures WorkerOk(s', v) {
      assert WorkerOk(s, v);
    }
    HandsKept(s, s');
  }

  lemma StepInv(s: State, step: Step)
    requires Inv(s) && Enabled(s, step)
    ensures Inv(Apply(s, step))
  {
    match step
    case Post(task, target) => PostInv(s, task, target);
    case Pop(w) => if s.queue != [] { TakeInv(s, w); } else { EmptyInv(s, w); }
    case Spawn => SpawnInv(s);
    case Stop => StopInv(s, step);
    case Close => StopInv(s, step);
    case _ => WorkerInv(s, step);
  }

  lemma {:induction false} RunInv(s: State, steps: seq<Step>)
    requires Inv(s)
    ensures Inv(Run(s, steps))
    decreases |steps|
  {
    if steps != [] {
      if Enabled(s, steps[0]) {
        StepInv(s, steps[0]);
        RunInv(Apply(s, steps[0]), steps[1..]);
      } else {
        RunInv(s, steps[1..]);
      }
    }
  }

  ghost predicate Reachable(s: State) { exists steps :: s == Run(New(s.posts), steps) }

  lemma ReachableInv(s: State)
    requires Reachable(s)
    ensures Inv(s)
  {
    var steps :| s == Run(New(s.posts), steps);
    RunInv(New(s.posts), steps);
  }

  // The claims

  /** What each step adds to the account of the pool: a post is accepted by an open queue and
      refused by a closed one, a pop takes one task, and a task is finished by the worker whose hand
      it is in. */
  lemma Ledger(s: State, step: Step)
    requires Reachable(s) && Enabled(s, step)
    ensures var s' := Apply(s, step);
            && s'.accepted == s.accepted + (if step.Post? && !s.closed then [step.task] else [])
            && s'.refused == s.refused + (if step.Post? && s.closed then [step.task] else [])
            && s'.taken == s.taken + (if step.Pop? && s.queue != [] then 1 else 0)
            && (forall p :: p in s'.finished <==> p in s.finished || (step.Finish? && InHand(s, step.w, p)))
            && (s'.closed <==> s.closed || step.Close?) && (s'.stopped <==> s.stopped || step.Stop?)
            && |s'.workers| == |s.workers| + if step.Spawn? then 1 else 0
  {
  }

  /** Posting, stopping and closing never wait for a worker unless one is stuck. */
  lemma NeverWaits(s: State, task: nat)
    requires Reachable(s) && !Locked(s)
    ensures Enabled(s, Stop) && Enabled(s, Close) && exists target: nat :: Enabled(s, Post(task, target))
  {
    var target := PostTarget(s, task);
  }

  lemma PostTarget(s: State, task: nat) returns (target: nat)
    requires !Locked(s)
    ensures Enabled(s, Post(task, target))
  {
    target := if SomeoneSleeps(s) then (var w :| 0 <= w < |s.workers| && s.workers[w].pc.Asleep?; w) else 0;
  }

  /** Where each step leaves the worker that takes it. */
  lemma WorkerGoes(s: State, step: Step)
    requires Reachable(s) && Enabled(s, step) && (step.Attach? || step.Test? || step.Finish? || step.Spurious?)
    ensures var s' := Apply(s, step);
            && step.w < |s'.workers|
            && s'.workers[step.w].pc ==
                 match step
                 case Test(_) => if s.stopped then Left else Popping
                 case Spurious(_) => Woken
                 case _ => Testing
  {
  }

  /** Worker w took position p and has not run it: it is running it, or stuck before. */
  predicate Unfinished(s: State, w: nat, p: nat) {
    InHand(s, w, p) && (IsPc(s, w, Working) || IsPc(s, w, Stuck))
  }

  /** Tasks are taken in the order they were accepted, and every taken task is either finished
      or in the hand of exactly one worker that is running it or stuck, never both. */
  lemma Conservation(s: State)
    requires Reachable(s)
    ensures s.taken <= |s.accepted| && s.accepted == s.accepted[..s.taken] + s.queue
    ensures forall p | p in s.finished :: p < s.taken
    ensures forall p | 0 <= p < s.taken :: p !in s.finished <==> exists w: nat :: Unfinished(s, w, p)
    ensures forall p: nat, v: nat, w: nat | InHand(s, v, p) && InHand(s, w, p) :: v == w
  {
    ReachableInv(s);
    forall p | 0 <= p < s.taken ensures p !in s.finished <==> exists w: nat :: Unfinished(s, w, p) {
      assert TaskOk(s, p);
      if p !in s.finished {
        var w: nat :| InHand(s, w, p);
        assert WorkerOk(s, w) && Unfinished(s, w, p);
      }
      forall w: nat | Unfinished(s, w, p) ensures p !in s.finished {
        assert WorkerOk(s, w);
      }
    }
  }

  /** A task is started at most once: what a pop hands out has never been taken before and is
      the oldest task still queued. */
  lemma StartsOnce(s: State, w: nat)
    requires Reachable(s) && Enabled(s, Pop(w)) && s.queue != []
    ensures var s' := Apply(s, Pop(w));
            && s'.workers[w].hand == Some(s.taken) && s.taken !in s.finished
            && !(exists v: nat :: InHand(s, v, s.taken))
            && s.taken < |s.accepted| && s.queue[0] == s.accepted[s.taken]
  {
    ReachableInv(s);
    forall v: nat | v < |s.workers| ensures !InHand(s, v, s.taken) {
      assert WorkerOk(s, v);
    }
  }

  /** Nobody is between the start of its loop and its end. */
  predicate NobodyInside(s: State) { forall w | w in s.workers :: w.pc.Outside? || w.pc.Left? }

  lemma HandsEmpty(s: State)
    requires Inv(s) && NobodyInside(s)
    ensures forall p | 0 <= p < s.taken :: p in s.dropped && p in s.finished
  {
    forall w: nat | w < |s.workers| ensures s.workers[w].hand.None? {
      assert s.workers[w] in s.workers && WorkerOk(s, w);
    }
    forall p | 0 <= p < s.taken ensures p in s.dropped {
      assert TaskOk(s, p);
    }
  }

  /** Closed without being stopped, once at least one worker was attached and nobody is in its
      loop any more, every accepted task has been run. */
  lemma Drained(s: State)
    requires Reachable(s) && !s.stopped && NobodyInside(s) && exists w :: w in s.workers && w.pc.Left?
    ensures s.closed && s.queue == []
    ensures forall p | 0 <= p < |s.accepted| :: p in s.finished && p in s.dropped
  {
    ReachableInv(s);
    var i :| 0 <= i < |s.workers| && s.workers[i].pc.Left?;
    assert WorkerOk(s, i);
    HandsEmpty(s);
  }

  /** Stopped or not, the tasks that were run are a prefix of the accepted ones once all
      workers have left; the rest are still queued. */
  lemma RunsAPrefix(s: State)
    requires Reachable(s) && NobodyInside(s)
    ensures s.taken <= |s.accepted| && s.queue == s.accepted[s.taken..]
    ensures forall p :: p in s.finished <==> 0 <= p < s.taken
  {
    ReachableInv(s);
    HandsEmpty(s);
  }

  /** No worker has a step left except to wake for no reason. */
  ghost predicate AtRest(s: State) {
    forall step: Step | step.Test? || step.Pop? || step.Finish? :: !Enabled(s, step)
  }

  lemma StuckInside(s: State)
    requires Locked(s)
    ensures !NobodyInside(s)
  {
    var w :| 0 <= w < |s.workers| && s.workers[w].pc.Stuck?;
    assert s.workers[w] in s.workers;
  }

  lemma RestsFree(s: State)
    requires Inv(s) && AtRest(s) && !Locked(s)
    ensures SomeoneSleeps(s) ==> s.queue == []
    ensures s.closed ==> NobodyInside(s)
  {
    forall w | 0 <= w < |s.workers| ensures s.workers[w].pc.Asleep? || s.workers[w].pc.Left? || s.workers[w].pc.Outside? {
      assert !Enabled(s, Test(w)) && !Enabled(s, Pop(w)) && !Enabled(s, Finish(w));
      assert WorkerOk(s, w);
    }
    NoneAwake(s.workers);
    forall w | w in s.workers && s.closed ensures w.pc.Outside? || w.pc.Left? {
      var i :| 0 <= i < |s.workers| && s.workers[i] == w;
      assert WorkerOk(s, i);
    }
  }

  // The mutex that is never given back

  /** A worker gets stuck if and only if it pops a queued task with a finished one in its hand
      whose destruction posts. Leaving, by the stop test or from the closed empty queue, never
      does it. */
  lemma StuckExactly(s: State, step: Step, w: nat)
    requires Reachable(s) && Enabled(s, step) && !IsPc(s, w, Stuck)
    ensures IsPc(Apply(s, step), w, Stuck) <==>
            && step == Pop(w) && w < |s.workers| && s.queue != [] && PostsAgain(s, s.workers[w].hand)
            && s.workers[w].hand.value in s.finished
  {
    ReachableInv(s);
    if step == Pop(w) {
      assert WorkerOk(s, w);
    }
  }

  /** From then on the queue is out of service: whatever the program does, nothing is accepted,
      taken or closed any more, and the worker stays in its loop. */
  lemma {:induction false} LockedForGood(s: State, steps: seq<Step>, w: nat)
    requires IsPc(s, w, Stuck)
    ensures var t := Run(s, steps);
            IsPc(t, w, Stuck) && t.queue == s.queue && t.accepted == s.accepted && t.taken == s.taken
            && t.closed == s.closed && t.refused == s.refused
    decreases |steps|
  {
    if steps != [] {
      LockedForGood(if Enabled(s, steps[0]) then Apply(s, steps[0]) else s, steps[1..], w);
    }
  }

  /** A task that posts when it is destroyed is accepted and is not the last one. */
  ghost predicate Strands(posts: set<nat>, tasks: seq<nat>) {
    exists i :: 0 <= i < |tasks| - 1 && tasks[i] in posts
  }

  ghost predicate StuckOk(s: State) {
    forall w | 0 <= w < |s.workers| && s.workers[w].pc.Stuck? :: Strands(s.posts, s.accepted)
  }

  lemma StuckStep(s: State, step: Step)
    requires Inv(s) && StuckOk(s) && Enabled(s, step)
    ensures StuckOk(Apply(s, step)) && Apply(s, step).posts == s.posts
  {
    var s' := Apply(s, step);
    if step.Pop? && s.queue != [] && PostsAgain(s, s.workers[step.w].hand) {
      assert WorkerOk(s, step.w);
      assert s'.accepted[s.workers[step.w].hand.value] in s'.posts;
    } else {
      forall w | 0 <= w < |s'.workers| && s'.workers[w].pc.Stuck? ensures Strands(s'.posts, s'.accepted) {
        assert w < |s.workers| && s.workers[w].pc.Stuck?;
        var i :| 0 <= i < |s.accepted| - 1 && s.accepted[i] in s.posts;
        assert s'.accepted[i] in s'.posts;
      }
    }
  }

  lemma {:induction false} StuckRun(s: State, steps: seq<Step>)
    requires Inv(s) && StuckOk(s)
    ensures StuckOk(Run(s, steps)) && Run(s, steps).posts == s.posts
    decreases |steps|
  {
    if steps != [] {
      if Enabled(s, steps[0]) {
        StepInv(s, steps[0]);
        StuckStep(s, steps[0]);
        StuckRun(Apply(s, steps[0]), steps[1..]);
      } else {
        StuckRun(s, steps[1..]);
      }
    }
  }

  /** When the queue can be lost: a program that has these tasks accepted has a run in which a
      worker gets stuck if and only if one of them, not the last, posts when it is destroyed. */
  lemma StrandsExactly(posts: set<nat>, tasks: seq<nat>)
    ensures (exists steps :: Run(New(posts), steps).accepted == tasks && Locked(Run(New(posts), steps)))
            <==> Strands(posts, tasks)
  {
    forall steps | Run(New(posts), steps).accepted == tasks && Locked(Run(New(posts), steps))
      ensures Strands(posts, tasks)
    {
      StuckRun(New(posts), steps);
    }
    if Strands(posts, tasks) {
      var steps := StrandingRun(posts, tasks);
      assert Run(New(posts), steps).accepted == tasks;
    }
  }

  /** No wake-up is lost: at rest, with the mutex free, nobody sleeps next to a queued task; and
      after the queue was closed every worker has left, so joining them ends, if and only if none
      is stuck; and none is if no accepted task but the last posts when it is destroyed. */
  lemma NoLostWakeup(s: State)
    requires Reachable(s) && AtRest(s)
    ensures !Locked(s) && SomeoneSleeps(s) ==> s.queue == []
    ensures s.closed ==> (NobodyInside(s) <==> !Locked(s))
    ensures !Strands(s.posts, s.accepted) ==> !Locked(s)
  {
    ReachableInv(s);
    var steps :| s == Run(New(s.posts), steps);
    StuckRun(New(s.posts), steps);
    if Locked(s) {
      StuckInside(s);
    } else {
      RestsFree(s);
    }
  }

  /** Two tasks and one thread are enough: the function object of the first owns a promise whose
      future continues on the pool. */
  lemma PosterStrands(first: nat, second: nat)
    ensures exists steps ::
              Run(New({first}), steps).accepted == [first, second] && Locked(Run(New({first}), steps))
  {
    assert [first, second][0] in {first};
    StrandsExactly({first}, [first, second]);
  }

  lemma {:induction false} RunAppend(s: State, a: seq<Step>, b: seq<Step>)
    ensures Run(s, a + b) == Run(Run(s, a), b)
    decreases |a|
  {
    if a == [] {
      assert a + b == b;
    } else {
      assert (a + b)[1..] == a[1..] + b;
      RunAppend(if Enabled(s, a[0]) then Apply(s, a[0]) else s, a[1..], b);
    }
  }

  /** One worker, which has just run what it holds. */
  predicate Alone(s: State) {
    && |s.workers| == 1 && s.workers[0].pc.Testing? && !s.closed && !s.stopped
    && s.taken <= |s.accepted| && s.queue == s.accepted[s.taken..]
    && s.workers[0].hand == if s.taken == 0 then None else Some(s.taken - 1)
  }

  lemma {:induction false} PostAll(s: State, tasks: seq<nat>) returns (steps: seq<Step>)
    requires Alone(s)
    ensures Run(s, steps) == s.(queue := s.queue + tasks, accepted := s.accepted + tasks)
    decreases |tasks|
  {
    if tasks == [] {
      assert s.queue + tasks == s.queue && s.accepted + tasks == s.accepted;
      return [];
    }
    var s' := Apply(s, Post(tasks[0], 0));
    var rest := PostAll(s', tasks[1..]);
    steps := [Post(tasks[0], 0)] + rest;
    assert steps[1..] == rest;
    assert s'.queue + tasks[1..] == s.queue + tasks && s'.accepted + tasks[1..] == s.accepted + tasks;
  }

  /** The worker takes one task after the other until it is stuck. */
  lemma {:induction false} WorkOn(s: State, i: nat) returns (steps: seq<Step>)
    requires Alone(s) && s.taken <= i + 1 < |s.accepted| && s.accepted[i] in s.posts
    ensures Locked(Run(s, steps)) && Run(s, steps).accepted == s.accepted
    decreases |s.accepted| - s.taken
  {
    var a := Apply(s, Test(0));
    var b := Apply(a, Pop(0));
    if PostsAgain(s, s.workers[0].hand) {
      steps := [Test(0), Pop(0)];
      Unroll(s, steps);
      Unroll(a, steps[1..]);
      assert b.workers[0].pc.Stuck?;
    } else {
      var c := Apply(b, Finish(0));
      var rest := WorkOn(c, i);
      steps := [Test(0), Pop(0), Finish(0)] + rest;
      Unroll(s, steps);
      Unroll(a, steps[1..]);
      Unroll(b, steps[1..][1..]);
      assert steps[1..][1..][1..] == rest;
    }
  }

  lemma StrandingRun(posts: set<nat>, tasks: seq<nat>) returns (steps: seq<Step>)
    requires Strands(posts, tasks)
    ensures Run(New(posts), steps).accepted == tasks && Locked(Run(New(posts), steps))
  {
    var first := [Spawn, Attach(0)];
    var a := Apply(Apply(New(posts), Spawn), Attach(0));
    Unroll(New(posts), first);
    Unroll(Apply(New(posts), Spawn), first[1..]);
    var middle := PostAll(a, tasks);
    var b := Run(a, middle);
    assert b.accepted == tasks == b.queue;
    var i :| 0 <= i < |tasks| - 1 && tasks[i] in posts;
    var last := WorkOn(b, i);
    RunAppend(New(posts), first, middle);
    RunAppend(New(posts), first + middle, last);
    steps := first + middle + last;
  }

  /** A closed queue accepts nothing more. */
  lemma {:induction false} ClosedForGood(s: State, steps: seq<Step>)
    requires s.closed
    ensures Run(s, steps).closed && Run(s, steps).accepted == s.accepted
    decreases |steps|
  {
    if steps != [] {
      ClosedForGood(if Enabled(s, steps[0]) then Apply(s, steps[0]) else s, steps[1..]);
    }
  }

  /** Stopping does not drain: with the tasks of any program accepted and none taken, the only
      worker leaves at its next test of the flag and all of them stay. */
  lemma StopLeavesTasks(s: State)
    requires Reachable(s) && s.workers == [Worker(Testing, None)] && s.taken == 0 && !s.closed
    ensures var t := Run(s, [Stop, Close, Test(0)]);
            t.stopped && t.closed && t.workers == [Worker(Left, None)] && t.queue == s.accepted && t.finished == {}
  {
    ReachableInv(s);
    var a := Apply(s, Stop);
    var b := Apply(a, Close);
    assert b.workers == [Worker(Testing, None)];
    Unroll(s, [Stop, Close, Test(0)]);
    assert [Stop, Close, Test(0)][1..] == [Close, Test(0)];
    Unroll(a, [Close, Test(0)]);
    assert [Close, Test(0)][1..] == [Test(0)];
    Unroll(b, [Test(0)]);
    forall p | p in s.finished ensures false {
    }
  }

  lemma Unroll(s: State, steps: seq<Step>)
    requires steps != [] && Enabled(s, steps[0])
    ensures Run(s, steps) == Run(Apply(s, steps[0]), steps[1..])
  {
  }
}
