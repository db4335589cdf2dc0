/** Packaged tasks posted to a pool: the steps of the pool's life joined with what they do to
    the owners and to the shared states, up to the destruction of the pool. A task is the slot of its
    packaged_task among the owners. */
module EndToEnd {
  import opened Outcomes
  import opened StoredResults
  import O = Owners
  import P = ThreadPool
  import L = PoolLife

  /** `ids` is the shared state of each posted task, `results` what the runs produced.
      `closing` is set when the pool's members are destroyed, `cleared` counts the queued
      tasks destroyed by that. */
  datatype State = State(life: L.State, world: O.World, ids: map<nat, nat>, results: map<nat, Stored>,
                         closing: bool, cleared: nat)

  datatype Step =
    | User(op: O.Op)
    | Post(task: nat, target: nat)
    | Worker(step: L.Step)
    | Finish(w: nat, result: Stored)
    | Destruct
    | Clear

  function Start(own: nat, posts: set<nat>): State { State(L.Initial(own, posts), O.NOTHING, map[], map[], false, 0) }

  /** The owner slots an operation of the user names. */
  function Slots(op: O.Op): set<nat> {
    match op
    case GetFuture(o) => {o}
    case Set(o, _) => {o}
    case Call(o, _) => {o}
    case Move(src) => {src}
    case Assign(dst, src) => {dst, src}
    case Destroy(o) => {o}
    case _ => {}
  }

  /** The function object a worker's step destroys. */
  function Discards(pool: P.State, step: L.Step): Option<nat> {
    match step
    case Work(Test(w)) => if pool.stopped && w < |pool.workers| then pool.workers[w].hand else None
    case Work(Pop(w)) =>
      if (pool.queue != [] || pool.closed) && w < |pool.workers| then pool.workers[w].hand else None
    case _ => None
  }

  predicate Ready(w: O.World, task: nat) {
    && task < |w.owners| && O.Enabled(w, O.Destroy(task))
    && (!w.owners[task].Vacant? ==> w.states[w.owners[task].id].kind.PackagedTask?)
  }

  /** The user no longer touches a task that was moved into the pool; a task is posted with
      its function still in place. */
  predicate Enabled(s: State, step: Step) {
    match step
    case User(op) => O.Enabled(s.world, op) && Slots(op) !! s.ids.Keys
    case Post(task, target) =>
      && !s.closing && L.Enabled(s.life, L.Work(P.Post(task, target))) && task !in s.ids && Ready(s.world, task)
      && !s.world.owners[task].Vacant? && s.world.states[s.world.owners[task].id].stored.Empty?
    case Worker(step) =>
      && !s.closing && L.Enabled(s.life, step) && !(step.Work? && (step.p.Post? || step.p.Finish?))
      && (Discards(s.life.pool, step).Some? ==>
            && Discards(s.life.pool, step).value < |s.life.pool.accepted|
            && Ready(s.world, s.life.pool.accepted[Discards(s.life.pool, step).value]))
    case Finish(w, result) =>
      && !s.closing && L.Enabled(s.life, L.Work(P.Finish(w))) && s.life.pool.workers[w].hand.value < |s.life.pool.accepted|
      && O.Enabled(s.world, O.Call(s.life.pool.accepted[s.life.pool.workers[w].hand.value], result))
    case Destruct => L.DestructorPasses(s.life) && !s.closing
    case Clear => s.closing && s.cleared < |s.life.pool.queue| && Ready(s.world, s.life.pool.queue[s.cleared])
  }

  function Apply(s: State, step: Step): State
    requires Enabled(s, step)
  {
    match step
    case User(op) => s.(world := O.Apply(s.world, op))
    case Post(task, target) =>
      s.(life := L.Apply(s.life, L.Work(P.Post(task, target))), ids := s.ids[task := s.world.owners[task].id],
         world := if s.life.pool.closed then O.Apply(s.world, O.Destroy(task)) else s.world)
    case Worker(step) =>
      var gone := Discards(s.life.pool, step);
      s.(life := L.Apply(s.life, step),
         world := if gone.Some? then O.Apply(s.world, O.Destroy(s.life.pool.accepted[gone.value])) else s.world)
    case Finish(w, result) =>
      var task := s.life.pool.accepted[s.life.pool.workers[w].hand.value];
      s.(life := L.Apply(s.life, L.Work(P.Finish(w))), world := O.Apply(s.world, O.Call(task, result)),
         results := s.results[task := result])
    case Destruct => s.(closing := true)
    case Clear => s.(cleared := s.cleared + 1, world := O.Apply(s.world, O.Destroy(s.life.pool.queue[s.cleared])))
  }

  function Run(s: State, steps: seq<Step>): State
    decreases |steps|
  {
    if steps == [] then s else Run(if Enabled(s, steps[0]) then Apply(s, steps[0]) else s, steps[1..])
  }

  // One task

  /** Only the slot of the task still mentions its state. */
  predicate Alone(w: O.World, task: nat, id: nat) {
    forall k | 0 <= k < |w.owners| && O.Mentions(w.owners[k], id) :: k == task
  }

  /** A posted task whose function object is in place or `gone`, and was run or not. */
  predicate TaskOk(w: O.World, task: nat, id: nat, gone: bool, result: Option<Stored>) {
    && task < |w.owners| && id < |w.states| && w.states[id].kind.PackagedTask? && Alone(w, task, id)
    && (if gone then w.owners[task].Vacant? else O.Mentions(w.owners[task], id))
    && match result
       case Some(x) => !x.Empty? && (w.states[id].strong > 0 ==> w.states[id].stored == x)
       case None =>
         if gone then w.states[id].strong > 0 ==> w.states[id].stored == HasError(BrokenPromise)
         else w.states[id].stored.Empty?
  }

  /** Operations on other owners leave a task as it is. */
  lemma OthersLeave(w: O.World, op: O.Op, task: nat, id: nat, gone: bool, result: Option<Stored>)
    requires O.Inv(w) && O.Enabled(w, op) && task !in Slots(op) && TaskOk(w, task, id, gone, result)
    ensures TaskOk(O.Apply(w, op), task, id, gone, result)
  {
    assert O.StOk(w, id);
    var w' := O.Apply(w, op);
    forall k | 0 <= k < |w'.owners| && O.Mentions(w'.owners[k], id) ensures k == task {
      assert forall o | o in Slots(op) :: o < |w.owners| ==> !O.Mentions(w.owners[o], id);
    }
  }

  /** Running a task stores what it produced, if anybody can still see it. */
  lemma CallDoes(w: O.World, task: nat, id: nat, x: Stored)
    requires O.Inv(w) && O.Enabled(w, O.Call(task, x)) && TaskOk(w, task, id, false, None)
    ensures TaskOk(O.Apply(w, O.Call(task, x)), task, id, false, Some(x))
  {
    assert O.StOk(w, id);
  }

  /** Destroying a task that was not run breaks its promise. */
  lemma DestroyDoes(w: O.World, task: nat, id: nat, result: Option<Stored>)
    requires O.Inv(w) && O.Enabled(w, O.Destroy(task)) && TaskOk(w, task, id, false, result)
    ensures TaskOk(O.Apply(w, O.Destroy(task)), task, id, true, result)
  {
    assert O.StOk(w, id);
    var w' := O.Apply(w, O.Destroy(task));
    forall k | 0 <= k < |w'.owners| && O.Mentions(w'.owners[k], id) ensures k == task {
    }
  }

  // All posted tasks

  predicate Gone(s: State, p: nat) {
    p in s.life.pool.dropped || (s.closing && s.life.pool.taken <= p < s.life.pool.taken + s.cleared)
  }

  function Result(s: State, task: nat): Option<Stored> {
    if task in s.results then Some(s.results[task]) else None
  }

  predicate AcceptedOk(s: State, p: nat)
    requires p < |s.life.pool.accepted|
  {
    var task := s.life.pool.accepted[p];
    && task in s.ids && (task in s.results <==> p in s.life.pool.finished)
    && TaskOk(s.world, task, s.ids[task], Gone(s, p), Result(s, task))
  }

  predicate RefusedOk(s: State, q: nat)
    requires q < |s.life.pool.refused|
  {
    var task := s.life.pool.refused[q];
    task in s.ids && task !in s.results && TaskOk(s.world, task, s.ids[task], true, None)
  }

  predicate Distinct(s: State) {
    && (forall p, q | 0 <= p < q < |s.life.pool.accepted| :: s.life.pool.accepted[p] != s.life.pool.accepted[q])
    && forall p, q | 0 <= p < |s.life.pool.accepted| && 0 <= q < |s.life.pool.refused| ::
         s.life.pool.accepted[p] != s.life.pool.refused[q]
  }

  ghost predicate Inv(s: State) {
    && L.Inv(s.life) && O.Inv(s.world) && Distinct(s) && s.results.Keys <= s.ids.Keys
    && (forall t | t in s.ids :: t in s.life.pool.accepted || t in s.life.pool.refused)
    && (forall p | 0 <= p < |s.life.pool.accepted| :: AcceptedOk(s, p))
    && (forall q | 0 <= q < |s.life.pool.refused| :: RefusedOk(s, q))
    && (s.closing ==> L.DestructorPasses(s.life) && s.cleared <= |s.life.pool.queue|)
    && (!s.closing ==> s.cleared == 0)
  }

  lemma UserInv(s: State, op: O.Op)
    requires Inv(s) && Enabled(s, User(op))
    ensures Inv(Apply(s, User(op)))
  {
    var s' := Apply(s, User(op));
    O.StepInv(s.world, op);
    forall p | 0 <= p < |s.life.pool.accepted| ensures AcceptedOk(s', p) {
      assert AcceptedOk(s, p);
      var task := s.life.pool.accepted[p];
      OthersLeave(s.world, op, task, s.ids[task], Gone(s, p), Result(s, task));
    }
    forall q | 0 <= q < |s.life.pool.refused| ensures RefusedOk(s', q) {
      assert RefusedOk(s, q);
      OthersLeave(s.world, op, s.life.pool.refused[q], s.ids[s.life.pool.refused[q]], true, None);
    }
  }

  lemma Fresh(s: State, task: nat)
    requires Inv(s) && task !in s.ids
    ensures task !in s.results && task !in s.life.pool.accepted && task !in s.life.pool.refused
  {
    forall p | 0 <= p < |s.life.pool.accepted| ensures s.life.pool.accepted[p] != task {
      assert AcceptedOk(s, p);
    }
    forall q | 0 <= q < |s.life.pool.refused| ensures s.life.pool.refused[q] != task {
      assert RefusedOk(s, q);
    }
  }

  /** An accepted task waits in the queue untouched. */
  lemma AcceptTasks(s: State, task: nat, target: nat)
    requires Inv(s) && Enabled(s, Post(task, target)) && !s.life.pool.closed
    ensures var s' := Apply(s, Post(task, target)); forall p | 0 <= p < |s'.life.pool.accepted| :: AcceptedOk(s', p)
    ensures var s' := Apply(s, Post(task, target)); forall q | 0 <= q < |s'.life.pool.refused| :: RefusedOk(s', q)
  {
    var s', id := Apply(s, Post(task, target)), s.world.owners[task].id;
    assert O.StOk(s.world, id);
    Fresh(s, task);
    forall p | 0 <= p < |s'.life.pool.accepted| ensures AcceptedOk(s', p) {
      if p < |s.life.pool.accepted| {
        assert AcceptedOk(s, p);
      }
    }
    forall q | 0 <= q < |s'.life.pool.refused| ensures RefusedOk(s', q) {
      assert RefusedOk(s, q);
    }
  }

  lemma AcceptInv(s: State, task: nat, target: nat)
    requires Inv(s) && Enabled(s, Post(task, target)) && !s.life.pool.closed
    ensures Inv(Apply(s, Post(task, target)))
  {
    L.StepInv(s.life, L.Work(P.Post(task, target)));
    Fresh(s, task);
    AcceptTasks(s, task, target);
  }

  /** A refused task is destroyed with the parameter of push. */
  lemma RefuseTasks(s: State, task: nat, target: nat)
    requires Inv(s) && Enabled(s, Post(task, target)) && s.life.pool.closed
    ensures var s' := Apply(s, Post(task, target)); forall p | 0 <= p < |s'.life.pool.accepted| :: AcceptedOk(s', p)
    ensures var s' := Apply(s, Post(task, target)); forall q | 0 <= q < |s'.life.pool.refused| :: RefusedOk(s', q)
  {
    var s', id := Apply(s, Post(task, target)), s.world.owners[task].id;
    assert O.StOk(s.world, id);
    DestroyDoes(s.world, task, id, None);
    Fresh(s, task);
    forall p | 0 <= p < |s'.life.pool.accepted| ensures AcceptedOk(s', p) {
      assert AcceptedOk(s, p);
      var other := s.life.pool.accepted[p];
      OthersLeave(s.world, O.Destroy(task), other, s.ids[other], Gone(s, p), Result(s, other));
    }
    forall q | 0 <= q < |s'.life.pool.refused| ensures RefusedOk(s', q) {
      if q < |s.life.pool.refused| {
        assert RefusedOk(s, q);
        OthersLeave(s.world, O.Destroy(task), s.life.pool.refused[q], s.ids[s.life.pool.refused[q]], true, None);
      }
    }
  }

  lemma RefuseInv(s: State, task: nat, target: nat)
    requires Inv(s) && Enabled(s, Post(task, target)) && s.life.pool.closed
    ensures Inv(Apply(s, Post(task, target)))
  {
    L.StepInv(s.life, L.Work(P.Post(task, target)));
    O.StepInv(s.world, O.Destroy(task));
    Fresh(s, task);
    RefuseTasks(s, task, target);
  }

  /** A step that changes the function object of position p alone. */
  lemma OneTask(s: State, s': State, op: O.Op, p: nat)
    requires Inv(s) && p < |s.life.pool.accepted| && O.Enabled(s.world, op) && s'.world == O.Apply(s.world, op)
    requires Slots(op) == {s.life.pool.accepted[p]}
    requires s'.life.pool.accepted == s.life.pool.accepted && s'.life.pool.refused == s.life.pool.refused && s'.ids == s.ids
    requires forall q | 0 <= q < |s.life.pool.accepted| && q != p ::
               (Gone(s', q) <==> Gone(s, q)) && (q in s'.life.pool.finished <==> q in s.life.pool.finished)
    requires forall t | t != s.life.pool.accepted[p] :: Result(s', t) == Result(s, t)
    ensures O.Inv(s'.world) && Distinct(s')
    ensures forall q | 0 <= q < |s.life.pool.accepted| && q != p :: AcceptedOk(s', q)
    ensures forall q | 0 <= q < |s.life.pool.refused| :: RefusedOk(s', q)
  {
    O.StepInv(s.world, op);
    forall q | 0 <= q < |s.life.pool.accepted| && q != p ensures AcceptedOk(s', q) {
      var other := s.life.pool.accepted[q];
      assert AcceptedOk(s, q) && other != s.life.pool.accepted[p] && Result(s', other) == Result(s, other);
      OthersLeave(s.world, op, other, s.ids[other], Gone(s, q), Result(s, other));
    }
    forall q | 0 <= q < |s.life.pool.refused| ensures RefusedOk(s', q) {
      var other := s.life.pool.refused[q];
      assert RefusedOk(s, q) && other != s.life.pool.accepted[p] && Result(s', other) == Result(s, other);
      OthersLeave(s.world, op, other, s.ids[other], true, None);
    }
  }

  lemma FinishInv(s: State, w: nat, x: Stored)
    requires Inv(s) && Enabled(s, Finish(w, x))
    ensures Inv(Apply(s, Finish(w, x)))
  {
    var s', p := Apply(s, Finish(w, x)), s.life.pool.workers[w].hand.value;
    var task := s.life.pool.accepted[p];
    L.StepInv(s.life, L.Work(P.Finish(w)));
    assert P.WorkerOk(s.life.pool, w) && AcceptedOk(s, p);
    CallDoes(s.world, task, s.ids[task], x);
    OneTask(s, s', O.Call(task, x), p);
    assert AcceptedOk(s', p);
  }

  lemma DiscardsMeans(s: State, step: L.Step)
    requires Inv(s) && Enabled(s, Worker(step))
    ensures var pool' := L.Apply(s.life, step).pool;
            && pool'.dropped == s.life.pool.dropped + P.Opened(Discards(s.life.pool, step))
            && pool'.accepted == s.life.pool.accepted && pool'.refused == s.life.pool.refused
            && pool'.finished == s.life.pool.finished
    ensures Discards(s.life.pool, step).Some? ==>
              var p := Discards(s.life.pool, step).value; p < |s.life.pool.accepted| && !Gone(s, p)
  {
    if Discards(s.life.pool, step).Some? {
      assert P.WorkerOk(s.life.pool, step.p.w);
    }
  }

  lemma WorkerInv(s: State, step: L.Step)
    requires Inv(s) && Enabled(s, Worker(step))
    ensures Inv(Apply(s, Worker(step)))
  {
    var s', gone := Apply(s, Worker(step)), Discards(s.life.pool, step);
    L.StepInv(s.life, step);
    DiscardsMeans(s, step);
    if gone.Some? {
      var task := s.life.pool.accepted[gone.value];
      assert AcceptedOk(s, gone.value);
      DestroyDoes(s.world, task, s.ids[task], Result(s, task));
      OneTask(s, s', O.Destroy(task), gone.value);
      assert AcceptedOk(s', gone.value);
    } else {
      forall p | 0 <= p < |s'.life.pool.accepted| ensures AcceptedOk(s', p) {
        assert AcceptedOk(s, p);
      }
      forall q | 0 <= q < |s'.life.pool.refused| ensures RefusedOk(s', q) {
        assert RefusedOk(s, q);
      }
    }
  }

  lemma ClearInv(s: State)
    requires Inv(s) && Enabled(s, Clear)
    ensures Inv(Apply(s, Clear))
  {
    var s', p := Apply(s, Clear), s.life.pool.taken + s.cleared;
    var task := s.life.pool.accepted[p];
    assert AcceptedOk(s, p) && s.life.pool.queue[s.cleared] == task;
    assert !Gone(s, p);
    DestroyDoes(s.world, task, s.ids[task], Result(s, task));
    OneTask(s, s', O.Destroy(task), p);
    assert AcceptedOk(s', p);
  }

  lemma StepInv(s: State, step: Step)
    requires Inv(s) && Enabled(s, step)
    ensures Inv(Apply(s, step))
  {
    match step
    case User(op) => UserInv(s, op);
    case Post(task, target) => if s.life.pool.closed { RefuseInv(s, task, target); } else { AcceptInv(s, task, target); }
    case Worker(step) => WorkerInv(s, step);
    case Finish(w, result) => FinishInv(s, w, result);
    case Clear => ClearInv(s);
    case Destruct =>
      var s' := Apply(s, step);
      forall p | 0 <= p < |s'.life.pool.accepted| ensures AcceptedOk(s', p) {
        assert AcceptedOk(s, p);
      }
      forall q | 0 <= q < |s'.life.pool.refused| ensures RefusedOk(s', q) {
        assert RefusedOk(s, q);
      }
  }

  lemma {:induction false} RunInv(s: State, steps: seq<Step>)
    requires Inv(s)
    ensures Inv(Run(s, steps))
    decreases |steps|
  {
    if steps != [] {
      if Enabled(s, steps[0]) {
        StepInv(s, steps[0]);
        RunInv(Apply(s, steps[0]), steps[1..]);
      } else {
        RunInv(s, steps[1..]);
      }
    }
  }

  // What a task was posted with and what it produced

  lemma KeptStep(s: State, step: Step, task: nat)
    requires Inv(s) && Enabled(s, step) && task in s.ids
    ensures var s' := Apply(s, step); task in s'.ids && s'.ids[task] == s.ids[task]
    ensures task in s.results ==> task in Apply(s, step).results && Apply(s, step).results[task] == s.results[task]
  {
    if step.Finish? {
      var p := s.life.pool.workers[step.w].hand.value;
      assert P.WorkerOk(s.life.pool, step.w) && AcceptedOk(s, p);
    }
  }

  lemma {:induction false} KeptRun(s: State, steps: seq<Step>, task: nat)
    requires Inv(s) && task in s.ids
    ensures var t := Run(s, steps); task in t.ids && t.ids[task] == s.ids[task]
    ensures task in s.results ==> task in Run(s, steps).results && Run(s, steps).results[task] == s.results[task]
    decreases |steps|
  {
    if steps != [] {
      if Enabled(s, steps[0]) {
        StepInv(s, steps[0]);
        KeptStep(s, steps[0], task);
        KeptRun(Apply(s, steps[0]), steps[1..], task);
      } else {
        KeptRun(s, steps[1..], task);
      }
    }
  }

  /** A packaged task that was not called or posted can be posted as long as the pool exists and no
      worker is stuck. */
  lemma MayPost(own: nat, posts: set<nat>, before: seq<Step>, task: nat) returns (target: nat)
    requires var s := Run(Start(own, posts), before);
             && !s.closing && !P.Locked(s.life.pool) && task !in s.ids
             && task < |s.world.owners| && !s.world.owners[task].Vacant?
             && s.world.owners[task].id < |s.world.states|
             && s.world.states[s.world.owners[task].id].kind.PackagedTask?
             && s.world.states[s.world.owners[task].id].stored.Empty?
    ensures Enabled(Run(Start(own, posts), before), Post(task, target))
  {
    var s := Run(Start(own, posts), before);
    StartInv(own, posts);
    RunInv(Start(own, posts), before);
    target := P.PostTarget(s.life.pool, task);
    assert s.world.owners[task] in s.world.owners && O.StOk(s.world, s.world.owners[task].id);
  }

  /** A posted task is known by the state of its packaged_task ever after. */
  lemma PostRecords(own: nat, posts: set<nat>, before: seq<Step>, task: nat, target: nat, after: seq<Step>)
    requires Enabled(Run(Start(own, posts), before), Post(task, target))
    ensures var s := Run(Start(own, posts), before); var t := Run(Apply(s, Post(task, target)), after);
            !s.world.owners[task].Vacant? && task in t.ids && t.ids[task] == s.world.owners[task].id
  {
    var s := Run(Start(own, posts), before);
    StartInv(own, posts);
    RunInv(Start(own, posts), before);
    StepInv(s, Post(task, target));
    KeptRun(Apply(s, Post(task, target)), after, task);
  }

  /** The result on record for a task is what its function produced in the one run of it. */
  lemma ResultIsWhatRan(own: nat, posts: set<nat>, before: seq<Step>, w: nat, x: Stored, after: seq<Step>)
    requires Enabled(Run(Start(own, posts), before), Finish(w, x))
    ensures var s := Run(Start(own, posts), before); var t := Run(Apply(s, Finish(w, x)), after);
            var task := s.life.pool.accepted[s.life.pool.workers[w].hand.value];
            task !in s.results && task in t.results && t.results[task] == x
  {
    var s := Run(Start(own, posts), before);
    StartInv(own, posts);
    RunInv(Start(own, posts), before);
    StepInv(s, Finish(w, x));
    var p := s.life.pool.workers[w].hand.value;
    assert P.WorkerOk(s.life.pool, w) && AcceptedOk(s, p);
    KeptRun(Apply(s, Finish(w, x)), after, s.life.pool.accepted[p]);
  }

  /** After the pool is destroyed, when its guests if any came in time and it had a thread to
      join: a future still held on a posted task is ready with what the task produced if it was
      run, with broken_promise if it was left in the queue or refused, or it delegates to an
      inner future that is not ready yet. The tasks that were run are a prefix of the accepted
      ones. */
  lemma HeldFuturesSettle(own: nat, posts: set<nat>, steps: seq<Step>, task: nat)
    requires var s := Run(Start(own, posts), steps);
             L.Prudent(s.life) && s.closing && s.cleared == |s.life.pool.queue| && task in s.ids
    ensures var s := Run(Start(own, posts), steps);
            s.ids[task] < |s.world.states| && |s.world.handles| == |s.world.states|
    ensures var s := Run(Start(own, posts), steps); var id := s.ids[task]; var st := s.world.states[id];
            s.world.handles[id] > 0 ==>
              && st.stored == (if task in s.results then s.results[task] else HasError(BrokenPromise))
              && (st.executed || st.stored.HasInner?)
    ensures var s := Run(Start(own, posts), steps);
            task in s.results <==>
              exists p: nat :: p < s.life.pool.taken <= |s.life.pool.accepted| && s.life.pool.accepted[p] == task
  {
    var s := Run(Start(own, posts), steps);
    StartInv(own, posts);
    RunInv(Start(own, posts), steps);
    L.NobodyInside(s.life);
    P.HandsEmpty(s.life.pool);
    if task in s.life.pool.accepted {
      var p :| 0 <= p < |s.life.pool.accepted| && s.life.pool.accepted[p] == task;
      assert AcceptedOk(s, p) && Gone(s, p);
    } else {
      var q :| 0 <= q < |s.life.pool.refused| && s.life.pool.refused[q] == task;
      assert RefusedOk(s, q);
    }
    assert O.StOk(s.world, s.ids[task]);
  }

  /** Without that prudence: once the queue is cleared, a held future of an accepted task shows
      nothing if and only if some thread is running the task at that moment, or stuck before it. */
  lemma UnsettledExactly(own: nat, posts: set<nat>, steps: seq<Step>, p: nat)
    requires var s := Run(Start(own, posts), steps);
             s.closing && s.cleared == |s.life.pool.queue| && p < |s.life.pool.accepted|
    ensures var s := Run(Start(own, posts), steps); var task := s.life.pool.accepted[p];
            && task in s.ids && s.ids[task] < |s.world.states| && |s.world.handles| == |s.world.states|
            && (s.world.handles[s.ids[task]] > 0 ==>
                  (s.world.states[s.ids[task]].stored.Empty? <==>
                   exists w: nat :: P.Unfinished(s.life.pool, w, p)))
  {
    var s := Run(Start(own, posts), steps);
    StartInv(own, posts);
    RunInv(Start(own, posts), steps);
    assert AcceptedOk(s, p) && O.StOk(s.world, s.ids[s.life.pool.accepted[p]]);
    if p < s.life.pool.taken {
      assert P.TaskOk(s.life.pool, p);
      if p !in s.life.pool.dropped {
        var w: nat :| P.InHand(s.life.pool, w, p);
        assert P.WorkerOk(s.life.pool, w);
        assert p !in s.life.pool.finished ==> P.Unfinished(s.life.pool, w, p);
      }
    }
    forall w: nat | P.Unfinished(s.life.pool, w, p)
      ensures p !in s.life.pool.finished && p !in s.life.pool.dropped && p < s.life.pool.taken
    {
      assert P.WorkerOk(s.life.pool, w);
    }
  }

  lemma StartInv(own: nat, posts: set<nat>)
    ensures Inv(Start(own, posts))
  {
    L.InitialInv(own, posts);
  }

  /** The steps of the pool are never held up by the owners: a worker can always discard what
      it holds and run what it took, and the queue can always be cleared. */
  lemma NeverBlocked(own: nat, posts: set<nat>, steps: seq<Step>, step: L.Step, x: Stored)
    requires var s := Run(Start(own, posts), steps);
             !s.closing && L.Enabled(s.life, step) && !x.Empty? && !(step.Work? && step.p.Post?)
    ensures Enabled(Run(Start(own, posts), steps),
                    if step.Work? && step.p.Finish? then Finish(step.p.w, x) else Worker(step))
  {
    var s := Run(Start(own, posts), steps);
    StartInv(own, posts);
    RunInv(Start(own, posts), steps);
    if step.Work? && step.p.Finish? {
      assert P.WorkerOk(s.life.pool, step.p.w) && AcceptedOk(s, s.life.pool.workers[step.p.w].hand.value);
      Fitting(s, s.life.pool.workers[step.p.w].hand.value);
    } else if Discards(s.life.pool, step).Some? {
      assert P.WorkerOk(s.life.pool, step.p.w) && AcceptedOk(s, Discards(s.life.pool, step).value);
      Fitting(s, Discards(s.life.pool, step).value);
    }
  }

  lemma ClearNeverBlocked(own: nat, posts: set<nat>, steps: seq<Step>)
    requires var s := Run(Start(own, posts), steps); s.closing && s.cleared < |s.life.pool.queue|
    ensures Enabled(Run(Start(own, posts), steps), Clear)
  {
    StartInv(own, posts);
    RunInv(Start(own, posts), steps);
    ClearFits(Run(Start(own, posts), steps));
  }

  lemma ClearFits(s: State)
    requires Inv(s) && s.closing && s.cleared < |s.life.pool.queue|
    ensures Enabled(s, Clear)
  {
    var p := s.life.pool.taken + s.cleared;
    assert s.life.pool.accepted[p] == s.life.pool.queue[s.cleared];
    assert p !in s.life.pool.dropped;
    Fitting(s, p);
  }

  lemma Fitting(s: State, p: nat)
    requires Inv(s) && p < |s.life.pool.accepted| && !Gone(s, p)
    ensures Ready(s.world, s.life.pool.accepted[p])
    ensures forall x: Stored | !x.Empty? :: O.Enabled(s.world, O.Call(s.life.pool.accepted[p], x))
  {
    var task := s.life.pool.accepted[p];
    assert AcceptedOk(s, p) && O.StOk(s.world, s.ids[task]);
    assert s.world.owners[task] in s.world.owners;
  }
}
