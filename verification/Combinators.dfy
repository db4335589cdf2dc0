/** `when_all` and `when_any` as one state machine: inputs become ready, and are destroyed,
    while `make` is still subscribing, and the same source may appear among the inputs more
    than once.

    Part i < n of a combinator is the subscription to input i; part n is what `make` does
    after its loop. Every callback owns a strong reference to the combinator from the push
    until it has been run or destroyed, and the combinator owns its inputs. */
module Combinators {
  import opened Outcomes

  datatype Kind = All | Any

  /** `sources[i]` is the shared state input i refers to. */
  datatype Config = Config(kind: Kind, sources: seq<nat>, states: nat)

  /** A part before it is subscribed, on a stack, in flight towards `notify`, after winning
      the test-and-set, about to execute the continuations, and over. */
  datatype Part = Waiting | Queued | Flying | Won | Firing | Done

  /** `remains` is operations_remains_, `flag` is ready_flag_, `executions` counts consumed
      executions of the own stack and `winner` is the part that caused it. `strong` counts
      references to the combinator, `handles` the futures among them, `owns` tells whether
      the inputs still belong to it, and `held` counts the other references to each source.
      `next` and `inline` are the position of `make` in its loop. */
  datatype State = State(parts: seq<Part>, next: nat, inline: bool, ready: seq<bool>, held: seq<nat>,
                         remains: int, flag: bool, index: nat, executions: nat, winner: Option<nat>,
                         strong: nat, handles: nat, owns: bool)

  datatype Step =
    | Complete(j: nat)
    | Subscribe
    | Resume
    | Finish
    | Take(i: nat)
    | Discard(i: nat)
    | Notify(i: nat)
    | WriteIndex(i: nat)
    | Execute(i: nat)
    | CopyHandle
    | DropHandle
    | Get
    | Hold(j: nat)
    | Unhold(j: nat)

  /** static_cast<std::size_t>(-1) */
  const NO_INDEX: nat := 0xFFFF_FFFF_FFFF_FFFF

  predicate WellFormed(c: Config) { forall i | 0 <= i < |c.sources| :: c.sources[i] < c.states }

  function Initial(c: Config): State {
    var n := |c.sources|;
    State(seq(n + 1, _ => Waiting), 0, false, seq(c.states, _ => false), seq(c.states, _ => 1),
          n + 1, false, NO_INDEX, 0, None, 1, 0, true)
  }

  predicate Shaped(c: Config, s: State) {
    && WellFormed(c) && |s.parts| == |c.sources| + 1 && |s.ready| == |s.held| == c.states && s.next <= |c.sources|
  }

  /** A source lives through other references or through the combinator. */
  predicate Living(c: Config, s: State, j: nat)
    requires Shaped(c, s) && j < c.states
  {
    s.held[j] > 0 || (s.strong > 0 && s.owns && j in c.sources)
  }

  predicate Enabled(c: Config, s: State, step: Step) {
    && Shaped(c, s)
    && var n := |c.sources|;
       match step
       case Complete(j) => j < c.states && !s.ready[j] && Living(c, s, j)
       case Subscribe => !s.inline && s.next < n
       case Resume => s.inline && s.next > 0 && s.parts[s.next - 1].Done?
       case Finish => !s.inline && s.next == n && s.parts[n].Waiting?
       case Take(i) => i < n && s.parts[i].Queued? && s.ready[c.sources[i]]
       case Discard(i) => i < n && s.parts[i].Queued? && !s.ready[c.sources[i]] && !Living(c, s, c.sources[i])
       case Notify(i) => i <= n && s.parts[i].Flying?
       case WriteIndex(i) => i <= n && s.parts[i].Won?
       case Execute(i) => i <= n && s.parts[i].Firing?
       case CopyHandle => s.handles > 0
       case DropHandle => s.handles > 0
       case Get => s.handles > 0 && s.executions > 0 && s.owns
       case Hold(j) => j < c.states && Living(c, s, j)
       case Unhold(j) => j < c.states && s.held[j] > 0
  }

  /** The steps the running threads take on their own. */
  predicate Internal(step: Step) {
    step.Subscribe? || step.Resume? || step.Finish? || step.Take? || step.Discard? || step.Notify?
    || step.WriteIndex? || step.Execute?
  }

  function Dec(n: nat): nat { if n == 0 then 0 else n - 1 }

  /** A callback is over and gives back its reference; when it is `make` that is over, its
      reference becomes the returned future. */
  function Ended(c: Config, s: State, i: nat): State
    requires i < |s.parts|
  {
    var s' := s.(parts := s.parts[i := Done]);
    if i == |c.sources| then s'.(handles := s.handles + 1) else s'.(strong := Dec(s.strong))
  }

  /** `notify` of either kind up to its return or to the execution it has to perform. For
      `when_any` the last lines of `make` are the case i == n. */
  function Notified(c: Config, s: State, i: nat): State
    requires i < |s.parts|
  {
    match c.kind
    case All =>
      var s' := s.(remains := s.remains - 1);
      if s'.remains != 0 then Ended(c, s', i) else s'.(parts := s.parts[i := Firing], winner := Some(i))
    case Any =>
      if i == |c.sources| then
        if i == 0 then s.(parts := s.parts[i := Firing], winner := Some(i)) else Ended(c, s, i)
      else if s.flag then Ended(c, s, i)
      else s.(flag := true, parts := s.parts[i := Won], winner := Some(i))
  }

  function Apply(c: Config, s: State, step: Step): State
    requires Enabled(c, s, step)
  {
    match step
    case Complete(j) => s.(ready := s.ready[j := true])
    case Subscribe =>
      var now := s.ready[c.sources[s.next]];
      s.(parts := s.parts[s.next := if now then Flying else Queued], next := s.next + 1, inline := now,
         strong := s.strong + 1)
    case Resume => s.(inline := false)
    case Finish => s.(parts := s.parts[s.next := Flying])
    case Take(i) => s.(parts := s.parts[i := Flying])
    case Discard(i) => Ended(c, s, i)
    case Notify(i) => Notified(c, s, i)
    case WriteIndex(i) => s.(index := i, parts := s.parts[i := Firing])
    case Execute(i) => Ended(c, s, i).(executions := s.executions + 1)
    case CopyHandle => s.(handles := s.handles + 1, strong := s.strong + 1)
    case DropHandle => s.(handles := s.handles - 1, strong := Dec(s.strong))
    case Get =>
      s.(handles := s.handles - 1, strong := Dec(s.strong), owns := false,
         held := seq(|s.held|, j requires 0 <= j < |s.held| => s.held[j] + if j in c.sources then 1 else 0))
    case Hold(j) => s.(held := s.held[j := s.held[j] + 1])
    case Unhold(j) => s.(held := s.held[j := s.held[j] - 1])
  }

  function Run(c: Config, s: State, steps: seq<Step>): State
    decreases |steps|
  {
    if steps == [] then s
    else Run(c, if Enabled(c, s, steps[0]) then Apply(c, s, steps[0]) else s, steps[1..])
  }

  // Counting parts

  predicate Unnotified(p: Part) { p.Waiting? || p.Queued? || p.Flying? }

  /** Whether part i owns a reference; `make` owns one from the start. */
  predicate Holds(p: Part, last: bool) { !p.Done? && (last || !p.Waiting?) }

  function Pending(parts: seq<Part>): nat {
    if parts == [] then 0 else Pending(parts[..|parts| - 1]) + if Unnotified(parts[|parts| - 1]) then 1 else 0
  }

  function Holders(parts: seq<Part>, n: nat): nat {
    if parts == [] then 0
    else
      var k := |parts| - 1;
      Holders(parts[..k], n) + if Holds(parts[k], k == n) then 1 else 0
  }

  /** How far the parts still have to go. */
  function Distance(p: Part): nat {
    match p case Waiting => 5 case Queued => 4 case Flying => 3 case Won => 2 case Firing => 1 case Done => 0
  }

  function Distances(parts: seq<Part>): nat {
    if parts == [] then 0 else Distances(parts[..|parts| - 1]) + Distance(parts[|parts| - 1])
  }

  lemma {:induction false} Replace(parts: seq<Part>, i: nat, p: Part, n: nat)
    requires i < |parts|
    ensures Pending(parts[i := p]) - (if Unnotified(p) then 1 else 0)
            == Pending(parts) - (if Unnotified(parts[i]) then 1 else 0)
    ensures Holders(parts[i := p], n) - (if Holds(p, i == n) then 1 else 0)
            == Holders(parts, n) - (if Holds(parts[i], i == n) then 1 else 0)
    ensures Distances(parts[i := p]) - Distance(p) == Distances(parts) - Distance(parts[i])
  {
    var k := |parts| - 1;
    if i == k {
      assert parts[i := p][..k] == parts[..k];
    } else {
      Replace(parts[..k], i, p, n);
      assert parts[i := p][..k] == parts[..k][i := p];
    }
  }

  /** Something counted is there, and what is there is counted. */
  lemma {:induction false} Counted(parts: seq<Part>, n: nat)
    ensures Pending(parts) == 0 <==> forall i | 0 <= i < |parts| :: !Unnotified(parts[i])
    ensures Holders(parts, n) == 0 <==> forall i | 0 <= i < |parts| :: !Holds(parts[i], i == n)
  {
    if parts != [] {
      var k := |parts| - 1;
      Counted(parts[..k], n);
      assert forall i | 0 <= i < k :: parts[..k][i] == parts[i];
    }
  }

  lemma {:induction false} AllWaiting(parts: seq<Part>, n: nat)
    requires forall i | 0 <= i < |parts| :: parts[i].Waiting?
    ensures Pending(parts) == |parts|
    ensures Holders(parts, n) == if n < |parts| then 1 else 0
  {
    if parts != [] {
      AllWaiting(parts[..|parts| - 1], n);
    }
  }

  // The invariant

  predicate PartOk(c: Config, s: State, i: nat)
    requires Shaped(c, s) && i <= |c.sources|
  {
    var p, n := s.parts[i], |c.sources|;
    && (s.winner != Some(i) ==> !p.Won? && !p.Firing?)
    && (if i == n then
          !p.Queued? && !p.Won? && (s.next < n || s.inline ==> p.Waiting?)
        else
          && (p.Waiting? <==> i >= s.next)
          && (p.Flying? || p.Won? || p.Firing? ==> s.ready[c.sources[i]])
          && (p.Done? ==> s.ready[c.sources[i]] || !Living(c, s, c.sources[i]))
          && (p.Done? ==> if c.kind.Any? then s.flag else s.ready[c.sources[i]]))
  }

  /** Who executes the continuations, and whether that has happened. */
  predicate WinnerOk(c: Config, s: State)
    requires Shaped(c, s)
  {
    match s.winner
    case None => s.executions == 0
    case Some(w) =>
      && w <= |c.sources|
      && (s.parts[w].Won? || s.parts[w].Firing? || s.parts[w].Done?)
      && s.executions == (if s.parts[w].Done? then 1 else 0)
      && (w < |c.sources| ==> s.ready[c.sources[w]])
  }

  predicate AllOk(c: Config, s: State)
    requires Shaped(c, s)
  {
    && s.remains == Pending(s.parts)
    && (s.remains == 0 <==> s.winner.Some?)
    && (s.winner.Some? ==> s.winner.value < |s.parts| && !s.parts[s.winner.value].Won?)
  }

  predicate AnyOk(c: Config, s: State)
    requires Shaped(c, s)
  {
    var n := |c.sources|;
    if n == 0 then
      !s.flag && s.index == NO_INDEX && (s.winner.None? <==> s.parts[0].Waiting? || s.parts[0].Flying?)
    else
      && (s.flag <==> s.winner.Some?)
      && (s.flag ==> s.winner.value < n)
      && s.index == (if s.flag && !s.parts[s.winner.value].Won? then s.winner.value else NO_INDEX)
  }

  predicate Inv(c: Config, s: State) {
    && Shaped(c, s)
    && s.strong == s.handles + Holders(s.parts, |c.sources|)
    && (s.inline ==> s.next > 0 && !s.parts[s.next - 1].Waiting? && !s.parts[s.next - 1].Queued?)
    && (s.handles > 0 ==> s.parts[|c.sources|].Done?)
    && (!s.owns ==> s.executions > 0)
    && WinnerOk(c, s)
    && (if c.kind.All? then AllOk(c, s) else AnyOk(c, s))
    && forall i | 0 <= i <= |c.sources| :: PartOk(c, s, i)
  }

  lemma InitialInv(c: Config)
    requires WellFormed(c)
    ensures Inv(c, Initial(c))
  {
    var s := Initial(c);
    AllWaiting(s.parts, |c.sources|);
  }

  /** While a subscription is queued its source is alive unless the result was taken out,
      so a `when_all` callback is never destroyed unrun. */
  lemma QueuedLives(c: Config, s: State, i: nat)
    requires Inv(c, s) && i < |c.sources| && s.parts[i].Queued?
    ensures s.strong > 0
    ensures s.owns ==> Living(c, s, c.sources[i])
    ensures c.kind.All? ==> s.executions == 0 && s.owns
  {
    Counted(s.parts, |c.sources|);
    assert Holds(s.parts[i], i == |c.sources|);
    assert c.sources[i] in c.sources;
  }

  /** The internal steps that move a part, and the part they move. */
  predicate Moves(c: Config, s: State, step: Step, i: nat) {
    Enabled(c, s, step) && Internal(step) && !step.Resume?
    && i == if step.Subscribe? || step.Finish? then s.next else step.i
  }

  /** What concerns the moved part, without the other parts. */
  predicate Local(c: Config, s: State, i: nat) {
    && Shaped(c, s) && i <= |c.sources|
    && s.strong == s.handles + Holders(s.parts, |c.sources|)
    && (s.inline ==> s.next > 0 && !s.parts[s.next - 1].Waiting? && !s.parts[s.next - 1].Queued?)
    && (s.handles > 0 ==> s.parts[|c.sources|].Done?)
    && (!s.owns ==> s.executions > 0)
    && WinnerOk(c, s) && (if c.kind.All? then AllOk(c, s) else AnyOk(c, s))
    && PartOk(c, s, i) && PartOk(c, s, |c.sources|)
  }

  lemma Moved(c: Config, s: State, step: Step, i: nat)
    requires Moves(c, s, step, i)
    ensures i <= |c.sources|
    ensures var s' := Apply(c, s, step);
            && |s'.parts| == |s.parts| && s'.parts == s.parts[i := s'.parts[i]]
            && s'.ready == s.ready && s'.owns == s.owns && s'.held == s.held && Shaped(c, s')
  {
  }

  lemma NotifyNearer(c: Config, s: State, i: nat)
    requires i < |s.parts| && s.parts[i].Flying?
    ensures var s' := Notified(c, s, i);
            |s'.parts| == |s.parts| && Distance(s'.parts[i]) < Distance(s.parts[i]) && s'.inline == s.inline
  {
  }

  lemma Nearer(c: Config, s: State, step: Step, i: nat)
    requires Moves(c, s, step, i) && i <= |c.sources| && PartOk(c, s, i)
    ensures var s' := Apply(c, s, step);
            && |s'.parts| == |s.parts| && Distance(s'.parts[i]) < Distance(s.parts[i])
            && (s'.inline ==> s.inline || Distance(s'.parts[i]) + 1 < Distance(s.parts[i]))
  {
    if step.Notify? {
      NotifyNearer(c, s, i);
    }
  }

  /** The part that moves holds a reference unless `make` holds one for it. */
  lemma Held(c: Config, s: State, step: Step, i: nat)
    requires Local(c, s, i) && Moves(c, s, step, i)
    ensures s.strong > 0
  {
    var n := |c.sources|;
    Counted(s.parts, n);
    assert Holds(s.parts[i], i == n) || Holds(s.parts[n], true);
  }

  lemma RefsStep(c: Config, s: State, step: Step, i: nat)
    requires Local(c, s, i) && Moves(c, s, step, i)
    ensures var s' := Apply(c, s, step); s'.strong == s'.handles + Holders(s'.parts, |c.sources|)
    ensures var s' := Apply(c, s, step);
            forall j | 0 <= j < c.states :: Shaped(c, s') && (Living(c, s', j) ==> Living(c, s, j))
  {
    Moved(c, s, step, i);
    Held(c, s, step, i);
    Replace(s.parts, i, Apply(c, s, step).parts[i], |c.sources|);
  }

  lemma WinnerStep(c: Config, s: State, step: Step, i: nat)
    requires Local(c, s, i) && Moves(c, s, step, i)
    requires step.Discard? ==> c.kind.Any?
    ensures Shaped(c, Apply(c, s, step)) && WinnerOk(c, Apply(c, s, step))
  {
    Moved(c, s, step, i);
    Counted(s.parts, |c.sources|);
  }

  lemma AllStep(c: Config, s: State, step: Step, i: nat)
    requires Local(c, s, i) && Moves(c, s, step, i) && c.kind.All? && !step.Discard?
    ensures Shaped(c, Apply(c, s, step)) && AllOk(c, Apply(c, s, step))
  {
    Moved(c, s, step, i);
    Replace(s.parts, i, Apply(c, s, step).parts[i], |c.sources|);
    Counted(s.parts, |c.sources|);
  }

  lemma AnyStep(c: Config, s: State, step: Step, i: nat)
    requires Local(c, s, i) && Moves(c, s, step, i) && c.kind.Any?
    ensures Shaped(c, Apply(c, s, step)) && AnyOk(c, Apply(c, s, step))
  {
    Moved(c, s, step, i);
  }

  lemma MakeStep(c: Config, s: State, step: Step, i: nat)
    requires Local(c, s, i) && Moves(c, s, step, i)
    requires s.next <= i < |c.sources| ==> s.parts[i].Waiting?
    ensures var s' := Apply(c, s, step);
            && Shaped(c, s')
            && (s'.inline ==> s'.next > 0 && !s'.parts[s'.next - 1].Waiting? && !s'.parts[s'.next - 1].Queued?)
            && (s'.handles > 0 ==> s'.parts[|c.sources|].Done?)
            && (!s'.owns ==> s'.executions > 0)
  {
    Moved(c, s, step, i);
  }

  lemma MoverOk(c: Config, s: State, step: Step, i: nat)
    requires Local(c, s, i) && Moves(c, s, step, i)
    requires step.Discard? ==> c.kind.Any? && s.flag
    ensures Shaped(c, Apply(c, s, step)) && PartOk(c, Apply(c, s, step), i)
  {
    Moved(c, s, step, i);
    Held(c, s, step, i);
  }

  lemma OthersOk(c: Config, s: State, step: Step, i: nat)
    requires Inv(c, s) && Moves(c, s, step, i)
    ensures Shaped(c, Apply(c, s, step)) && i <= |c.sources|
    ensures forall k | 0 <= k <= |c.sources| && k != i :: PartOk(c, Apply(c, s, step), k)
  {
    var s' := Apply(c, s, step);
    assert PartOk(c, s, i) && PartOk(c, s, |c.sources|);
    Moved(c, s, step, i);
    RefsStep(c, s, step, i);
    forall k | 0 <= k <= |c.sources| && k != i ensures PartOk(c, s', k) {
      assert PartOk(c, s, k);
    }
  }

  lemma PartStep(c: Config, s: State, step: Step, i: nat)
    requires Inv(c, s) && Moves(c, s, step, i)
    ensures Inv(c, Apply(c, s, step))
  {
    assert PartOk(c, s, i) && PartOk(c, s, |c.sources|);
    if step.Discard? {
      QueuedLives(c, s, i);
    }
    Moved(c, s, step, i);
    RefsStep(c, s, step, i);
    WinnerStep(c, s, step, i);
    if c.kind.All? {
      AllStep(c, s, step, i);
    } else {
      AnyStep(c, s, step, i);
    }
    MakeStep(c, s, step, i);
    MoverOk(c, s, step, i);
    OthersOk(c, s, step, i);
  }

  /** Dropping references revives nothing; `get` keeps what it moves out alive. */
  lemma OtherOk(c: Config, s: State, step: Step, k: nat)
    requires Enabled(c, s, step) && !(Internal(step) && !step.Resume?) && k <= |c.sources| && PartOk(c, s, k)
    requires s.strong >= s.handles
    ensures Shaped(c, Apply(c, s, step)) && PartOk(c, Apply(c, s, step), k)
  {
  }

  lemma OtherStep(c: Config, s: State, step: Step)
    requires Inv(c, s) && Enabled(c, s, step) && !(Internal(step) && !step.Resume?)
    ensures Inv(c, Apply(c, s, step))
  {
    forall k | 0 <= k <= |c.sources| ensures PartOk(c, Apply(c, s, step), k) {
      OtherOk(c, s, step, k);
    }
  }

  lemma StepInv(c: Config, s: State, step: Step)
    requires Inv(c, s) && Enabled(c, s, step)
    ensures Inv(c, Apply(c, s, step))
  {
    match step
    case Subscribe => PartStep(c, s, step, s.next);
    case Finish => PartStep(c, s, step, s.next);
    case Take(i) => PartStep(c, s, step, i);
    case Discard(i) => PartStep(c, s, step, i);
    case Notify(i) => PartStep(c, s, step, i);
    case WriteIndex(i) => PartStep(c, s, step, i);
    case Execute(i) => PartStep(c, s, step, i);
    case _ => OtherStep(c, s, step);
  }

  lemma {:induction false} RunInv(c: Config, s: State, steps: seq<Step>)
    requires Inv(c, s)
    ensures Inv(c, Run(c, s, steps))
    decreases |steps|
  {
    if steps != [] {
      if Enabled(c, s, steps[0]) {
        StepInv(c, s, steps[0]);
        RunInv(c, Apply(c, s, steps[0]), steps[1..]);
      } else {
        RunInv(c, s, steps[1..]);
      }
    }
  }

  ghost predicate Reachable(c: Config, s: State) {
    WellFormed(c) && exists steps :: s == Run(c, Initial(c), steps)
  }

  lemma ReachableInv(c: Config, s: State)
    requires Reachable(c, s)
    ensures Inv(c, s)
  {
    var steps :| s == Run(c, Initial(c), steps);
    InitialInv(c);
    RunInv(c, Initial(c), steps);
  }

  /** No thread can move on its own any more. */
  ghost predicate AtRest(c: Config, s: State) {
    forall step | Internal(step) :: !Enabled(c, s, step)
  }

  /** Threads left to themselves come to rest whatever the order they are scheduled in. */
  lemma RestIsNear(c: Config, s: State, step: Step)
    requires Inv(c, s) && Enabled(c, s, step) && Internal(step)
    ensures var s' := Apply(c, s, step);
            Distances(s'.parts) + (if s'.inline then 1 else 0) < Distances(s.parts) + (if s.inline then 1 else 0)
  {
    if !step.Resume? {
      var i := if step.Subscribe? || step.Finish? then s.next else step.i;
      assert PartOk(c, s, i) && PartOk(c, s, |c.sources|);
      Moved(c, s, step, i);
      Nearer(c, s, step, i);
      Replace(s.parts, i, Apply(c, s, step).parts[i], |c.sources|);
    }
  }

  /** `make` always gets through its loop, and at rest a part is over unless it sits on the
      stack of a source that is alive and not ready. */
  lemma RestShape(c: Config, s: State)
    requires Inv(c, s) && AtRest(c, s)
    ensures s.parts[|c.sources|].Done? && s.next == |c.sources|
    ensures forall i | 0 <= i < |c.sources| ::
              if s.parts[i].Done? then s.ready[c.sources[i]] || !Living(c, s, c.sources[i])
              else s.parts[i].Queued? && !s.ready[c.sources[i]] && Living(c, s, c.sources[i])
  {
    var n := |c.sources|;
    forall i | 0 <= i <= n
      ensures !s.parts[i].Flying? && !s.parts[i].Won? && !s.parts[i].Firing?
      ensures i < n && s.parts[i].Queued? ==> !s.ready[c.sources[i]] && Living(c, s, c.sources[i])
    {
      assert !Enabled(c, s, Notify(i)) && !Enabled(c, s, WriteIndex(i)) && !Enabled(c, s, Execute(i));
      assert !Enabled(c, s, Take(i)) && !Enabled(c, s, Discard(i));
    }
    assert !Enabled(c, s, Resume) && !Enabled(c, s, Subscribe) && !Enabled(c, s, Finish);
    assert PartOk(c, s, n);
    forall i | 0 <= i < n
      ensures if s.parts[i].Done? then s.ready[c.sources[i]] || !Living(c, s, c.sources[i])
              else s.parts[i].Queued? && !s.ready[c.sources[i]] && Living(c, s, c.sources[i])
    {
      assert PartOk(c, s, i);
    }
  }

  // What steps give and take

  /** What threads do by themselves: only the end of `make` gives a future, and nothing else
      changes hands. */
  lemma InternalGives(c: Config, s: State, step: Step)
    requires Enabled(c, s, step) && Internal(step)
    ensures var s', n := Apply(c, s, step), |c.sources|;
            && s'.ready == s.ready && s'.held == s.held && s'.owns == s.owns && |s'.parts| == n + 1
            && s'.handles == s.handles + if s'.parts[n].Done? && !s.parts[n].Done? then 1 else 0
  {
    if step.Notify? {
      NotifyGives(c, s, step.i);
    }
  }

  lemma NotifyGives(c: Config, s: State, i: nat)
    requires Enabled(c, s, Notify(i))
    ensures var s', n := Notified(c, s, i), |c.sources|;
            && s'.ready == s.ready && s'.held == s.held && s'.owns == s.owns && |s'.parts| == n + 1
            && s'.handles == s.handles + if s'.parts[n].Done? && !s.parts[n].Done? then 1 else 0
  {
  }

  /** A future is made by the end of `make` and by copying; dropping and `get` use one up. */
  lemma HandlesAccount(c: Config, s: State, step: Step)
    requires Enabled(c, s, step)
    ensures var s', n := Apply(c, s, step), |c.sources|;
            && |s'.parts| == n + 1
            && s'.handles == s.handles + (if step.CopyHandle? then 1 else 0) - (if step.DropHandle? || step.Get? then 1 else 0)
                             + if s'.parts[n].Done? && !s.parts[n].Done? then 1 else 0
  {
    if Internal(step) {
      InternalGives(c, s, step);
    }
  }

  /** `make` subscribes to one input after the other; on an input that is ready the callback runs at
      once, before the next one. */
  lemma SubscribeExactly(c: Config, s: State)
    requires Reachable(c, s) && Enabled(c, s, Subscribe)
    ensures var s', i := Apply(c, s, Subscribe), s.next;
            && s.parts[i].Waiting? && s'.parts == s.parts[i := if s.ready[c.sources[i]] then Flying else Queued]
            && s'.next == i + 1 && s'.strong == s.strong + 1 && (s'.inline <==> s.ready[c.sources[i]])
            && (s'.inline ==> !Enabled(c, s', Subscribe) && !Enabled(c, s', Finish) && Enabled(c, s', Notify(i)))
  {
    ReachableInv(c, s);
    assert PartOk(c, s, s.next);
  }

  /** Once the result is ready whoever holds a future can take the inputs out, once. */
  lemma GetOnce(c: Config, s: State)
    requires Reachable(c, s) && s.executions == 1 && s.handles > 0 && s.owns
    ensures Enabled(c, s, Get) && !Enabled(c, Apply(c, s, Get), Get)
  {
    ReachableInv(c, s);
  }

  /** A source becomes ready by completing, and in no other way. `get` moves the inputs out of the
      combinator to the caller, who holds each from then on. */
  lemma SourcesAccount(c: Config, s: State, step: Step, j: nat)
    requires Enabled(c, s, step) && j < c.states
    ensures var s' := Apply(c, s, step);
            && |s'.ready| == |s'.held| == c.states && (s'.owns <==> s.owns && !step.Get?)
            && (s'.ready[j] <==> s.ready[j] || step == Complete(j))
            && s'.held[j] == s.held[j] + (if step == Hold(j) || (step.Get? && j in c.sources) then 1 else 0)
                             - if step == Unhold(j) then 1 else 0
  {
    if Internal(step) {
      InternalGives(c, s, step);
    }
  }

  // when_all

  /** The counter is the number of subscriptions that have not notified plus make's own
      pending notify, so it never wraps; it is zero exactly when the continuations have been
      executed or one thread is about to. */
  lemma CounterExact(c: Config, s: State)
    requires Reachable(c, s) && c.kind.All?
    ensures s.remains == Pending(s.parts) && |s.parts| == |c.sources| + 1
    ensures s.executions <= 1
    ensures s.remains == 0 <==> s.executions == 1 || exists w :: 0 <= w < |s.parts| && s.parts[w].Firing?
    ensures forall i, k | 0 <= i < |s.parts| && 0 <= k < |s.parts| && s.parts[i].Firing? && s.parts[k].Firing? :: i == k
  {
    ReachableInv(c, s);
    forall i | 0 <= i < |s.parts| && s.parts[i].Firing? ensures s.winner == Some(i) {
      assert PartOk(c, s, i);
    }
    if s.remains == 0 {
      var w := s.winner.value;
      assert s.parts[w].Firing? || s.parts[w].Done?;
    }
  }

  lemma EveryPartDone(c: Config, s: State)
    requires Inv(c, s) && c.kind.All? && s.executions > 0
    ensures forall i | 0 <= i <= |c.sources| :: !Unnotified(s.parts[i])
    ensures forall i | 0 <= i < |c.sources| :: s.ready[c.sources[i]]
  {
    Counted(s.parts, |c.sources|);
    forall i | 0 <= i < |c.sources| ensures s.ready[c.sources[i]] {
      assert PartOk(c, s, i);
    }
  }

  /** Never early: once the continuations run, every input is ready and `make` is through. */
  lemma NeverEarly(c: Config, s: State)
    requires Reachable(c, s) && c.kind.All? && s.executions > 0
    ensures |s.parts| == |c.sources| + 1 && |s.ready| == c.states && WellFormed(c)
    ensures forall i | 0 <= i <= |c.sources| :: !Unnotified(s.parts[i])
    ensures forall i | 0 <= i < |c.sources| :: s.ready[c.sources[i]]
  {
    ReachableInv(c, s);
    EveryPartDone(c, s);
  }

  /** Always in the end: at rest the result is ready if and only if every input is. */
  lemma AllReadyIff(c: Config, s: State)
    requires Reachable(c, s) && c.kind.All? && AtRest(c, s)
    ensures |s.ready| == c.states && WellFormed(c)
    ensures s.executions == 1 <==> forall i | 0 <= i < |c.sources| :: s.ready[c.sources[i]]
  {
    ReachableInv(c, s);
    RestShape(c, s);
    if s.executions == 1 {
      EveryPartDone(c, s);
    } else {
      Counted(s.parts, |c.sources|);
      assert s.remains != 0;
    }
  }

  // when_any

  /** One notification wins. Once the result is ready the index is in range and names an
      input that is ready, or there is no input and it is size_t(-1). */
  lemma SingleWinner(c: Config, s: State)
    requires Reachable(c, s) && c.kind.Any?
    ensures |s.parts| == |c.sources| + 1 && |s.ready| == c.states && WellFormed(c)
    ensures s.executions <= 1
    ensures forall i, k | 0 <= i < |s.parts| && 0 <= k < |s.parts| && (s.parts[i].Won? || s.parts[i].Firing?)
                          && (s.parts[k].Won? || s.parts[k].Firing?) :: i == k
    ensures s.executions == 1 ==>
              if |c.sources| == 0 then s.index == NO_INDEX
              else s.index < |c.sources| && s.ready[c.sources[s.index]] && s.winner == Some(s.index)
  {
    ReachableInv(c, s);
    forall i | 0 <= i < |s.parts| && (s.parts[i].Won? || s.parts[i].Firing?) ensures s.winner == Some(i) {
      assert PartOk(c, s, i);
    }
  }

  /** The winner is the input whose notification came first. */
  lemma FirstWins(c: Config, s: State, i: nat)
    requires Reachable(c, s) && c.kind.Any? && i < |c.sources| && Enabled(c, s, Notify(i))
    ensures Apply(c, s, Notify(i)).winner == if s.winner.Some? then s.winner else Some(i)
    ensures s.winner.None? <==> !s.flag
  {
    ReachableInv(c, s);
  }

  /** The published index never changes, not even after `get`. */
  lemma {:induction false} IndexFinal(c: Config, s: State, steps: seq<Step>)
    requires Inv(c, s) && c.kind.Any? && s.executions == 1
    ensures Run(c, s, steps).index == s.index && Run(c, s, steps).executions == 1
    decreases |steps|
  {
    if steps != [] {
      if Enabled(c, s, steps[0]) {
        StepInv(c, s, steps[0]);
        if steps[0].WriteIndex? || steps[0].Execute? || steps[0].Notify? {
          assert PartOk(c, s, steps[0].i);
        }
        IndexFinal(c, Apply(c, s, steps[0]), steps[1..]);
      } else {
        IndexFinal(c, s, steps[1..]);
      }
    }
  }

  /** At rest the result is ready if and only if some input is ready or there is none. */
  lemma AnyReadyIff(c: Config, s: State)
    requires Reachable(c, s) && c.kind.Any? && AtRest(c, s)
    ensures |s.ready| == c.states && WellFormed(c)
    ensures s.executions == 1 <==> |c.sources| == 0 || exists i | 0 <= i < |c.sources| :: s.ready[c.sources[i]]
  {
    ReachableInv(c, s);
    RestShape(c, s);
    forall i | 0 <= i < |c.sources| ensures s.ready[c.sources[i]] ==> s.flag {
      assert PartOk(c, s, i);
    }
    if s.winner.Some? {
      assert PartOk(c, s, s.winner.value);
    }
  }

  // The cycle from an input's stack to the combinator and back to the input

  /** While `make` is running or a source has not executed, the combinator is alive and so
      are the inputs it owns, whichever futures were dropped. Once every source has executed
      (a broken promise executes too) or died, the references of the stacks are gone: with no
      future left on it the combinator is destroyed and owns no input any more. */
  lemma CycleEnds(c: Config, s: State)
    requires Reachable(c, s) && AtRest(c, s)
    ensures Shaped(c, s)
    ensures s.strong == 0 <==>
              s.handles == 0
              && forall i | 0 <= i < |c.sources| :: s.ready[c.sources[i]] || !Living(c, s, c.sources[i])
    ensures s.strong == 0 ==> forall j | 0 <= j < c.states :: Living(c, s, j) <==> s.held[j] > 0
  {
    ReachableInv(c, s);
    RestShape(c, s);
    Counted(s.parts, |c.sources|);
    if s.strong != 0 && s.handles == 0 {
      var i :| 0 <= i < |s.parts| && Holds(s.parts[i], i == |c.sources|);
      assert i < |c.sources| && s.parts[i].Queued?;
    }
    if s.strong == 0 {
      forall i | 0 <= i < |c.sources| ensures s.parts[i].Done? {
        assert !Holds(s.parts[i], i == |c.sources|) && !s.parts[i].Waiting?;
      }
    }
  }

  /** Until its source has executed, nothing the caller drops can destroy an input of a
      `when_all`: the promise behind it can always still be kept. */
  lemma InputsKept(c: Config, s: State, i: nat)
    requires Reachable(c, s) && c.kind.All? && Shaped(c, s) && i < |c.sources| && !s.ready[c.sources[i]]
    ensures s.strong > 0 && s.owns && Living(c, s, c.sources[i]) && Enabled(c, s, Complete(c.sources[i]))
  {
    ReachableInv(c, s);
    assert PartOk(c, s, i) && c.sources[i] in c.sources;
    Counted(s.parts, |c.sources|);
    if s.executions > 0 {
      EveryPartDone(c, s);
    }
    if s.parts[i].Queued? {
      assert Holds(s.parts[i], i == |c.sources|);
    } else {
      assert PartOk(c, s, |c.sources|);
      assert Holds(s.parts[|c.sources|], true);
    }
  }
}
