/** What the atomic protocol of the once-consumable stack amounts to: it refines a plain
    sequence that can be taken once, and its memory is accounted for to the last node. */
module StackTheorems {
  import opened Outcomes
  import opened Sequences
  import opened StackProtocol

  // The abstract object

  datatype Abs = Open(items: seq<nat>) | Consumed

  datatype Event = Pushed(i: nat) | Refused(i: nat) | Took(items: seq<nat>)

  /** The abstract effect of an operation, or None when it could not answer like this. */
  function AbsNext(abs: Abs, e: Event): Option<Abs> {
    match e
    case Pushed(i) => if abs.Open? then Some(Open([i] + abs.items)) else None
    case Refused(_) => if abs.Consumed? then Some(abs) else None
    case Took(items) => if abs.Open? && items == abs.items then Some(Consumed) else None
  }

  function AbsRun(abs: Abs, es: seq<Event>): Option<Abs>
    decreases |es|
  {
    if es == [] then Some(abs)
    else match AbsNext(abs, es[0])
      case None => None
      case Some(next) => AbsRun(next, es[1..])
  }

  // Linearization points

  /** The items met by following next from p, at most n of them. */
  function ListFrom(mem: map<Addr, Cell>, p: Ptr, n: nat): seq<nat>
    decreases n
  {
    if n == 0 || !p.Node? || p.a !in mem then [] else [mem[p.a].val] + ListFrom(mem, mem[p.a].next, n - 1)
  }

  function EventOf(s: State, step: Step): seq<Event>
    requires Enabled(s, step)
  {
    match step
    case Load(i) => if s.head.Marker? then [Refused(i)] else []
    case Cas(i) =>
      if s.ops[i].pc.a in s.mem && s.head == s.mem[s.ops[i].pc.a].next then [Pushed(i)]
      else if s.head.Marker? then [Refused(i)]
      else []
    case Exchange => [Took(ListFrom(s.mem, s.head, |s.mem|))]
    case _ => []
  }

  function Trace(s: State, steps: seq<Step>): seq<Event>
    decreases |steps|
  {
    if steps == [] then []
    else if Enabled(s, steps[0]) then EventOf(s, steps[0]) + Trace(Apply(s, steps[0]), steps[1..])
    else Trace(s, steps[1..])
  }

  function View(s: State): Abs {
    if IsConsumed(s) then Consumed else Open(Rev(s.who))
  }

  /** The chain from head_ is acyclic: it visits the pushed nodes, last first, each once,
      and ends. */
  lemma {:induction false} ChainIs(s: State, k: nat, n: nat)
    requires Inv(s) && k <= s.unfreed && k <= n
    ensures ListFrom(s.mem, PtrAt(s.order, k), n) == Rev(s.who[..k])
    decreases k
  {
    if k > 0 {
      assert LinkOk(s, k - 1);
      ChainIs(s, k - 1, n - 1);
      assert s.who[..k] == s.who[..k - 1] + [s.who[k - 1]];
      RevAppend(s.who[..k - 1], s.who[k - 1]);
    }
  }

  /** Different members of a set are at most as many as it has. */
  lemma {:induction false} FitsIn(order: seq<Addr>, k: nat, cells: set<Addr>)
    requires k <= |order| && Distinct(order) && forall j | 0 <= j < k :: order[j] in cells
    ensures k <= |cells|
    decreases k
  {
    if k > 0 {
      FitsIn(order, k - 1, cells - {order[k - 1]});
    }
  }

  /** The linked nodes are distinct cells of memory. */
  lemma MemoryHoldsChain(s: State)
    requires Inv(s)
    ensures s.unfreed <= |s.mem|
  {
    forall j | 0 <= j < s.unfreed ensures s.order[j] in s.mem.Keys {
      assert LinkOk(s, j);
    }
    FitsIn(s.order, s.unfreed, s.mem.Keys);
  }

  lemma ExchangeTakesAll(s: State)
    requires Inv(s) && Enabled(s, Exchange)
    ensures ListFrom(s.mem, s.head, |s.mem|) == Rev(s.who)
  {
    MemoryHoldsChain(s);
    ChainIs(s, s.unfreed, |s.mem|);
    assert s.who[..s.unfreed] == s.who;
  }

  lemma CasRefines(s: State, i: nat)
    requires Inv(s) && Enabled(s, Cas(i))
    ensures AbsRun(View(s), EventOf(s, Cas(i))) == Some(View(DoCas(s, i)))
  {
    assert OpOk(s, i);
    RevAppend(s.who, i);
  }

  lemma ExchangeRefines(s: State)
    requires Inv(s) && Enabled(s, Exchange)
    ensures AbsRun(View(s), EventOf(s, Exchange)) == Some(View(DoExchange(s)))
  {
    ExchangeTakesAll(s);
  }

  lemma StepRefines(s: State, step: Step)
    requires Inv(s) && Enabled(s, step)
    ensures AbsRun(View(s), EventOf(s, step)) == Some(View(Apply(s, step)))
  {
    match step
    case Load(i) => assert OpOk(s, i);
    case Cas(i) => CasRefines(s, i);
    case Restore(i) => assert OpOk(s, i);
    case Exchange => ExchangeRefines(s);
    case _ =>
  }

  lemma {:induction false} AbsRunAppend(abs: Abs, a: seq<Event>, b: seq<Event>)
    requires AbsRun(abs, a).Some?
    ensures AbsRun(abs, a + b) == AbsRun(AbsRun(abs, a).value, b)
    decreases |a|
  {
    if a == [] {
      assert a + b == b;
    } else {
      assert (a + b)[1..] == a[1..] + b;
      AbsRunAppend(AbsNext(abs, a[0]).value, a[1..], b);
    }
  }

  lemma {:induction false} RunRefines(s: State, steps: seq<Step>)
    requires Inv(s)
    ensures AbsRun(View(s), Trace(s, steps)) == Some(View(Run(s, steps)))
    decreases |steps|
  {
    if steps != [] {
      if Enabled(s, steps[0]) {
        var s' := Apply(s, steps[0]);
        StepInv(s, steps[0]);
        StepRefines(s, steps[0]);
        RunRefines(s', steps[1..]);
        AbsRunAppend(View(s), EventOf(s, steps[0]), Trace(s', steps[1..]));
      } else {
        RunRefines(s, steps[1..]);
      }
    }
  }

  /** Linearizability: under any schedule of any number of pushes the answers given at the
      atomic steps are those of one sequence that is taken at most once. So consume yields
      exactly the successful pushes, latest first, and none succeeds after it. */
  lemma Linearizable(n: nat, steps: seq<Step>)
    ensures AbsRun(Open([]), Trace(Initial(n), steps)) == Some(View(Run(Initial(n), steps)))
  {
    InitialInv(n);
    RunRefines(Initial(n), steps);
  }

  predicate Refusing(op: Op) { op.pc.Undo? || op.pc == Done(false) }

  function Times(es: seq<Event>, e: Event): nat {
    if es == [] then 0 else (if es[0] == e then 1 else 0) + Times(es[1..], e)
  }

  lemma {:induction false} TimesAppend(a: seq<Event>, b: seq<Event>, e: Event)
    ensures Times(a + b, e) == Times(a, e) + Times(b, e)
  {
    if a == [] {
      assert a + b == b;
    } else {
      assert (a + b)[1..] == a[1..] + b;
      TimesAppend(a[1..], b, e);
    }
  }

  /** Operation i went from op to op' while the events e were observed: its answer is among
      them once if it came to it on the way, and not at all otherwise. */
  predicate Answered(op: Op, op': Op, e: seq<Event>, i: nat) {
    && Times(e, Pushed(i)) == (if op'.pc == Done(true) && op.pc != Done(true) then 1 else 0)
    && Times(e, Refused(i)) == (if Refusing(op') && !Refusing(op) then 1 else 0)
    && (op.pc == Done(true) ==> op'.pc == Done(true))
    && (Refusing(op) ==> Refusing(op'))
  }

  lemma PushAnswer(s: State, step: Step, i: nat)
    requires Enabled(s, step) && (step.Load? || step.Cas?) && i < |s.ops| && OpOk(s, i)
    ensures |Apply(s, step).ops| == |s.ops| && Answered(s.ops[i], Apply(s, step).ops[i], EventOf(s, step), i)
  {
  }

  lemma QuietAnswer(s: State, step: Step, i: nat)
    requires Enabled(s, step) && (step.Start? || step.Restore?) && i < |s.ops| && OpOk(s, i)
    ensures |Apply(s, step).ops| == |s.ops| && Answered(s.ops[i], Apply(s, step).ops[i], EventOf(s, step), i)
  {
    assert EventOf(s, step) == [];
  }

  lemma ConsumerAnswer(s: State, step: Step)
    requires Enabled(s, step) && !step.Load? && !step.Cas? && !step.Start? && !step.Restore?
    ensures Apply(s, step).ops == s.ops
    ensures EventOf(s, step) == [] || exists items :: EventOf(s, step) == [Took(items)]
  {
  }

  lemma StepAnswer(s: State, step: Step, i: nat)
    requires Inv(s) && Enabled(s, step) && i < |s.ops|
    ensures |Apply(s, step).ops| == |s.ops| && Answered(s.ops[i], Apply(s, step).ops[i], EventOf(s, step), i)
  {
    assert OpOk(s, i);
    if step.Load? || step.Cas? {
      PushAnswer(s, step, i);
    } else if step.Start? || step.Restore? {
      QuietAnswer(s, step, i);
    } else {
      ConsumerAnswer(s, step);
    }
  }

  lemma AnswerThen(a: Op, b: Op, c: Op, e: seq<Event>, f: seq<Event>, i: nat)
    requires Answered(a, b, e, i) && Answered(b, c, f, i)
    ensures Answered(a, c, e + f, i)
  {
    TimesAppend(e, f, Pushed(i));
    TimesAppend(e, f, Refused(i));
  }

  /** The answer a push reports is the one at its linearization point. */
  lemma {:induction false} AnswersMatch(s: State, steps: seq<Step>, i: nat)
    requires Inv(s) && i < |s.ops|
    ensures |Run(s, steps).ops| == |s.ops| && Answered(s.ops[i], Run(s, steps).ops[i], Trace(s, steps), i)
    decreases |steps|
  {
    if steps != [] {
      if Enabled(s, steps[0]) {
        var s' := Apply(s, steps[0]);
        StepInv(s, steps[0]);
        StepAnswer(s, steps[0], i);
        AnswersMatch(s', steps[1..], i);
        AnswerThen(s.ops[i], s'.ops[i], Run(s, steps).ops[i], EventOf(s, steps[0]), Trace(s', steps[1..]), i);
      } else {
        AnswersMatch(s, steps[1..], i);
      }
    }
  }

  // Exactly once

  lemma {:induction false} RevDistinct(xs: seq<nat>)
    requires Distinct(xs)
    ensures Distinct(Rev(xs)) && |Rev(xs)| == |xs|
  {
    if xs != [] {
      RevDistinct(xs[1..]);
      RevHas(xs[1..], xs[0]);
      assert xs[0] !in xs[1..];
      var r := Rev(xs[1..]);
      assert forall i | 0 <= i < |r| :: r[i] in r;
    }
  }

  lemma WhoDistinct(s: State)
    requires Inv(s)
    ensures Distinct(s.who)
    ensures forall i | 0 <= i < |s.ops| :: i in s.who <==> s.ops[i].pc == Done(true)
  {
    forall k, m | 0 <= k < m < |s.who| ensures s.who[k] != s.who[m] {
      assert LinkOk(s, k) && LinkOk(s, m);
    }
    forall i | 0 <= i < |s.ops| ensures i in s.who <==> s.ops[i].pc == Done(true) {
      assert OpOk(s, i);
      if i in s.who {
        var k :| 0 <= k < |s.who| && s.who[k] == i;
        assert LinkOk(s, k);
      }
    }
  }

  /** Where the item of push i is: with its caller, in the node of the push under way, or among
      the pushed. Exactly one of the three. */
  predicate InPlace(s: State, i: nat)
    requires i < |s.ops|
  {
    var op := s.ops[i];
    && (op.slot == Some(i) <==> op.pc.Fresh? || op.pc == Done(false))
    && (i in s.who <==> op.pc == Done(true))
    && (Flying(op) <==> op.slot == None && i !in s.who)
    && (Flying(op) ==> op.pc.a in s.mem && s.mem[op.pc.a].val == i)
  }

  lemma PlaceOf(s: State, i: nat)
    requires Inv(s) && i < |s.ops|
    ensures InPlace(s, i)
  {
    assert OpOk(s, i);
    WhoDistinct(s);
  }

  /** Every item is in exactly one place at every moment. `who` lists the pushed items in the
      order of the exchanges, each once; what the consumer was handed so far is the front of
      that list read backwards, and once it has finished it is all of it. So each pushed item
      is handed out exactly once, latest first, and the item of a refused push is back,
      unchanged, in the caller's variable. */
  lemma ExactlyOnce(n: nat, steps: seq<Step>)
    ensures var s := Run(Initial(n), steps);
            && |s.ops| == n && Distinct(s.who) && Distinct(s.delivered)
            && (forall i | 0 <= i < n :: InPlace(s, i))
            && (forall i | i in s.who :: i < n)
            && s.delivered <= Rev(s.who)
            && (IsConsumed(s) && !s.reader.Reading? ==> s.delivered == Rev(s.who))
  {
    var s := Run(Initial(n), steps);
    Reachable(n, steps);
    WhoDistinct(s);
    var u := if IsConsumed(s) then s.unread else |s.who|;
    assert s.delivered == Rev(s.who[u..]) by {
      assert s.who[|s.who|..] == [] && s.who[0..] == s.who;
    }
    RevTail(s.who, u);
    RevDistinct(s.who);
    forall i | 0 <= i < n ensures InPlace(s, i) {
      PlaceOf(s, i);
    }
    forall i | i in s.who ensures i < n {
      var k :| 0 <= k < |s.who| && s.who[k] == i;
      assert LinkOk(s, k);
    }
  }

  // Memory

  /** head_ never holds the same value twice, although addresses are reused: the
      compare-exchange cannot be fooled. */
  lemma NoAba(n: nat, steps: seq<Step>)
    ensures var hs := Run(Initial(n), steps).heads; forall i, j | 0 <= i < j < |hs| :: hs[i] != hs[j]
  {
    var s := Run(Initial(n), steps);
    Reachable(n, steps);
    forall i, j | 0 <= i < j < |s.heads| ensures s.heads[i] != s.heads[j] {
      assert s.heads[i] == PtrAt(s.order, i);
    }
  }

  /** No access to memory that is not allocated, in any schedule; and when the stack is
      destroyed and all its users are done, every node has been freed. With no fault on
      the way, each was freed once. */
  lemma EveryNodeFreed(n: nat, steps: seq<Step>)
    ensures var s := Run(Initial(n), steps);
            && !s.fault
            && (s.torn && s.reader.Over? ==> s.mem == map[])
  {
    var s := Run(Initial(n), steps);
    Reachable(n, steps);
    if s.torn && s.reader.Over? {
      forall i | 0 <= i < |s.ops| ensures !Flying(s.ops[i]) {
        assert OpOk(s, i);
      }
    }
  }

  /** Retry bound: the failed compare-exchanges of a push number at most the pushes of others
      that succeeded since its load, `loadedAt - 1` having succeeded before, plus one consume. */
  lemma RetryBound(n: nat, steps: seq<Step>, i: nat)
    requires i < n
    ensures var s := Run(Initial(n), steps);
            && |s.ops| == n
            && (s.ops[i].failures > 0 ==>
                  var own := if s.ops[i].pc == Done(true) then 1 else 0;
                  var consumes := if IsConsumed(s) then 1 else 0;
                  && 1 <= s.ops[i].loadedAt <= 1 + |s.who|
                  && s.ops[i].failures <= |s.who| - own - (s.ops[i].loadedAt - 1) + consumes)
  {
    var s := Run(Initial(n), steps);
    Reachable(n, steps);
    assert OpOk(s, i);
  }

  // Left alone, operations finish

  /** The steps push i still has to take if nobody interferes. */
  function ToGo(s: State, i: nat): nat
    requires i < |s.ops|
  {
    match s.ops[i].pc
    case Fresh => 3
    case Loading(_) => 2
    case Trying(a) => if a in s.mem && s.mem[a].next == s.head then 1 else 2
    case Undo(_) => 1
    case Done(_) => 0
  }

  predicate ByPush(step: Step, i: nat) {
    (step.Start? || step.Load? || step.Cas? || step.Restore?) && step.i == i
  }

  function NextOf(s: State, i: nat, a: Addr): Step
    requires i < |s.ops| && !s.ops[i].pc.Done?
  {
    match s.ops[i].pc
    case Fresh => Start(i, a)
    case Loading(_) => Load(i)
    case Trying(_) => Cas(i)
    case Undo(_) => Restore(i)
  }

  lemma PushMoves(s: State, i: nat, a: Addr)
    requires Inv(s) && i < |s.ops| && !s.ops[i].pc.Done? && (s.ops[i].pc.Fresh? ==> a !in s.mem && !s.torn)
    ensures Enabled(s, NextOf(s, i, a)) && ByPush(NextOf(s, i, a), i)
    ensures var s' := Apply(s, NextOf(s, i, a));
            && |s'.ops| == |s.ops| && !s'.ops[i].pc.Fresh? && ToGo(s', i) < ToGo(s, i) && IsConsumed(s') == IsConsumed(s)
            && s'.who == (if s'.ops[i].pc == Done(true) then s.who + [i] else s.who)
            && (s'.ops[i].pc.Done? ==> s'.ops[i].pc.ok == !IsConsumed(s))
  {
    assert OpOk(s, i);
  }

  /** A push that is left alone is through within three steps of its own, and succeeds exactly if
      the stack has not been consumed: its item is then the last pushed. */
  lemma {:induction false} PushAlone(s: State, i: nat, a: Addr) returns (steps: seq<Step>)
    requires Inv(s) && i < |s.ops| && !s.ops[i].pc.Done? && (s.ops[i].pc.Fresh? ==> a !in s.mem && !s.torn)
    ensures |steps| <= ToGo(s, i) <= 3 && forall step | step in steps :: ByPush(step, i)
    ensures var t := Run(s, steps);
            && |t.ops| == |s.ops| && t.ops[i].pc == Done(!IsConsumed(s))
            && t.who == if IsConsumed(s) then s.who else s.who + [i]
    decreases ToGo(s, i)
  {
    PushMoves(s, i, a);
    var first := NextOf(s, i, a);
    var s' := Apply(s, first);
    StepInv(s, first);
    steps := [first];
    assert steps[1..] == [];
    if !s'.ops[i].pc.Done? {
      var rest := PushAlone(s', i, a);
      steps := [first] + rest;
      assert steps[1..] == rest;
    }
  }

  /** What the consumer still has to do once it has the list. */
  function Unfinished(s: State): nat {
    match s.reader case Reading(_, _) => s.unread + s.unfreed + 2 case Freeing(_) => s.unfreed + 1 case _ => 0
  }

  lemma ReaderMoves(s: State)
    requires Inv(s) && (s.reader.Reading? || s.reader.Freeing?)
    ensures var step := if s.reader.Reading? then Read else Free;
            && Enabled(s, step) && Unfinished(Apply(s, step)) < Unfinished(s)
            && Apply(s, step).who == s.who && IsConsumed(Apply(s, step)) == IsConsumed(s)
            && (Apply(s, step).reader.Reading? || Apply(s, step).reader.Freeing? || Apply(s, step).reader.Over?)
  {
    if s.unread > 0 {
      assert LinkOk(s, s.unread - 1);
    }
    if s.unfreed > 0 {
      assert LinkOk(s, s.unfreed - 1);
    }
  }

  lemma {:induction false} ReaderAlone(s: State) returns (steps: seq<Step>)
    requires Inv(s) && IsConsumed(s) && (s.reader.Reading? || s.reader.Freeing? || s.reader.Over?)
    ensures |steps| <= Unfinished(s) && forall step | step in steps :: step.Read? || step.Free?
    ensures var t := Run(s, steps); t.reader.Over? && t.delivered == Rev(s.who)
    decreases Unfinished(s)
  {
    if s.reader.Over? {
      return [];
    }
    ReaderMoves(s);
    var first := if s.reader.Reading? then Read else Free;
    StepInv(s, first);
    var rest := ReaderAlone(Apply(s, first));
    steps := [first] + rest;
    assert steps[1..] == rest;
  }

  /** A consume is through within two steps for each pushed node and three more, and has then handed
      out everything pushed before its exchange, latest first. */
  lemma ConsumeAlone(s: State) returns (steps: seq<Step>)
    requires Inv(s) && Enabled(s, Exchange)
    ensures |steps| <= 2 * |s.who| + 3 && forall step | step in steps :: step.Exchange? || step.Read? || step.Free?
    ensures var t := Run(s, steps); t.reader.Over? && IsConsumed(t) && t.delivered == Rev(s.who)
  {
    var s' := Apply(s, Exchange);
    StepInv(s, Exchange);
    var rest := ReaderAlone(s');
    steps := [Exchange] + rest;
    assert steps[1..] == rest;
    StaysConsumed(s', rest);
  }

  lemma {:induction false} StaysConsumed(s: State, steps: seq<Step>)
    requires Inv(s) && IsConsumed(s)
    ensures IsConsumed(Run(s, steps))
    decreases |steps|
  {
    if steps != [] {
      if Enabled(s, steps[0]) {
        if steps[0].Cas? {
          assert OpOk(s, steps[0].i);
        }
        StepInv(s, steps[0]);
        StaysConsumed(Apply(s, steps[0]), steps[1..]);
      } else {
        StaysConsumed(s, steps[1..]);
      }
    }
  }

  lemma {:induction false} FreeAlone(s: State) returns (steps: seq<Step>)
    requires Inv(s) && s.torn && (s.reader.Freeing? || s.reader.Over?)
    ensures |steps| <= Unfinished(s) && forall step | step in steps :: step.Free?
    ensures Run(s, steps).torn && Run(s, steps).reader.Over?
    decreases Unfinished(s)
  {
    if s.reader.Over? {
      return [];
    }
    ReaderMoves(s);
    StepInv(s, Free);
    var rest := FreeAlone(Apply(s, Free));
    steps := [Free] + rest;
    assert steps[1..] == rest;
  }

  lemma {:induction false} RunAppend(s: State, a: seq<Step>, b: seq<Step>)
    ensures Run(s, a + b) == Run(Run(s, a), b)
    decreases |a|
  {
    if a == [] {
      assert a + b == b;
    } else {
      assert (a + b)[1..] == a[1..] + b;
      RunAppend(if Enabled(s, a[0]) then Apply(s, a[0]) else s, a[1..], b);
    }
  }

  /** When all users of the stack are through its destructor can run, is through within a step for
      each node it has to free and two more, and leaves nothing allocated. */
  lemma TearAlone(n: nat, before: seq<Step>) returns (steps: seq<Step>)
    requires var s := Run(Initial(n), before);
             !s.torn && (s.reader.Idle? || s.reader.Over?) && forall i | 0 <= i < |s.ops| :: Resting(s.ops[i])
    ensures |steps| <= Run(Initial(n), before).unfreed + 2 && forall step | step in steps :: step.Tear? || step.Free?
    ensures Run(Run(Initial(n), before), steps).torn && Run(Run(Initial(n), before), steps).mem == map[]
  {
    var s := Run(Initial(n), before);
    Reachable(n, before);
    var s' := Apply(s, Tear);
    StepInv(s, Tear);
    var rest := FreeAlone(s');
    steps := [Tear] + rest;
    assert steps[1..] == rest;
    RunAppend(Initial(n), before, steps);
    EveryNodeFreed(n, before + steps);
  }
}
