/** The lock-free, once-consumable stack under any interleaving of its atomic operations.

    Producers allocate a node, load `head_` and retry a compare-exchange whose expected
    value lives in the node's own `next`; one consumer exchanges `head_` for the marker,
    walks the list and frees it; the destructor frees what nobody consumed. Addresses may
    be reused as soon as they are free. Each step below is one atomic operation. */
module StackProtocol {
  import opened Outcomes
  import opened Sequences

  type Addr = nat

  datatype Ptr = Null | Node(a: Addr) | Marker

  /** A list node; `val` names the push whose item was moved in. */
  datatype Cell = Cell(val: nat, next: Ptr)

  datatype Pc = Fresh | Loading(a: Addr) | Trying(a: Addr) | Undo(a: Addr) | Done(ok: bool)

  /** One call of push. `slot` is the caller's variable, empty while its item is moved
      out. The rest is history: failed exchanges, which value of head_ was loaded first,
      which was seen last, and the position of a successful push in CAS order. */
  datatype Op = Op(slot: Option<nat>, pc: Pc, failures: nat, loadedAt: nat, seen: nat, rank: nat)

  /** The thread that owns a detached list: the consumer, or the destructor. */
  datatype Reader = Idle | Reading(list: Ptr, cursor: Ptr) | Freeing(p: Ptr) | Over

  /** `fault` is raised by any access to memory that is not allocated. The rest of the
      last line is history: the values of head_, the pushed nodes and their items in CAS
      order, how many of those nodes are unread and unfreed, and what was handed out. */
  datatype State = State(
    head: Ptr, mem: map<Addr, Cell>, ops: seq<Op>, reader: Reader, torn: bool, fault: bool,
    heads: seq<Ptr>, order: seq<Addr>, who: seq<nat>, unread: nat, unfreed: nat, delivered: seq<nat>)

  datatype Step =
    | Start(i: nat, a: Addr)
    | Load(i: nat)
    | Cas(i: nat)
    | Restore(i: nat)
    | Exchange
    | Read
    | Free
    | Tear

  function Initial(n: nat): State {
    State(Null, map[], seq(n, (i: nat) => Op(Some(i), Fresh, 0, 0, 0, 0)), Idle, false, false, [Null], [], [], 0, 0, [])
  }

  predicate Resting(op: Op) { op.pc.Fresh? || op.pc.Done? }

  predicate Enabled(s: State, step: Step) {
    match step
    case Start(i, a) =>
      i < |s.ops| && s.ops[i].pc.Fresh? && s.ops[i].slot.Some? && a !in s.mem && !s.torn
    case Load(i) => i < |s.ops| && s.ops[i].pc.Loading?
    case Cas(i) => i < |s.ops| && s.ops[i].pc.Trying?
    case Restore(i) => i < |s.ops| && s.ops[i].pc.Undo?
    case Exchange => s.reader.Idle? && !s.torn
    case Read => s.reader.Reading?
    case Free => s.reader.Freeing?
    case Tear => !s.torn && (s.reader.Idle? || s.reader.Over?) && forall i | 0 <= i < |s.ops| :: Resting(s.ops[i])
  }

  function SetHead(s: State, p: Ptr): State {
    s.(head := p, heads := s.heads + [p])
  }

  function DoStart(s: State, i: nat, a: Addr): State
    requires Enabled(s, Start(i, a))
  {
    s.(mem := s.mem[a := Cell(s.ops[i].slot.value, Null)],
       ops := s.ops[i := s.ops[i].(slot := None, pc := Loading(a))])
  }

  function DoLoad(s: State, i: nat): State
    requires Enabled(s, Load(i))
  {
    var op, a := s.ops[i], s.ops[i].pc.a;
    var now := |s.heads|;
    if s.head.Marker? then s.(ops := s.ops[i := op.(pc := Undo(a))])
    else if a !in s.mem then s.(fault := true)
    else
      s.(mem := s.mem[a := s.mem[a].(next := s.head)],
         ops := s.ops[i := op.(pc := Trying(a), loadedAt := now, seen := now)])
  }

  /** compare_exchange_strong(node->next, node): on failure node->next becomes head_. */
  function DoCas(s: State, i: nat): State
    requires Enabled(s, Cas(i))
  {
    var op, a := s.ops[i], s.ops[i].pc.a;
    if a !in s.mem then s.(fault := true)
    else if s.head == s.mem[a].next then
      SetHead(s, Node(a)).(ops := s.ops[i := op.(pc := Done(true), rank := |s.order|)], order := s.order + [a],
                           who := s.who + [s.mem[a].val], unread := s.unread + 1, unfreed := s.unfreed + 1)
    else
      var failed := op.(failures := op.failures + 1, seen := |s.heads|);
      if s.head.Marker? then
        s.(mem := s.mem[a := s.mem[a].(next := Null)], ops := s.ops[i := failed.(pc := Undo(a))])
      else
        s.(mem := s.mem[a := s.mem[a].(next := s.head)], ops := s.ops[i := failed])
  }

  /** push(val, alloc) takes the item back and the deleter walks from the lone node. */
  function DoRestore(s: State, i: nat): State
    requires Enabled(s, Restore(i))
  {
    var op, a := s.ops[i], s.ops[i].pc.a;
    if a !in s.mem || s.mem[a].next != Null then s.(fault := true)
    else s.(mem := s.mem - {a}, ops := s.ops[i := op.(slot := Some(s.mem[a].val), pc := Done(false))])
  }

  function DoExchange(s: State): State
    requires Enabled(s, Exchange)
  {
    var list := if s.head.Marker? then Null else s.head;
    SetHead(s, Marker).(reader := Reading(list, list))
  }

  function DoRead(s: State): State
    requires Enabled(s, Read)
  {
    match s.reader.cursor
    case Null => s.(reader := Freeing(s.reader.list))
    case Marker => s.(fault := true)
    case Node(a) =>
      if a !in s.mem || s.unread == 0 then s.(fault := true)
      else s.(reader := Reading(s.reader.list, s.mem[a].next), unread := s.unread - 1,
              delivered := s.delivered + [s.mem[a].val])
  }

  /** One round of forward_list_deleter: read next, then free the node. */
  function DoFree(s: State): State
    requires Enabled(s, Free)
  {
    match s.reader.p
    case Null => s.(reader := Over)
    case Marker => s.(fault := true)
    case Node(a) =>
      if a !in s.mem || s.unfreed == 0 then s.(fault := true)
      else s.(reader := Freeing(s.mem[a].next), mem := s.mem - {a}, unfreed := s.unfreed - 1)
  }

  /** The destructor; by then nobody else uses the stack. */
  function DoTear(s: State): State
    requires Enabled(s, Tear)
  {
    s.(torn := true, reader := if s.head.Node? then Freeing(s.head) else Over)
  }

  function Apply(s: State, step: Step): State
    requires Enabled(s, step)
  {
    match step
    case Start(i, a) => DoStart(s, i, a)
    case Load(i) => DoLoad(s, i)
    case Cas(i) => DoCas(s, i)
    case Restore(i) => DoRestore(s, i)
    case Exchange => DoExchange(s)
    case Read => DoRead(s)
    case Free => DoFree(s)
    case Tear => DoTear(s)
  }

  function Run(s: State, steps: seq<Step>): State
    decreases |steps|
  {
    if steps == [] then s
    else Run(if Enabled(s, steps[0]) then Apply(s, steps[0]) else s, steps[1..])
  }

  // The invariant

  predicate IsConsumed(s: State) { s.head.Marker? }

  /** What head_ points to when the first k pushed nodes are on the stack. */
  function PtrAt(order: seq<Addr>, k: nat): Ptr
    requires k <= |order|
  {
    if k == 0 then Null else Node(order[k - 1])
  }

  predicate Flying(op: Op) { op.pc.Loading? || op.pc.Trying? || op.pc.Undo? }

  /** An operation: where its item is, and the node it owns while it is under way. */
  predicate OpOk(s: State, i: nat)
    requires i < |s.ops|
  {
    var op := s.ops[i];
    && (op.pc.Fresh? ==> op.slot == Some(i))
    && (op.pc.Fresh? || op.pc.Loading? ==> op.failures == 0)
    && (op.pc.Trying? || op.pc == Done(true) || op.failures > 0 ==> op.loadedAt >= 1)
    && (op.pc == Done(true) ==> op.slot == None)
    && (op.pc == Done(true) ==> op.rank < |s.who| && s.who[op.rank] == i && op.seen < |s.heads|)
    && (op.pc == Done(false) ==> op.slot == Some(i) && IsConsumed(s))
    && (Flying(op) ==> op.slot == None && !s.torn && op.pc.a in s.mem && s.mem[op.pc.a].val == i)
    && (op.pc.Loading? || op.pc.Undo? ==> s.mem[op.pc.a].next == Null)
    && (op.pc.Undo? ==> IsConsumed(s))
    && (op.pc.Trying? ==> 1 <= op.seen <= |s.heads| && s.mem[op.pc.a].next == s.heads[op.seen - 1] != Marker)
    && op.loadedAt + op.failures <= op.seen <= |s.heads|
  }

  /** The k-th pushed node, linked to the one pushed before it until it is freed. */
  predicate LinkOk(s: State, k: nat)
    requires k < |s.order| == |s.who|
  {
    && s.who[k] < |s.ops| && s.ops[s.who[k]].pc == Done(true) && s.ops[s.who[k]].rank == k
    && (k < s.unfreed ==> s.order[k] in s.mem && s.mem[s.order[k]] == Cell(s.who[k], PtrAt(s.order, k)))
  }

  /** An allocated node belongs to the push under way that made it, or is still linked. */
  predicate NodeOk(s: State, a: Addr)
    requires a in s.mem
  {
    var i := s.mem[a].val;
    && i < |s.ops|
    && if Flying(s.ops[i]) then s.ops[i].pc.a == a
       else s.ops[i].pc == Done(true) && s.ops[i].rank < s.unfreed <= |s.order| && s.order[s.ops[i].rank] == a
  }

  /** The values head_ went through: null, each pushed node, at last the marker. */
  predicate HeadsOk(s: State) {
    && |s.heads| == 1 + |s.order| + (if IsConsumed(s) then 1 else 0)
    && (forall k | 0 <= k <= |s.order| :: s.heads[k] == PtrAt(s.order, k))
    && s.head == s.heads[|s.heads| - 1]
  }

  predicate Distinct(xs: seq<nat>) {
    forall i, j | 0 <= i < j < |xs| :: xs[i] != xs[j]
  }

  predicate ReaderOk(s: State)
    requires |s.who| == |s.order| && s.unread <= |s.order| && s.unfreed <= |s.order|
  {
    && (IsConsumed(s) && !s.reader.Reading? ==> s.unread == 0 && s.delivered == Rev(s.who))
    && (!IsConsumed(s) ==> s.delivered == [] && (s.reader.Idle? <==> !s.torn))
    && match s.reader
       case Idle => !IsConsumed(s) && s.unread == s.unfreed == |s.order|
       case Reading(l, c) =>
         && IsConsumed(s) && !s.torn && s.unfreed == |s.order|
         && l == PtrAt(s.order, |s.order|) && c == PtrAt(s.order, s.unread)
         && s.delivered == Rev(s.who[s.unread..])
       case Freeing(p) => p == PtrAt(s.order, s.unfreed)
       case Over => s.unfreed == 0
  }

  ghost predicate Inv(s: State) {
    && !s.fault && |s.who| == |s.order| && s.unread <= |s.order| && s.unfreed <= |s.order|
    && HeadsOk(s) && ReaderOk(s) && Distinct(s.order)
    && (forall i | 0 <= i < |s.ops| :: OpOk(s, i))
    && (forall k | 0 <= k < |s.order| :: LinkOk(s, k))
    && (forall a | a in s.mem :: NodeOk(s, a))
  }

  lemma InitialInv(n: nat)
    ensures Inv(Initial(n))
  {
  }

  lemma StartOps(s: State, i: nat, a: Addr)
    requires Inv(s) && Enabled(s, Start(i, a))
    ensures var s' := DoStart(s, i, a); forall j | 0 <= j < |s'.ops| :: OpOk(s', j)
    ensures var s' := DoStart(s, i, a); forall b | b in s'.mem :: NodeOk(s', b)
  {
    var s' := DoStart(s, i, a);
    assert OpOk(s, i);
    forall j | 0 <= j < |s'.ops| ensures OpOk(s', j) {
      assert OpOk(s, j);
    }
    forall b | b in s'.mem ensures NodeOk(s', b) {
      assert b != a ==> NodeOk(s, b);
    }
  }

  lemma StartInv(s: State, i: nat, a: Addr)
    requires Inv(s) && Enabled(s, Start(i, a))
    ensures Inv(DoStart(s, i, a))
  {
    var s' := DoStart(s, i, a);
    StartOps(s, i, a);
    assert OpOk(s, i);
    forall k | 0 <= k < |s'.order| ensures LinkOk(s', k) {
      assert LinkOk(s, k);
    }
  }

  /** An operation that keeps its node rewrites that node's next and its own fields. */
  ghost predicate Rewrites(s: State, s': State, i: nat, p: Ptr) {
    && i < |s.ops| && Flying(s.ops[i]) && s.ops[i].pc.a in s.mem
    && |s'.ops| == |s.ops| && s'.ops == s.ops[i := s'.ops[i]]
    && Flying(s'.ops[i]) && s'.ops[i].pc.a == s.ops[i].pc.a
    && s' == s.(mem := s.mem[s.ops[i].pc.a := s.mem[s.ops[i].pc.a].(next := p)], ops := s'.ops)
  }

  lemma OwnNodeOps(s: State, s': State, i: nat, p: Ptr)
    requires Inv(s) && Rewrites(s, s', i, p) && OpOk(s', i)
    ensures forall j | 0 <= j < |s'.ops| :: OpOk(s', j)
    ensures forall b | b in s'.mem :: NodeOk(s', b)
  {
    assert OpOk(s, i);
    forall j | 0 <= j < |s'.ops| ensures OpOk(s', j) {
      assert OpOk(s, j);
    }
    forall b | b in s'.mem ensures NodeOk(s', b) {
      assert NodeOk(s, b);
    }
  }

  lemma OwnNode(s: State, s': State, i: nat, p: Ptr)
    requires Inv(s) && Rewrites(s, s', i, p) && OpOk(s', i)
    ensures Inv(s')
  {
    OwnNodeOps(s, s', i, p);
    assert OpOk(s, i);
    forall k | 0 <= k < |s'.order| ensures LinkOk(s', k) {
      assert LinkOk(s, k);
    }
  }

  lemma LoadInv(s: State, i: nat)
    requires Inv(s) && Enabled(s, Load(i))
    ensures Inv(DoLoad(s, i))
  {
    var s', a := DoLoad(s, i), s.ops[i].pc.a;
    assert OpOk(s, i);
    OwnNode(s, s', i, s'.mem[a].next);
  }

  lemma LostCasInv(s: State, i: nat)
    requires Inv(s) && Enabled(s, Cas(i)) && s.ops[i].pc.a in s.mem && s.head != s.mem[s.ops[i].pc.a].next
    ensures Inv(DoCas(s, i))
  {
    var s', a := DoCas(s, i), s.ops[i].pc.a;
    assert OpOk(s, i);
    OwnNode(s, s', i, s'.mem[a].next);
  }

  lemma WonCasOps(s: State, i: nat)
    requires Inv(s) && Enabled(s, Cas(i)) && s.ops[i].pc.a in s.mem && s.head == s.mem[s.ops[i].pc.a].next
    ensures var s' := DoCas(s, i); forall j | 0 <= j < |s'.ops| :: OpOk(s', j)
    ensures ReaderOk(DoCas(s, i))
  {
    var s' := DoCas(s, i);
    assert OpOk(s, i);
    forall j | 0 <= j < |s'.ops| ensures OpOk(s', j) {
      assert OpOk(s, j);
    }
  }

  lemma WonCasLinks(s: State, i: nat)
    requires Inv(s) && Enabled(s, Cas(i)) && s.ops[i].pc.a in s.mem && s.head == s.mem[s.ops[i].pc.a].next
    ensures var s' := DoCas(s, i); forall k | 0 <= k < |s'.order| :: LinkOk(s', k)
  {
    var s' := DoCas(s, i);
    assert OpOk(s, i);
    forall k | 0 <= k < |s'.order| ensures LinkOk(s', k) {
      if k < |s.order| {
        assert LinkOk(s, k);
      }
    }
  }

  lemma WonCasHeads(s: State, i: nat)
    requires Inv(s) && Enabled(s, Cas(i)) && s.ops[i].pc.a in s.mem && s.head == s.mem[s.ops[i].pc.a].next
    ensures Distinct(DoCas(s, i).order) && HeadsOk(DoCas(s, i))
  {
    assert OpOk(s, i);
    forall k | 0 <= k < |s.order| ensures s.order[k] != s.ops[i].pc.a {
      assert LinkOk(s, k);
    }
  }

  lemma WonCasNodes(s: State, i: nat)
    requires Inv(s) && Enabled(s, Cas(i)) && s.ops[i].pc.a in s.mem && s.head == s.mem[s.ops[i].pc.a].next
    ensures var s' := DoCas(s, i); forall b | b in s'.mem :: NodeOk(s', b)
  {
    var s' := DoCas(s, i);
    assert OpOk(s, i);
    forall b | b in s'.mem ensures NodeOk(s', b) {
      assert NodeOk(s, b);
    }
  }

  lemma WonCasInv(s: State, i: nat)
    requires Inv(s) && Enabled(s, Cas(i)) && s.ops[i].pc.a in s.mem && s.head == s.mem[s.ops[i].pc.a].next
    ensures Inv(DoCas(s, i))
  {
    assert OpOk(s, i);
    WonCasOps(s, i);
    WonCasLinks(s, i);
    WonCasHeads(s, i);
    WonCasNodes(s, i);
  }

  lemma RestoreOps(s: State, i: nat)
    requires Inv(s) && Enabled(s, Restore(i))
    ensures var s' := DoRestore(s, i); forall j | 0 <= j < |s'.ops| :: OpOk(s', j)
    ensures var s' := DoRestore(s, i); forall b | b in s'.mem :: NodeOk(s', b)
  {
    var s' := DoRestore(s, i);
    assert OpOk(s, i);
    forall j | 0 <= j < |s'.ops| ensures OpOk(s', j) {
      assert OpOk(s, j);
      assert Flying(s.ops[j]) && j != i ==> s.ops[j].pc.a != s.ops[i].pc.a;
    }
    forall b | b in s'.mem ensures NodeOk(s', b) {
      assert NodeOk(s, b);
    }
  }

  lemma RestoreInv(s: State, i: nat)
    requires Inv(s) && Enabled(s, Restore(i))
    ensures Inv(DoRestore(s, i))
  {
    var s' := DoRestore(s, i);
    RestoreOps(s, i);
    assert OpOk(s, i);
    forall k | 0 <= k < |s'.order| ensures LinkOk(s', k) {
      assert LinkOk(s, k);
    }
  }

  lemma ExchangeInv(s: State)
    requires Inv(s) && Enabled(s, Exchange)
    ensures Inv(DoExchange(s))
  {
    var s' := DoExchange(s);
    assert s.who[|s.who|..] == [];
    forall j | 0 <= j < |s'.ops| ensures OpOk(s', j) {
      assert OpOk(s, j);
    }
    forall k | 0 <= k < |s'.order| ensures LinkOk(s', k) {
      assert LinkOk(s, k);
    }
    forall b | b in s'.mem ensures NodeOk(s', b) {
      assert NodeOk(s, b);
    }
  }

  /** What the consumer was handed, after one more item. */
  lemma ReadReader(s: State)
    requires Inv(s) && Enabled(s, Read)
    ensures ReaderOk(DoRead(s)) && !DoRead(s).fault
  {
    if s.unread > 0 {
      assert LinkOk(s, s.unread - 1);
      assert s.who[s.unread - 1..][1..] == s.who[s.unread..];
    }
    assert s.who[0..] == s.who;
  }

  /** Reading changes nothing but the reader's own account. */
  lemma ReadInv(s: State)
    requires Inv(s) && Enabled(s, Read)
    ensures Inv(DoRead(s))
  {
    var s' := DoRead(s);
    ReadReader(s);
    if s.unread > 0 {
      assert LinkOk(s, s.unread - 1);
    }
    forall j | 0 <= j < |s'.ops| ensures OpOk(s', j) {
      assert OpOk(s, j);
    }
    forall k | 0 <= k < |s'.order| ensures LinkOk(s', k) {
      assert LinkOk(s, k);
    }
    forall b | b in s'.mem ensures NodeOk(s', b) {
      assert NodeOk(s, b);
    }
  }

  lemma FreeNodes(s: State)
    requires Inv(s) && Enabled(s, Free)
    ensures var s' := DoFree(s); forall b | b in s'.mem :: NodeOk(s', b)
  {
    var s' := DoFree(s);
    if s.unfreed > 0 {
      assert LinkOk(s, s.unfreed - 1);
    }
    forall b | b in s'.mem ensures NodeOk(s', b) {
      assert NodeOk(s, b);
    }
  }

  lemma FreeOps(s: State)
    requires Inv(s) && Enabled(s, Free)
    ensures var s' := DoFree(s); forall j | 0 <= j < |s'.ops| :: OpOk(s', j)
  {
    var s' := DoFree(s);
    if s.unfreed > 0 {
      assert LinkOk(s, s.unfreed - 1);
    }
    forall j | 0 <= j < |s'.ops| ensures OpOk(s', j) {
      assert OpOk(s, j);
    }
  }

  lemma FreeInv(s: State)
    requires Inv(s) && Enabled(s, Free)
    ensures Inv(DoFree(s))
  {
    var s' := DoFree(s);
    FreeNodes(s);
    FreeOps(s);
    if s.unfreed > 0 {
      assert LinkOk(s, s.unfreed - 1);
    }
    forall k | 0 <= k < |s'.order| ensures LinkOk(s', k) {
      assert LinkOk(s, k);
    }
  }

  lemma TearInv(s: State)
    requires Inv(s) && Enabled(s, Tear)
    ensures Inv(DoTear(s))
  {
    var s' := DoTear(s);
    forall j | 0 <= j < |s'.ops| ensures OpOk(s', j) {
      assert OpOk(s, j);
    }
    forall k | 0 <= k < |s'.order| ensures LinkOk(s', k) {
      assert LinkOk(s, k);
    }
    forall b | b in s'.mem ensures NodeOk(s', b) {
      assert NodeOk(s, b);
    }
  }

  lemma StepInv(s: State, step: Step)
    requires Inv(s) && Enabled(s, step)
    ensures Inv(Apply(s, step))
  {
    match step
    case Start(i, a) => StartInv(s, i, a);
    case Load(i) => LoadInv(s, i);
    case Cas(i) =>
      assert OpOk(s, i);
      if s.head == s.mem[s.ops[i].pc.a].next { WonCasInv(s, i); } else { LostCasInv(s, i); }
    case Restore(i) => RestoreInv(s, i);
    case Exchange => ExchangeInv(s);
    case Read => ReadInv(s);
    case Free => FreeInv(s);
    case Tear => TearInv(s);
  }

  lemma {:induction false} RunInv(s: State, steps: seq<Step>)
    requires Inv(s)
    ensures Inv(Run(s, steps))
    decreases |steps|
  {
    if steps != [] {
      if Enabled(s, steps[0]) {
        StepInv(s, steps[0]);
        RunInv(Apply(s, steps[0]), steps[1..]);
      } else {
        RunInv(s, steps[1..]);
      }
    }
  }

  lemma Reachable(n: nat, steps: seq<Step>)
    ensures Inv(Run(Initial(n), steps)) && |Run(Initial(n), steps).ops| == n
  {
    InitialInv(n);
    RunInv(Initial(n), steps);
    SameOps(Initial(n), steps);
  }

  lemma {:induction false} SameOps(s: State, steps: seq<Step>)
    ensures |Run(s, steps).ops| == |s.ops|
    decreases |steps|
  {
    if steps != [] {
      SameOps(if Enabled(s, steps[0]) then Apply(s, steps[0]) else s, steps[1..]);
    }
  }
}
