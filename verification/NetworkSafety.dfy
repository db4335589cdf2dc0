/** The structural invariant of the network and its preservation by every step:
    explicit counts equal the references that exist, each unready state is carried by one
    token, and every activity finds the cell it works on in the shape the code asserts. */
module NetworkSafety {
  import opened Outcomes
  import opened NetworkModel
  import opened NetworkLedger

  predicate Ready(cells: seq<Cell>, i: Id) {
    i < |cells| && cells[i].stack.Consumed?
  }

  /** A continuation state nobody has scheduled (exec present) or run (action present). */
  predicate Unstarted(net: Net, cells: seq<Cell>, c: Id, exec: bool) {
    && c < |net| && c < |cells| && net[c].Continued?
    && var cell := cells[c];
       && !cell.life.Unborn? && cell.exec == exec && cell.action == Some(net[c].parent)
       && cell.storage.Empty? && cell.stack.Open? && cell.calls == 0
  }

  predicate ContOk(net: Net, cells: seq<Cell>, k: Continuation) {
    match k
    case Schedule(c) => Unstarted(net, cells, c, true)
    case Forward(o) =>
      && o < |net| && o < |cells| && !cells[o].life.Unborn? && cells[o].stack.Open?
      && cells[o].storage.HasInner? && cells[o].storage.inner < |net|
    case Keep(i) => i < |net|
  }

  /** The state whose stack a callback belongs on. */
  function Subject(net: Net, cells: seq<Cell>, k: Continuation): Id
    requires ContOk(net, cells, k)
  {
    match k
    case Schedule(c) => net[c].parent
    case Forward(o) => cells[o].storage.inner
    case Keep(i) => i
  }

  /** A callback that is being called: its subject is ready. */
  predicate Fired(net: Net, cells: seq<Cell>, k: Continuation) {
    ContOk(net, cells, k) && (!k.Keep? ==> Ready(cells, Subject(net, cells, k)))
  }

  predicate ActOk(net: Net, cells: seq<Cell>, a: Activity) {
    match a
    case World => true
    case Handle(i) => i < |net|
    case Temp(i) => i < |net|
    case Owner(p) =>
      && p < |net| && p < |cells| && net[p].Promised?
      && !cells[p].life.Unborn? && cells[p].storage.Empty? && cells[p].stack.Open?
    case Subscribing(c) => Unstarted(net, cells, c, true)
    case Linking(o, j) => ContOk(net, cells, Forward(o)) && cells[o].storage.inner == j
    case Invoking(k) => Fired(net, cells, k)
    case Task(c) => Unstarted(net, cells, c, false) && Ready(cells, net[c].parent)
    case Running(c, p, keeps) =>
      && c < |net| && c < |cells| && net[c].Continued? && net[c].runs && p == net[c].parent && Ready(cells, p)
      && p < |net| && keeps == net[c].skipsErrors
      && var cell := cells[c];
         && !cell.life.Unborn? && !cell.exec && cell.action.None? && cell.storage.Empty?
         && cell.stack.Open? && cell.calls == 1
    case Executing(i) =>
      && i < |net| && i < |cells| && !cells[i].life.Unborn? && !cells[i].storage.Empty? && cells[i].stack.Open?
      && (cells[i].storage.HasInner? ==> Ready(cells, cells[i].storage.inner))
    case Draining(i, ks) =>
      Ready(cells, i) && i < |net| && forall k | k in ks :: Fired(net, cells, k)
  }

  predicate CellOk(net: Net, cells: seq<Cell>, clock: nat, i: Id)
    requires i < |net| == |cells|
  {
    var cell := cells[i];
    && (cell.life.Unborn? ==> cell == BLANK)
    && (cell.storage.HasInner? ==> cell.storage.inner < |net|)
    && (cell.stack.Consumed? ==>
          && !cell.storage.Empty? && cell.readyAt < clock
          && (cell.storage.HasInner? ==>
                Ready(cells, cell.storage.inner) && cells[cell.storage.inner].readyAt < cell.readyAt))
    && (cell.stack.Open? && !cell.life.Alive? ==> cell.stack.conts == [])
    && (cell.stack.Open? ==>
          forall k | k in cell.stack.conts :: ContOk(net, cells, k) && Subject(net, cells, k) == i)
    && (cell.action.Some? ==>
          && net[i].Continued? && cell.action == Some(net[i].parent)
          && cell.storage.Empty? && cell.stack.Open? && cell.calls == 0)
    && (cell.exec ==> cell.action.Some?)
    && cell.calls <= 1
    && (cell.calls == 1 ==> net[i].Continued? && net[i].runs)
    && (net[i].Continued? && !cell.life.Unborn? && cell.action.None? && cell.calls == 0 ==>
          !net[i].runs && cell.storage == HasError(BrokenPromise))
  }

  predicate TokenOk(s: State, i: Id)
    requires i < |s.cells|
  {
    var cell := s.cells[i];
    && Total(s, Token(i)) <= 1
    && (cell.life.Unborn? || cell.stack.Consumed? ==> Total(s, Token(i)) == 0)
    && (s.strong[i] > 0 && cell.stack.Open? ==> Total(s, Token(i)) == 1)
  }

  ghost predicate Counted(s: State) {
    forall i: Id :: s.strong[i] == Total(s, Strong(i))
  }

  ghost predicate LiveOk(s: State) {
    forall i: Id | s.strong[i] > 0 :: i < |s.cells| && s.cells[i].life.Alive?
  }

  ghost predicate Safe(net: Net, s: State) {
    && |s.cells| == |net|
    && Counted(s)
    && LiveOk(s)
    && (forall i: Id | i < |net| :: TokenOk(s, i))
    && (forall i: Id | i < |net| :: CellOk(net, s.cells, s.clock, i))
    && (forall k | 0 <= k < |s.act| :: ActOk(net, s.cells, s.act[k]))
  }

  /** The fields of a cell the holder of its token relies on. */
  predicate SameCore(a: Cell, b: Cell) {
    && a.life.Unborn? == b.life.Unborn? && a.storage == b.storage && a.exec == b.exec && a.action == b.action
    && a.calls == b.calls && a.stack.Open? == b.stack.Open? && a.readyAt == b.readyAt
  }

  /** What no step ever takes back: birth, a stored result, readiness. */
  predicate Grows(a: Cell, b: Cell) {
    && (!a.life.Unborn? ==> !b.life.Unborn?)
    && (!a.storage.Empty? ==> b.storage == a.storage)
    && (a.stack.Consumed? ==> b.stack.Consumed? && b.readyAt == a.readyAt && !a.life.Unborn?)
  }

  /** What every step but the destructor leaves of a cell. */
  predicate Keeps(a: Cell, b: Cell) {
    && Grows(a, b)
    && (a.life.Alive? ==> b.life.Alive?)
    && (a.stack.Open? && b.stack.Open? ==> forall k | k in a.stack.conts :: k in b.stack.conts)
  }

  ghost predicate AllGrow(s: State, s': State) {
    |s'.cells| == |s.cells| && forall i: Id | i < |s.cells| :: Grows(s.cells[i], s'.cells[i])
  }

  ghost predicate AllKeep(s: State, s': State) {
    |s'.cells| == |s.cells| && forall i: Id | i < |s.cells| :: Keeps(s.cells[i], s'.cells[i])
  }

  lemma ContKept(net: Net, cells: seq<Cell>, i: Id, cell: Cell, k: Continuation)
    requires i < |net| == |cells| && Grows(cells[i], cell)
    requires ContOk(net, cells, k)
    requires SameCore(cells[i], cell) || One(ContItem(k), Token(i)) == 0
    ensures ContOk(net, cells[i := cell], k)
    ensures Subject(net, cells[i := cell], k) == Subject(net, cells, k)
    ensures Fired(net, cells, k) ==> Fired(net, cells[i := cell], k)
  {
  }

  lemma ActKept(net: Net, cells: seq<Cell>, i: Id, cell: Cell, a: Activity)
    requires i < |net| == |cells| && Grows(cells[i], cell)
    requires ActOk(net, cells, a)
    requires SameCore(cells[i], cell) || Count(a, Token(i)) == 0
    ensures ActOk(net, cells[i := cell], a)
  {
    match a
    case Invoking(k) => ContKept(net, cells, i, cell, k);
    case Draining(j, ks) =>
      forall k | k in ks ensures Fired(net, cells[i := cell], k) {
        var n :| 0 <= n < |ks| && ks[n] == k;
        ContsHave(ks, n);
        ContKept(net, cells, i, cell, k);
      }
    case _ =>
  }

  lemma CellKept(net: Net, cells: seq<Cell>, clock: nat, i: Id, cell: Cell, clock': nat, j: Id)
    requires i < |net| == |cells| && j < |net| && j != i && Grows(cells[i], cell) && clock <= clock'
    requires CellOk(net, cells, clock, j)
    requires SameCore(cells[i], cell) ||
             (cells[j].stack.Open? ==> ContCount(cells[j].stack.conts, Token(i)) == 0)
    ensures CellOk(net, cells[i := cell], clock', j)
  {
    if cells[j].stack.Open? {
      var ks := cells[j].stack.conts;
      forall k | k in ks
        ensures ContOk(net, cells[i := cell], k) && Subject(net, cells[i := cell], k) == j
      {
        var n :| 0 <= n < |ks| && ks[n] == k;
        ContsHave(ks, n);
        ContKept(net, cells, i, cell, k);
      }
    }
  }

  /** How one step changes the count of x: `tok` for the token of i, and the strong
      references that came and went. */
  function Change(x: Item, i: Id, tok: int, up: multiset<Id>, down: multiset<Id>): int {
    match x
    case Token(j) => if j == i then tok else 0
    case Strong(j) => var gained: int := up[j]; gained - down[j]
  }

  ghost predicate Moves(s: State, s': State, i: Id, tok: int, up: multiset<Id>, down: multiset<Id>) {
    forall x: Item :: Total(s', x) == Total(s, x) + Change(x, i, tok, up, down)
  }

  /** Counts and liveness after a step whose balance is known. */
  lemma CountsFrame(net: Net, s: State, s': State, i: Id, tok: int, up: multiset<Id>, down: multiset<Id>)
    requires Counted(s) && LiveOk(s) && i < |s.cells| == |s'.cells|
    requires Moves(s, s', i, tok, up, down) && s'.strong == s.strong + up - down
    requires forall j: Id | j in up :: s.strong[j] > 0 || j == i
    requires forall j: Id | j != i && j < |s.cells| :: s'.cells[j] == s.cells[j]
    requires s'.strong[i] > 0 ==> s'.cells[i].life.Alive?
    ensures Counted(s') && LiveOk(s')
    ensures forall j: Id | s'.strong[j] > 0 :: s.strong[j] > 0 || j == i
  {
    forall j: Id ensures s'.strong[j] == Total(s', Strong(j)) {
      assert Total(s', Strong(j)) == Total(s, Strong(j)) + Change(Strong(j), i, tok, up, down);
    }
  }

  lemma CellsFrame(net: Net, s: State, s': State, k: nat, i: Id, tok: int, up: multiset<Id>, down: multiset<Id>)
    requires k < |s.act| && i < |net| == |s.cells| == |s'.cells| && s'.cells == s.cells[i := s'.cells[i]]
    requires s.clock <= s'.clock && Grows(s.cells[i], s'.cells[i])
    requires SameCore(s.cells[i], s'.cells[i]) || Total(s, Token(i)) == Count(s.act[k], Token(i))
    requires Moves(s, s', i, tok, up, down)
    requires forall j: Id | s'.strong[j] > 0 :: s.strong[j] > 0 || j == i
    requires forall j: Id | j < |net| :: TokenOk(s, j) && CellOk(net, s.cells, s.clock, j)
    ensures forall j: Id | j < |net| && j != i :: TokenOk(s', j) && CellOk(net, s'.cells, s'.clock, j)
  {
    forall j: Id | j < |net| && j != i ensures TokenOk(s', j) && CellOk(net, s'.cells, s'.clock, j) {
      assert TokenOk(s, j) && CellOk(net, s.cells, s.clock, j);
      assert Total(s', Token(j)) == Total(s, Token(j)) + Change(Token(j), i, tok, up, down);
      ActAndCell(s, k, j, Token(i));
      CellKept(net, s.cells, s.clock, i, s'.cells[i], s'.clock, j);
    }
  }

  lemma ActsFrame(net: Net, s: State, s': State, k: nat, new_: seq<Activity>, i: Id)
    requires k < |s.act| && i < |net| == |s.cells| == |s'.cells| && s'.cells == s.cells[i := s'.cells[i]]
    requires s'.act == Splice(s.act, k, new_) && Grows(s.cells[i], s'.cells[i])
    requires SameCore(s.cells[i], s'.cells[i]) || Total(s, Token(i)) == Count(s.act[k], Token(i))
    requires forall m | 0 <= m < |s.act| :: ActOk(net, s.cells, s.act[m])
    requires forall a | a in new_ :: ActOk(net, s'.cells, a)
    ensures forall m | 0 <= m < |s'.act| :: ActOk(net, s'.cells, s'.act[m])
  {
    forall m | 0 <= m < |s'.act| ensures ActOk(net, s'.cells, s'.act[m]) {
      if k <= m < k + |new_| {
        assert s'.act[m] in new_;
      } else {
        var n := if m < k then m else m - |new_| + 1;
        assert s'.act[m] == s.act[n];
        TwoActs(s.act, k, n, Token(i));
        ActKept(net, s.cells, i, s'.cells[i], s.act[n]);
      }
    }
  }

  /** What is known about activity k and cell i, apart from the rest of the state. */
  ghost predicate Here(net: Net, s: State, k: nat, i: Id) {
    && k < |s.act| && i < |net| == |s.cells|
    && ActOk(net, s.cells, s.act[k]) && TokenOk(s, i) && CellOk(net, s.cells, s.clock, i)
    && Count(s.act[k], Token(i)) <= Total(s, Token(i)) && (s.strong[i] > 0 ==> s.cells[i].life.Alive?)
  }

  /** A step that replaces activity k and rewrites cell i, and is right at both places. */
  ghost predicate Local(net: Net, s: State, s': State, k: nat, new_: seq<Activity>, i: Id,
                        tok: int, up: multiset<Id>, down: multiset<Id>) {
    && k < |s.act| && i < |net| == |s.cells| == |s'.cells|
    && s'.cells == s.cells[i := s'.cells[i]]
    && s'.act == Splice(s.act, k, new_) && s.clock <= s'.clock
    && Keeps(s.cells[i], s'.cells[i])
    && (SameCore(s.cells[i], s'.cells[i]) || Total(s, Token(i)) == Count(s.act[k], Token(i)))
    && Moves(s, s', i, tok, up, down) && s'.strong == s.strong + up - down
    && (forall j: Id | j in up :: s.strong[j] > 0 || j == i)
    && (s'.strong[i] > 0 ==> s'.cells[i].life.Alive?)
    && TokenOk(s', i)
    && CellOk(net, s'.cells, s'.clock, i)
    && (forall a | a in new_ :: ActOk(net, s'.cells, a))
  }

  /** What is right locally is right of the whole. */
  lemma StepFrame(net: Net, s: State, s': State, k: nat, new_: seq<Activity>, i: Id,
                  tok: int, up: multiset<Id>, down: multiset<Id>)
    requires Safe(net, s) && Local(net, s, s', k, new_, i, tok, up, down)
    ensures Safe(net, s') && AllKeep(s, s')
  {
    forall j: Id | j < |net| ensures Keeps(s.cells[j], s'.cells[j]) {
      assert CellOk(net, s.cells, s.clock, j);
    }
    CountsFrame(net, s, s', i, tok, up, down);
    CellsFrame(net, s, s', k, i, tok, up, down);
    ActsFrame(net, s, s', k, new_, i);
  }

  /** The balance of a step follows from what happened at its two places. */
  lemma LocalBalance(s: State, s': State, k: nat, new_: seq<Activity>, i: Id,
                     tok: int, up: multiset<Id>, down: multiset<Id>)
    requires k < |s.act| && i < |s.cells| == |s'.cells| && |new_| <= 3
    requires s'.cells == s.cells[i := s'.cells[i]] && s'.act == Splice(s.act, k, new_)
    requires forall x: Item :: Few(new_, x) + CellCount(s'.cells[i], x)
                            == Count(s.act[k], x) + CellCount(s.cells[i], x) + Change(x, i, tok, up, down)
    ensures Moves(s, s', i, tok, up, down)
  {
    forall x: Item ensures Total(s', x) == Total(s, x) + Change(x, i, tok, up, down) {
      Balance(s, s', k, new_, i, x);
      assert Few(new_, x) + CellCount(s'.cells[i], x)
          == Count(s.act[k], x) + CellCount(s.cells[i], x) + Change(x, i, tok, up, down);
    }
  }

  /** A step that leaves every cell as it is. */
  lemma Swap(net: Net, s: State, s': State, k: nat, new_: seq<Activity>, i: Id,
             tok: int, up: multiset<Id>, down: multiset<Id>)
    requires Here(net, s, k, i) && |new_| <= 3
    requires s'.cells == s.cells && s'.act == Splice(s.act, k, new_) && s'.clock == s.clock
    requires s'.strong == s.strong + up - down && (forall j: Id | j in up :: s.strong[j] > 0)
    requires forall x: Item :: Few(new_, x) == Count(s.act[k], x) + Change(x, i, tok, up, down)
    requires tok == 0 || (tok == -1 && s.strong[i] == 0)
    requires forall a | a in new_ :: ActOk(net, s.cells, a)
    ensures Local(net, s, s', k, new_, i, tok, up, down)
  {
    assert s'.cells == s.cells[i := s'.cells[i]];
    LocalBalance(s, s', k, new_, i, tok, up, down);
    assert Total(s', Token(i)) == Total(s, Token(i)) + Change(Token(i), i, tok, up, down);
  }
}
