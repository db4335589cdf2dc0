/** Where every token and every strong reference of a network is.

    A state that is not ready yet is carried forward by exactly one token: its promise,
    its subscription, its posted task, its running function, or the pending execute. The
    ledger counts the places of one item over all activities and cells. */
module NetworkLedger {
  import opened NetworkModel

  datatype Item = Token(id: Id) | Strong(id: Id)

  function One(a: Item, b: Item): nat { if a == b then 1 else 0 }

  function ContItem(k: Continuation): Item {
    match k
    case Schedule(c) => Token(c)
    case Forward(o) => Token(o)
    case Keep(i) => Strong(i)
  }

  function ContCount(ks: seq<Continuation>, x: Item): nat {
    if ks == [] then 0 else One(ContItem(ks[0]), x) + ContCount(ks[1..], x)
  }

  /** How often activity a carries or owns x. */
  function Count(a: Activity, x: Item): nat {
    match a
    case World => 0
    case Handle(i) => One(Strong(i), x)
    case Temp(i) => One(Strong(i), x)
    case Owner(p) => One(Token(p), x)
    case Subscribing(c) => One(Token(c), x) + One(Strong(c), x)
    case Linking(o, j) => One(Token(o), x) + One(Strong(o), x) + One(Strong(j), x)
    case Invoking(k) => One(ContItem(k), x)
    case Task(c) => One(Token(c), x)
    case Running(c, p, keeps) => One(Token(c), x) + One(Strong(c), x) + (if keeps then One(Strong(p), x) else 0)
    case Executing(i) => One(Token(i), x) + One(Strong(i), x)
    case Draining(i, ks) => One(Strong(i), x) + ContCount(ks, x)
  }

  function ActCount(act: seq<Activity>, x: Item): nat {
    if act == [] then 0 else Count(act[0], x) + ActCount(act[1..], x)
  }

  /** A cell owns references and queued callbacks only while it is alive. */
  function CellCount(cell: Cell, x: Item): nat {
    if !cell.life.Alive? then 0
    else
      (if cell.action.Some? then One(Strong(cell.action.value), x) else 0) +
      (if cell.storage.HasInner? then One(Strong(cell.storage.inner), x) else 0) +
      (if cell.stack.Open? then ContCount(cell.stack.conts, x) else 0)
  }

  function CellsCount(cells: seq<Cell>, x: Item): nat {
    if cells == [] then 0 else CellCount(cells[0], x) + CellsCount(cells[1..], x)
  }

  function Total(s: State, x: Item): nat {
    ActCount(s.act, x) + CellsCount(s.cells, x)
  }

  lemma {:induction false} ActCountAppend(a: seq<Activity>, b: seq<Activity>, x: Item)
    ensures ActCount(a + b, x) == ActCount(a, x) + ActCount(b, x)
  {
    if a == [] {
      assert a + b == b;
    } else {
      assert (a + b)[1..] == a[1..] + b;
      ActCountAppend(a[1..], b, x);
    }
  }

  lemma SpliceCount(act: seq<Activity>, k: nat, new_: seq<Activity>, x: Item)
    requires k < |act|
    ensures ActCount(Splice(act, k, new_), x) == ActCount(act, x) - Count(act[k], x) + ActCount(new_, x)
  {
    ActCountAppend(act[..k] + new_, act[k + 1..], x);
    ActCountAppend(act[..k], new_, x);
    ActCountAppend(act[..k], [act[k]] + act[k + 1..], x);
    assert act == act[..k] + ([act[k]] + act[k + 1..]);
    assert ([act[k]] + act[k + 1..])[1..] == act[k + 1..];
  }

  lemma {:induction false} CellUpdateCount(cells: seq<Cell>, i: nat, cell: Cell, x: Item)
    requires i < |cells|
    ensures CellsCount(cells[i := cell], x) == CellsCount(cells, x) - CellCount(cells[i], x) + CellCount(cell, x)
  {
    if i == 0 {
      assert cells[i := cell][1..] == cells[1..];
    } else {
      assert cells[i := cell][1..] == cells[1..][i - 1 := cell];
      CellUpdateCount(cells[1..], i - 1, cell, x);
    }
  }

  /** The count of at most three activities, spelt out. */
  function Few(act: seq<Activity>, x: Item): nat {
    (if |act| > 0 then Count(act[0], x) else 0) +
    (if |act| > 1 then Count(act[1], x) else 0) +
    (if |act| > 2 then Count(act[2], x) else 0)
  }

  lemma FewCount(act: seq<Activity>, x: Item)
    requires |act| <= 3
    ensures ActCount(act, x) == Few(act, x)
  {
    if |act| > 1 {
      assert act[1..][1..] == act[2..];
    }
  }

  /** Balance of a step: what the activity and the cell gave up, and what replaced it. */
  lemma Balance(s: State, s': State, k: nat, new_: seq<Activity>, i: Id, x: Item)
    requires k < |s.act| && i < |s.cells| == |s'.cells| && |new_| <= 3
    requires s'.cells == s.cells[i := s'.cells[i]] && s'.act == Splice(s.act, k, new_)
    ensures Total(s', x)
         == Total(s, x) - Count(s.act[k], x) - CellCount(s.cells[i], x) + Few(new_, x) + CellCount(s'.cells[i], x)
  {
    SpliceCount(s.act, k, new_, x);
    CellUpdateCount(s.cells, i, s'.cells[i], x);
    FewCount(new_, x);
  }

  lemma {:induction false} ActHas(act: seq<Activity>, k: nat, x: Item)
    requires k < |act|
    ensures Count(act[k], x) <= ActCount(act, x)
  {
    if k > 0 {
      ActHas(act[1..], k - 1, x);
    }
  }

  lemma {:induction false} CellsHave(cells: seq<Cell>, i: nat, x: Item)
    requires i < |cells|
    ensures CellCount(cells[i], x) <= CellsCount(cells, x)
  {
    if i > 0 {
      CellsHave(cells[1..], i - 1, x);
    }
  }

  lemma {:induction false} ContsHave(ks: seq<Continuation>, n: nat)
    requires n < |ks|
    ensures ContCount(ks, ContItem(ks[n])) > 0
  {
    if n > 0 {
      ContsHave(ks[1..], n - 1);
    }
  }

  /** Two places never hold more than the ledger's total. */
  lemma {:induction false} TwoActs(act: seq<Activity>, k: nat, m: nat, x: Item)
    requires k < |act| && m < |act| && k != m
    ensures Count(act[k], x) + Count(act[m], x) <= ActCount(act, x)
  {
    if k == 0 {
      ActHas(act[1..], m - 1, x);
    } else if m == 0 {
      ActHas(act[1..], k - 1, x);
    } else {
      TwoActs(act[1..], k - 1, m - 1, x);
    }
  }

  lemma ActAndCell(s: State, k: nat, i: nat, x: Item)
    requires k < |s.act| && i < |s.cells|
    ensures Count(s.act[k], x) + CellCount(s.cells[i], x) <= Total(s, x)
  {
    ActHas(s.act, k, x);
    CellsHave(s.cells, i, x);
  }

  /** A reference or token in the ledger is held by some activity or some cell. */
  lemma {:induction false} ActHolder(act: seq<Activity>, x: Item) returns (k: nat)
    requires ActCount(act, x) > 0
    ensures k < |act| && Count(act[k], x) > 0
  {
    if Count(act[0], x) > 0 {
      k := 0;
    } else {
      k := ActHolder(act[1..], x);
      k := k + 1;
    }
  }

  lemma {:induction false} CellHolder(cells: seq<Cell>, x: Item) returns (i: nat)
    requires CellsCount(cells, x) > 0
    ensures i < |cells| && CellCount(cells[i], x) > 0
  {
    if CellCount(cells[0], x) > 0 {
      i := 0;
    } else {
      i := CellHolder(cells[1..], x);
      i := i + 1;
    }
  }

  lemma {:induction false} ContHolder(ks: seq<Continuation>, x: Item) returns (n: nat)
    requires ContCount(ks, x) > 0
    ensures n < |ks| && x == ContItem(ks[n])
  {
    if x == ContItem(ks[0]) {
      n := 0;
    } else {
      n := ContHolder(ks[1..], x);
      n := n + 1;
    }
  }

  lemma {:induction false} NothingHeld(cells: seq<Cell>, x: Item)
    requires forall i | 0 <= i < |cells| :: CellCount(cells[i], x) == 0
    ensures CellsCount(cells, x) == 0
  {
    if cells != [] {
      NothingHeld(cells[1..], x);
    }
  }
}
