/** What each shared state of a network stands for, independent of any schedule. */
module Denotation {
  import opened Outcomes
  import opened NetworkModel

  /** The outcome of state i as far as `fuel` unfoldings show it. A self-referential
      network has none at any fuel. */
  function Den(net: Net, i: Id, fuel: nat): Option<Outcome>
    decreases fuel
  {
    if fuel == 0 || i >= |net| then None
    else match net[i]
      case Promised(r) => r
      case Continued(p, _, _, runs) =>
        match Den(net, p, fuel - 1)
        case None => None
        case Some(o) =>
          if !runs then Some(Failure(BrokenPromise))
          else match Call(net[i], o)
            case Returned(v) => Some(Value(v))
            case Threw(e) => Some(Failure(e))
            case ReturnedInvalid => Some(Failure(BrokenPromise))
            case ReturnedFuture(j) => Den(net, j, fuel - 1)
  }

  ghost predicate Denotes(net: Net, i: Id, o: Outcome) {
    exists fuel: nat :: Den(net, i, fuel) == Some(o)
  }

  /** State i resolves to whatever state j resolves to. */
  ghost predicate Delegates(net: Net, i: Id, j: Id) {
    && i < |net| && net[i].Continued? && net[i].runs
    && exists o :: Denotes(net, net[i].parent, o) && Call(net[i], o) == ReturnedFuture(j)
  }

  lemma {:induction false} DenMonotone(net: Net, i: Id, f: nat, g: nat)
    requires f <= g && Den(net, i, f).Some?
    ensures Den(net, i, g) == Den(net, i, f)
    decreases f
  {
    if net[i].Continued? {
      DenMonotone(net, net[i].parent, f - 1, g - 1);
      var o := Den(net, net[i].parent, f - 1).value;
      if net[i].runs && Call(net[i], o).ReturnedFuture? {
        DenMonotone(net, Call(net[i], o).id, f - 1, g - 1);
      }
    }
  }

  /** A state stands for at most one outcome. */
  lemma DenotesUnique(net: Net, i: Id, o: Outcome, o': Outcome)
    requires Denotes(net, i, o) && Denotes(net, i, o')
    ensures o == o'
  {
    var f: nat :| Den(net, i, f) == Some(o);
    var g: nat :| Den(net, i, g) == Some(o');
    if f <= g {
      DenMonotone(net, i, f, g);
    } else {
      DenMonotone(net, i, g, f);
    }
  }

  lemma DenotesCall(net: Net, i: Id, o: Outcome)
    requires i < |net| && net[i].Continued? && Denotes(net, net[i].parent, o)
    ensures !net[i].runs ==> Denotes(net, i, Failure(BrokenPromise))
    ensures net[i].runs ==>
              match Call(net[i], o)
              case Returned(v) => Denotes(net, i, Value(v))
              case Threw(e) => Denotes(net, i, Failure(e))
              case ReturnedInvalid => Denotes(net, i, Failure(BrokenPromise))
              case ReturnedFuture(j) => Delegates(net, i, j)
  {
    var f: nat :| Den(net, net[i].parent, f) == Some(o);
    assert Den(net, i, f + 1) == Den(net, i, f + 1);
  }

  lemma DenotesInner(net: Net, i: Id, j: Id, o: Outcome)
    requires Delegates(net, i, j) && Denotes(net, j, o)
    ensures Denotes(net, i, o)
  {
    var p := net[i].parent;
    var op :| Denotes(net, p, op) && Call(net[i], op) == ReturnedFuture(j);
    var f: nat :| Den(net, p, f) == Some(op);
    var g: nat :| Den(net, j, g) == Some(o);
    var m := if f <= g then g else f;
    DenMonotone(net, p, f, m);
    DenMonotone(net, j, g, m);
    assert Den(net, i, m + 1) == Some(o);
  }

  /** Unfolding a delegating state leads to the inner one with less fuel. */
  lemma DelegatesDen(net: Net, i: Id, j: Id, fuel: nat)
    requires Delegates(net, i, j) && Den(net, i, fuel).Some?
    ensures fuel > 0 && Den(net, j, fuel - 1) == Den(net, i, fuel)
  {
    var p := net[i].parent;
    var op :| Denotes(net, p, op) && Call(net[i], op) == ReturnedFuture(j);
    assert Denotes(net, p, Den(net, p, fuel - 1).value);
    DenotesUnique(net, p, op, Den(net, p, fuel - 1).value);
  }

  // The equations of the meaning

  /** What the result of a user function finally stands for. */
  ghost predicate Resolves(net: Net, r: CallResult, o: Outcome) {
    match r
    case Returned(v) => o == Value(v)
    case Threw(e) => o == Failure(e)
    case ReturnedInvalid => o == Failure(BrokenPromise)
    case ReturnedFuture(j) => Denotes(net, j, o)
  }

  /** A promise stands for what it is completed with. */
  lemma PromiseDenotes(net: Net, i: Id, x: Outcome)
    requires i < |net| && net[i].Promised?
    ensures Denotes(net, i, x) <==> net[i].result == Some(x)
  {
    assert Den(net, i, 1) == net[i].result;
  }

  /** A continuation whose executor destroys its task stands for broken_promise once its parent
      stands for anything. */
  lemma DroppedDenotes(net: Net, i: Id, x: Outcome)
    requires i < |net| && net[i].Continued? && !net[i].runs
    ensures Denotes(net, i, x) <==> x == Failure(BrokenPromise) && exists o :: Denotes(net, net[i].parent, o)
  {
    if Denotes(net, i, x) {
      var f: nat :| Den(net, i, f) == Some(x);
      assert Denotes(net, net[i].parent, Den(net, net[i].parent, f - 1).value);
    }
    if o :| Denotes(net, net[i].parent, o) {
      DenotesCall(net, i, o);
    }
  }

  /** `then`: its function is called for every outcome of the parent, an exception no less than a
      value, and the result stands for what the function makes of it. */
  lemma ThenDenotes(net: Net, i: Id, x: Outcome)
    requires i < |net| && net[i].Continued? && net[i].runs && !net[i].skipsErrors
    ensures Denotes(net, i, x) <==> exists o :: Denotes(net, net[i].parent, o) && Resolves(net, net[i].f(o), x)
  {
    if Denotes(net, i, x) {
      var n: nat :| Den(net, i, n) == Some(x);
      var o := Den(net, net[i].parent, n - 1).value;
      assert Denotes(net, net[i].parent, o);
      if net[i].f(o).ReturnedFuture? {
        assert Den(net, net[i].f(o).id, n - 1) == Some(x);
      }
      assert Resolves(net, net[i].f(o), x);
    }
    if o :| Denotes(net, net[i].parent, o) && Resolves(net, net[i].f(o), x) {
      DenotesCall(net, i, o);
      if net[i].f(o).ReturnedFuture? {
        DenotesInner(net, i, net[i].f(o).id, x);
      }
    }
  }

  /** The same for a given outcome of the parent. */
  lemma ThenDenotesFor(net: Net, i: Id, o: Outcome, x: Outcome)
    requires i < |net| && net[i].Continued? && net[i].runs && !net[i].skipsErrors && Denotes(net, net[i].parent, o)
    ensures Denotes(net, i, x) <==> Resolves(net, net[i].f(o), x)
  {
    ThenDenotes(net, i, x);
    forall y | Denotes(net, net[i].parent, y) ensures y == o {
      DenotesUnique(net, net[i].parent, o, y);
    }
  }
}
