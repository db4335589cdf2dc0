/** The monad laws of the unwrapping `next`, for what is finally observed. */
module MonadLaws {
  import opened Outcomes
  import opened NetworkModel
  import opened NetworkSafety
  import opened Denotation
  import opened Confluence

  /** State c was made by `m.next(f)` with an executor that runs its tasks. */
  ghost predicate IsNext(net: Net, c: Id, m: Id, f: int -> CallResult) {
    && c < |net| && net[c].Continued? && net[c].parent == m && net[c].skipsErrors && net[c].runs
    && forall v :: net[c].f(Value(v)) == f(v)
  }

  /** Two states that finally yield the same, or both nothing. */
  ghost predicate Alike(net: Net, i: Id, j: Id) {
    forall o :: Denotes(net, i, o) <==> Denotes(net, j, o)
  }

  lemma NextDenotes(net: Net, c: Id, m: Id, f: int -> CallResult, o: Outcome)
    requires IsNext(net, c, m, f)
    ensures Denotes(net, c, o) <==>
            (o.Failure? && Denotes(net, m, o)) || exists v :: Denotes(net, m, Value(v)) && Resolves(net, f(v), o)
  {
    if Denotes(net, c, o) {
      var n: nat :| Den(net, c, n) == Some(o);
      var om := Den(net, m, n - 1).value;
      assert Denotes(net, m, om);
      if om.Value? && f(om.v).ReturnedFuture? {
        assert Den(net, f(om.v).id, n - 1) == Some(o);
      }
      if om.Value? {
        assert Resolves(net, f(om.v), o);
      }
    }
    if o.Failure? && Denotes(net, m, o) {
      DenotesCall(net, c, o);
    }
    if v :| Denotes(net, m, Value(v)) && Resolves(net, f(v), o) {
      DenotesCall(net, c, Value(v));
      if f(v).ReturnedFuture? {
        DenotesInner(net, c, f(v).id, o);
      }
    }
  }

  /** make_ready_future(a).next(f) yields what f(a) stands for. */
  lemma LeftIdentity(net: Net, ready: Id, c: Id, a: int, f: int -> CallResult, o: Outcome)
    requires Denotes(net, ready, Value(a)) && IsNext(net, c, ready, f)
    ensures Denotes(net, c, o) <==> Resolves(net, f(a), o)
  {
    NextDenotes(net, c, ready, f, o);
    forall x | Denotes(net, ready, x) ensures x == Value(a) {
      DenotesUnique(net, ready, x, Value(a));
    }
  }

  /** m.next(make_ready_future) is m. */
  lemma RightIdentity(net: Net, m: Id, c: Id, f: int -> CallResult)
    requires IsNext(net, c, m, f)
    requires forall v | Denotes(net, m, Value(v)) :: f(v).ReturnedFuture? && Denotes(net, f(v).id, Value(v))
    ensures Alike(net, c, m)
  {
    forall o ensures Denotes(net, c, o) <==> Denotes(net, m, o) {
      NextDenotes(net, c, m, f, o);
      if o.Value? && Denotes(net, m, o) {
        assert Resolves(net, f(o.v), o);
      }
      if v :| Denotes(net, m, Value(v)) && Resolves(net, f(v), o) {
        DenotesUnique(net, f(v).id, Value(v), o);
      }
    }
  }

  /** The function `v => f(v).next(g)`. What f throws it throws, a plain value counts as a ready
      future, and `next` on a valid future makes one whose state is a `next` on that state; but
      on an invalid future `next` throws no_state. */
  ghost predicate IsComposed(net: Net, fg: int -> CallResult, f: int -> CallResult, g: int -> CallResult) {
    forall v ::
      match f(v)
      case ReturnedFuture(j) => fg(v).ReturnedFuture? && IsNext(net, fg(v).id, j, g)
      case Returned(w) => forall o :: Resolves(net, fg(v), o) <==> Resolves(net, g(w), o)
      case Threw(e) => fg(v) == Threw(e)
      case ReturnedInvalid => fg(v) == Threw(NoSharedState)
  }

  lemma ComposedResolves(net: Net, f: int -> CallResult, g: int -> CallResult, fg: int -> CallResult,
                         v: int, o: Outcome)
    requires IsComposed(net, fg, f, g) && !f(v).ReturnedInvalid?
    ensures Resolves(net, fg(v), o) <==>
            || (o.Failure? && Resolves(net, f(v), o))
            || exists w :: Resolves(net, f(v), Value(w)) && Resolves(net, g(w), o)
  {
    match f(v)
    case ReturnedFuture(j) => NextDenotes(net, fg(v).id, j, g, o);
    case Returned(w) => assert Resolves(net, f(v), Value(w));
    case _ =>
  }

  lemma Reassociates(net: Net, m: Id, c: Id, d: Id, e: Id,
                     f: int -> CallResult, g: int -> CallResult, fg: int -> CallResult)
    requires IsNext(net, c, m, f) && IsNext(net, d, c, g)
    requires IsNext(net, e, m, fg) && IsComposed(net, fg, f, g)
    requires forall v | Denotes(net, m, Value(v)) :: !f(v).ReturnedInvalid?
    ensures Alike(net, d, e)
  {
    forall o ensures Denotes(net, d, o) <==> Denotes(net, e, o) {
      NextDenotes(net, d, c, g, o);
      NextDenotes(net, e, m, fg, o);
      NextDenotes(net, c, m, f, o);
      if w :| Denotes(net, c, Value(w)) && Resolves(net, g(w), o) {
        NextDenotes(net, c, m, f, Value(w));
        var v :| Denotes(net, m, Value(v)) && Resolves(net, f(v), Value(w));
        ComposedResolves(net, f, g, fg, v, o);
      }
      if v :| Denotes(net, m, Value(v)) && Resolves(net, f(v), o) && o.Failure? {
        ComposedResolves(net, f, g, fg, v, o);
      }
      if v :| Denotes(net, m, Value(v)) && Resolves(net, fg(v), o) {
        ComposedResolves(net, f, g, fg, v, o);
        if w :| Resolves(net, f(v), Value(w)) && Resolves(net, g(w), o) {
          NextDenotes(net, c, m, f, Value(w));
        }
      }
    }
  }

  /** Where the law breaks: on the left the invalid future f returned is unwrapped to
      broken_promise, on the right `next` on it throws no_state. */
  lemma InvalidBreaks(net: Net, m: Id, c: Id, d: Id, e: Id,
                      f: int -> CallResult, g: int -> CallResult, fg: int -> CallResult, v: int)
    requires IsNext(net, c, m, f) && IsNext(net, d, c, g)
    requires IsNext(net, e, m, fg) && IsComposed(net, fg, f, g)
    requires Denotes(net, m, Value(v)) && f(v).ReturnedInvalid?
    ensures Denotes(net, d, Failure(BrokenPromise)) && Denotes(net, e, Failure(NoSharedState)) && !Alike(net, d, e)
  {
    NextDenotes(net, c, m, f, Failure(BrokenPromise));
    assert Resolves(net, f(v), Failure(BrokenPromise));
    NextDenotes(net, d, c, g, Failure(BrokenPromise));
    NextDenotes(net, e, m, fg, Failure(NoSharedState));
    assert Resolves(net, fg(v), Failure(NoSharedState));
    if Denotes(net, d, Failure(NoSharedState)) {
      DenotesUnique(net, d, Failure(BrokenPromise), Failure(NoSharedState));
    }
  }

  /** m.next(f).next(g) and m.next(v => f(v).next(g)) yield the same if and only if f does not
      return an invalid future for the value m stands for. */
  lemma Associativity(net: Net, m: Id, c: Id, d: Id, e: Id,
                      f: int -> CallResult, g: int -> CallResult, fg: int -> CallResult)
    requires IsNext(net, c, m, f) && IsNext(net, d, c, g)
    requires IsNext(net, e, m, fg) && IsComposed(net, fg, f, g)
    ensures Alike(net, d, e) <==> forall v | Denotes(net, m, Value(v)) :: !f(v).ReturnedInvalid?
  {
    if v :| Denotes(net, m, Value(v)) && f(v).ReturnedInvalid? {
      InvalidBreaks(net, m, c, d, e, f, g, fg, v);
    } else {
      Reassociates(net, m, c, d, e, f, g, fg);
    }
  }

  const INVALID: int -> CallResult := (v: int) => ReturnedInvalid
  const SAME: int -> CallResult := (v: int) => Returned(v)
  const THROWS: int -> CallResult := (v: int) => Threw(NoSharedState)

  function Lifted(f: int -> CallResult): Outcome -> CallResult {
    (o: Outcome) => match o case Value(v) => f(v) case Failure(e) => Threw(e)
  }

  /** A kept promise, the two sides of the law on it, and a function that returns future{}. */
  const BROKEN_LAW: Net :=
    [Promised(Some(Value(0))), Continued(0, true, Lifted(INVALID), true),
     Continued(1, true, Lifted(SAME), true), Continued(0, true, Lifted(THROWS), true)]

  /** The input that tells the two sides apart. */
  lemma NotAssociative()
    ensures IsNext(BROKEN_LAW, 1, 0, INVALID) && IsNext(BROKEN_LAW, 2, 1, SAME) && IsNext(BROKEN_LAW, 3, 0, THROWS)
    ensures IsComposed(BROKEN_LAW, THROWS, INVALID, SAME) && !Alike(BROKEN_LAW, 2, 3)
  {
    assert Den(BROKEN_LAW, 0, 1) == Some(Value(0));
    InvalidBreaks(BROKEN_LAW, 0, 1, 2, 3, INVALID, SAME, THROWS, 0);
  }

  /** Alike states cannot be told apart by whoever holds both when all has come to rest. */
  lemma AlikeObserved(net: Net, steps: seq<Step>, i: Id, j: Id)
    requires Alike(net, i, j)
    requires var s := Run(net, Initial(net), steps); AtRest(net, s) && s.strong[i] > 0 && s.strong[j] > 0
    ensures var s := Run(net, Initial(net), steps);
            && (Ready(s.cells, i) <==> Ready(s.cells, j))
            && (Ready(s.cells, i) ==>
                  exists d, e, o :: Follow(s.cells, i, d) == Some(o) && Follow(s.cells, j, e) == Some(o))
  {
    var s := Run(net, Initial(net), steps);
    Confluent(net, steps, i);
    Confluent(net, steps, j);
    if Ready(s.cells, i) {
      var o :| Denotes(net, i, o);
      var d :| Follow(s.cells, i, d) == Some(o);
      var e :| Follow(s.cells, j, e) == Some(o);
    }
  }
}
