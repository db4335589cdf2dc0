/** `when_all_state` and `when_any_state` as objects: the loop of `make` over inputs that other
    threads complete between one subscription and the next. Shared states behind the inputs are
    numbered; `futures[i]` is the one behind input i, and several inputs may share one. */
module CombinatorObjects {
  import Combinators

  /** The positions below k whose input is s, the latest first. */
  function Positions(futures: seq<nat>, k: nat, s: nat): seq<nat>
    requires k <= |futures|
  {
    if k == 0 then []
    else (if futures[k - 1] == s then [k - 1] else []) + Positions(futures, k - 1, s)
  }

  predicate IsReady(ready: seq<bool>, s: nat) { s < |ready| && ready[s] }

  /** How many of the first k inputs are not ready. */
  function Unready(futures: seq<nat>, k: nat, ready: seq<bool>): (count: nat)
    requires k <= |futures|
    ensures count <= k
  {
    if k == 0 then 0
    else Unready(futures, k - 1, ready) + if IsReady(ready, futures[k - 1]) then 0 else 1
  }

  lemma {:induction false} PositionsMean(futures: seq<nat>, k: nat, s: nat)
    requires k <= |futures|
    ensures forall i :: i in Positions(futures, k, s) <==> 0 <= i < k && futures[i] == s
  {
    if k > 0 {
      PositionsMean(futures, k - 1, s);
    }
  }

  /** Completing s settles exactly its own positions. */
  lemma {:induction false} Completing(futures: seq<nat>, k: nat, ready: seq<bool>, s: nat)
    requires k <= |futures| && s < |ready| && !ready[s]
    ensures Unready(futures, k, ready[s := true]) + |Positions(futures, k, s)| == Unready(futures, k, ready)
  {
    if k > 0 {
      Completing(futures, k - 1, ready, s);
    }
  }

  lemma {:induction false} NoneUnready(futures: seq<nat>, k: nat, ready: seq<bool>)
    requires k <= |futures|
    ensures Unready(futures, k, ready) == 0 <==> forall i | 0 <= i < k :: IsReady(ready, futures[i])
  {
    if k > 0 {
      NoneUnready(futures, k - 1, ready);
    }
  }

  lemma {:induction false} SomeReady(futures: seq<nat>, k: nat, ready: seq<bool>)
    requires k <= |futures|
    ensures Unready(futures, k, ready) < k <==> exists i :: 0 <= i < k && IsReady(ready, futures[i])
  {
    if k > 0 {
      SomeReady(futures, k - 1, ready);
    }
  }

  /** The stack of a shared state while k positions are subscribed. */
  predicate StackOk(futures: seq<nat>, k: nat, ready: seq<bool>, stacks: seq<seq<nat>>, s: nat)
    requires k <= |futures| && s < |ready| == |stacks|
  {
    stacks[s] == if ready[s] then [] else Positions(futures, k, s)
  }

  predicate Stacked(futures: seq<nat>, k: nat, ready: seq<bool>, stacks: seq<seq<nat>>) {
    && k <= |futures| && |ready| == |stacks|
    && (forall i | 0 <= i < |futures| :: futures[i] < |ready|)
    && forall s | 0 <= s < |ready| :: StackOk(futures, k, ready, stacks, s)
  }

  /** Pushing position k on the stack of its input. */
  lemma Pushed(futures: seq<nat>, k: nat, ready: seq<bool>, stacks: seq<seq<nat>>)
    requires Stacked(futures, k, ready, stacks) && k < |futures|
    ensures var s := futures[k];
            Stacked(futures, k + 1, ready, if ready[s] then stacks else stacks[s := [k] + stacks[s]])
  {
    var s := futures[k];
    var stacks' := if ready[s] then stacks else stacks[s := [k] + stacks[s]];
    var k' := k + 1;
    forall t | 0 <= t < |ready| ensures StackOk(futures, k', ready, stacks', t) {
      assert StackOk(futures, k, ready, stacks, t);
      assert Positions(futures, k + 1, t) == (if t == s then [k] else []) + Positions(futures, k, t);
    }
  }

  lemma Popped(futures: seq<nat>, k: nat, ready: seq<bool>, stacks: seq<seq<nat>>, s: nat)
    requires Stacked(futures, k, ready, stacks) && s < |ready| && !ready[s]
    ensures stacks[s] == Positions(futures, k, s)
    ensures Stacked(futures, k, ready[s := true], stacks[s := []])
  {
    assert StackOk(futures, k, ready, stacks, s);
    var ready', stacks' := ready[s := true], stacks[s := []];
    forall t | 0 <= t < |ready| ensures StackOk(futures, k, ready', stacks', t) {
      assert StackOk(futures, k, ready, stacks, t);
    }
  }

  /** Exactly the states named in `turn` became ready. */
  predicate Completed(before: seq<bool>, turn: seq<nat>, after: seq<bool>) {
    |after| == |before| && forall s | 0 <= s < |before| :: after[s] <==> before[s] || s in turn
  }

  /** All states named in any of the turns. */
  function All(turns: seq<seq<nat>>): seq<nat> {
    if turns == [] then [] else All(turns[..|turns| - 1]) + turns[|turns| - 1]
  }

  lemma OneTurnMore(turns: seq<seq<nat>>, i: nat, before: seq<bool>, mid: seq<bool>, after: seq<bool>)
    requires i < |turns| && Completed(before, All(turns[..i]), mid) && Completed(mid, turns[i], after)
    ensures Completed(before, All(turns[..i + 1]), after)
  {
    assert turns[..i + 1][..i] == turns[..i];
  }

  class WhenAllState {
    const futures: seq<nat>
    var ready: seq<bool>
    var stacks: seq<seq<nat>>
    var remains: int
    var executions: nat

    /** k inputs are subscribed; `own` is 1 while make's own notify is still to come. */
    predicate Valid(k: nat, own: nat)
      reads this
    {
      && Stacked(futures, k, ready, stacks)
      && remains == Unready(futures, k, ready) + (|futures| - k) + own
      && executions == if remains == 0 then 1 else 0
    }

    constructor (futures: seq<nat>, states: nat)
      requires forall i | 0 <= i < |futures| :: futures[i] < states
      ensures this.futures == futures && |ready| == states && Valid(0, 1)
    {
      this.futures := futures;
      ready := seq(states, _ => false);
      stacks := seq(states, _ => []);
      remains := |futures| + 1;
      executions := 0;
    }

    method Notify()
      modifies this`remains, this`executions
      ensures remains == old(remains) - 1
      ensures executions == old(executions) + if remains == 0 then 1 else 0
    {
      remains := remains - 1;
      if remains != 0 {
        return;
      }
      executions := executions + 1;
    }

    /** Another thread completes s: it consumes the stack and runs what was on it, one
        notification for every position s was passed at. */
    method Complete(s: nat, ghost k: nat, ghost own: nat)
      requires Valid(k, own) && s < |ready|
      modifies this
      ensures Valid(k, own) && ready == old(ready)[s := true]
      ensures remains == old(remains) - if old(ready)[s] then 0 else |Positions(futures, k, s)|
    {
      if ready[s] {
        return;
      }
      var list := stacks[s];
      Popped(futures, k, ready, stacks, s);
      Completing(futures, k, ready, s);
      ready := ready[s := true];
      stacks := stacks[s := []];
      for p := 0 to |list|
        modifies this`remains, this`executions
        invariant remains == old(remains) - p
        invariant executions == if remains == 0 then 1 else 0
      {
        Notify();
      }
    }

    /** The shared states in `turn` are completed one after the other. */
    method CompleteEach(turn: seq<nat>, ghost k: nat, ghost own: nat)
      requires Valid(k, own)
      modifies this
      ensures Valid(k, own) && Completed(old(ready), turn, ready)
    {
      assert turn[..0] == [];
      for t := 0 to |turn|
        invariant Valid(k, own) && Completed(old(ready), turn[..t], ready)
      {
        assert turn[..t + 1] == turn[..t] + [turn[t]];
        if turn[t] < |ready| {
          Complete(turn[t], k, own);
        }
      }
      assert turn[..|turn|] == turn;
    }

    /** continuations().push on input i: on a stack already consumed the callback runs. */
    method Subscribe(i: nat)
      requires Valid(i, 1) && i < |futures|
      modifies this
      ensures Valid(i + 1, 1) && ready == old(ready)
    {
      var s := futures[i];
      Pushed(futures, i, ready, stacks);
      if ready[s] {
        Notify();
      } else {
        stacks := stacks[s := [i] + stacks[s]];
      }
    }

    /** The loop of `make` and its own notify; turns[i] are the shared states other threads
        complete before the i-th subscription. Whatever they do, afterwards the counter is the
        number of positions still unready and the result is ready exactly when all inputs are. */
    method Make(turns: seq<seq<nat>>)
      requires Valid(0, 1) && |turns| == |futures| + 1
      modifies this
      ensures Valid(|futures|, 0) && remains == Unready(futures, |futures|, ready)
      ensures executions == if forall i | 0 <= i < |futures| :: IsReady(ready, futures[i]) then 1 else 0
      ensures Completed(old(ready), All(turns), ready)
    {
      assert turns[..0] == [];
      for i := 0 to |futures|
        invariant Valid(i, 1) && Completed(old(ready), All(turns[..i]), ready)
      {
        ghost var mid := ready;
        CompleteEach(turns[i], i, 1);
        OneTurnMore(turns, i, old(ready), mid, ready);
        Subscribe(i);
      }
      ghost var mid := ready;
      CompleteEach(turns[|futures|], |futures|, 1);
      OneTurnMore(turns, |futures|, old(ready), mid, ready);
      assert turns[..|turns|] == turns;
      Notify();
      NoneUnready(futures, |futures|, ready);
    }
  }

  class WhenAnyState {
    const futures: seq<nat>
    var ready: seq<bool>
    var stacks: seq<seq<nat>>
    var flag: bool
    var index: nat
    var executions: nat
    /** The positions that have notified, in that order. */
    ghost var notified: seq<nat>

    /** k inputs are subscribed; every one of them that is ready has notified, and the first to do
        so is the winner. */
    ghost predicate Valid(k: nat)
      reads this
    {
      && Stacked(futures, k, ready, stacks)
      && |notified| + Unready(futures, k, ready) == k && (flag <==> notified != [])
      && (if flag then index == notified[0] < k && IsReady(ready, futures[index]) else index == Combinators.NO_INDEX)
      && executions == if flag then 1 else 0
    }

    constructor (futures: seq<nat>, states: nat)
      requires forall i | 0 <= i < |futures| :: futures[i] < states
      ensures this.futures == futures && |ready| == states && Valid(0)
    {
      this.futures := futures;
      ready := seq(states, _ => false);
      stacks := seq(states, _ => []);
      flag, index, executions, notified := false, Combinators.NO_INDEX, 0, [];
    }

    method Notify(pos: nat)
      modifies this`flag, this`index, this`executions, this`notified
      ensures flag && notified == old(notified) + [pos]
      ensures index == if old(flag) then old(index) else pos
      ensures executions == old(executions) + if old(flag) then 0 else 1
    {
      var won := !flag;
      flag := true;
      notified := notified + [pos];
      if !won {
        return;
      }
      index := pos;
      executions := executions + 1;
    }

    /** The loop over a consumed stack. */
    method NotifyEach(list: seq<nat>)
      requires flag <==> notified != []
      modifies this`flag, this`index, this`executions, this`notified
      ensures notified == old(notified) + list && (flag <==> notified != [])
      ensures index == if old(flag) || list == [] then old(index) else list[0]
      ensures executions == old(executions) + if flag && !old(flag) then 1 else 0
    {
      for p := 0 to |list|
        invariant notified == old(notified) + list[..p] && (flag <==> notified != [])
        invariant index == if old(flag) || p == 0 then old(index) else list[0]
        invariant executions == old(executions) + if flag && !old(flag) then 1 else 0
      {
        Notify(list[p]);
        assert list[..p + 1] == list[..p] + [list[p]];
      }
      assert list[..|list|] == list;
    }

    /** Another thread completes s; the first position it was passed at last wins, unless
        there is a winner already. */
    method Complete(s: nat, ghost k: nat)
      requires Valid(k) && s < |ready|
      modifies this
      ensures Valid(k) && ready == old(ready)[s := true]
      ensures old(flag) ==> flag && index == old(index)
      ensures !old(flag) && flag ==> futures[index] == s
      ensures old(notified) <= notified
    {
      if ready[s] {
        return;
      }
      var list := stacks[s];
      Popped(futures, k, ready, stacks, s);
      Completing(futures, k, ready, s);
      PositionsMean(futures, k, s);
      ready := ready[s := true];
      stacks := stacks[s := []];
      NotifyEach(list);
      if list != [] {
        assert list[0] in list;
      }
    }

    method CompleteEach(turn: seq<nat>, ghost k: nat)
      requires Valid(k)
      modifies this
      ensures Valid(k) && old(notified) <= notified && Completed(old(ready), turn, ready)
    {
      assert turn[..0] == [];
      for t := 0 to |turn|
        invariant Valid(k) && old(notified) <= notified && Completed(old(ready), turn[..t], ready)
      {
        assert turn[..t + 1] == turn[..t] + [turn[t]];
        if turn[t] < |ready| {
          Complete(turn[t], k);
        }
      }
      assert turn[..|turn|] == turn;
    }

    method Subscribe(i: nat)
      requires Valid(i) && i < |futures|
      modifies this
      ensures Valid(i + 1) && ready == old(ready) && old(notified) <= notified
    {
      var s := futures[i];
      Pushed(futures, i, ready, stacks);
      if ready[s] {
        Notify(i);
      } else {
        stacks := stacks[s := [i] + stacks[s]];
      }
    }

    /** The subscription loop with its running index. Afterwards the result is ready exactly
        when some input is, or there is none; the index names a ready input. */
    method Make(turns: seq<seq<nat>>)
      requires Valid(0) && |turns| == |futures| + 1
      modifies this
      ensures executions == if |futures| == 0 || exists i :: 0 <= i < |futures| && IsReady(ready, futures[i]) then 1 else 0
      ensures flag ==> index < |futures| && IsReady(ready, futures[index])
      ensures !flag ==> index == Combinators.NO_INDEX
      ensures |futures| > 0 ==> Valid(|futures|)
      ensures old(notified) <= notified && (flag ==> index == notified[0])
      ensures Completed(old(ready), All(turns), ready)
    {
      var idx := 0;
      assert turns[..0] == [];
      while idx < |futures|
        invariant idx <= |futures| && Valid(idx) && old(notified) <= notified && Completed(old(ready), All(turns[..idx]), ready)
      {
        ghost var mid := ready;
        CompleteEach(turns[idx], idx);
        OneTurnMore(turns, idx, old(ready), mid, ready);
        Subscribe(idx);
        idx := idx + 1;
      }
      ghost var mid := ready;
      CompleteEach(turns[|futures|], |futures|);
      OneTurnMore(turns, |futures|, old(ready), mid, ready);
      assert turns[..|turns|] == turns;
      SomeReady(futures, |futures|, ready);
      if idx == 0 {
        executions := executions + 1;
      }
    }
  }
}
