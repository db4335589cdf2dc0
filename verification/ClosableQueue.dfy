/** The closable queue as an object, and the worker loop that drains it. While pop sleeps the
    mutex is free and other threads take turns on the queue. */
module ClosableQueue {

  datatype View<T> = View(items: seq<T>, closed: bool)

  /** What others did while a pop was asleep: closing comes last, and what they took leaves
      from the front. */
  datatype Turn<T> = Turn(pushed: seq<T>, taken: nat, closes: bool)

  function Least(a: nat, b: nat): nat { if a < b then a else b }

  function Taken<T>(v: View<T>, t: Turn<T>): View<T> {
    var items := if v.closed then v.items else v.items + t.pushed;
    View(items[Least(t.taken, |items|)..], v.closed || t.closes)
  }

  /** How many items the others take in a turn. */
  function Lost<T>(v: View<T>, t: Turn<T>): nat {
    Least(t.taken, |v.items| + if v.closed then 0 else |t.pushed|)
  }

  /** A turn is pushes, pops and a close, one at a time: a push appends to an open queue and is
      nothing on a closed one ... */
  lemma PushFirst<T>(v: View<T>, x: T, t: Turn<T>)
    ensures Taken(v, t.(pushed := [x] + t.pushed)) == Taken(if v.closed then v else View(v.items + [x], false), t)
    ensures Lost(v, t.(pushed := [x] + t.pushed)) == Lost(if v.closed then v else View(v.items + [x], false), t)
  {
    if !v.closed {
      assert v.items + ([x] + t.pushed) == (v.items + [x]) + t.pushed;
    }
  }

  /** ... a pop takes the front if there is one ... */
  lemma PopFirst<T>(v: View<T>, taken: nat, closes: bool)
    ensures v.items != [] ==>
              var w := View(v.items[1..], v.closed);
              && Taken(v, Turn([], taken + 1, closes)) == Taken(w, Turn([], taken, closes))
              && Lost(v, Turn([], taken + 1, closes)) == 1 + Lost(w, Turn([], taken, closes))
    ensures v.items == [] ==>
              && Taken(v, Turn([], taken, closes)) == Taken(v, Turn([], 0, closes)) && Lost(v, Turn([], taken, closes)) == 0
  {
    if v.items != [] && taken < |v.items| {
      assert v.items[taken + 1..] == v.items[1..][taken..];
    }
  }

  /** ... and a close closes. */
  lemma CloseLast<T>(v: View<T>)
    ensures Taken(v, Turn([], 0, false)) == v && Taken(v, Turn([], 0, true)) == View(v.items, true)
    ensures Lost(v, Turn([], 0, false)) == 0 && Lost(v, Turn([], 0, true)) == 0
  {
  }

  function After<T>(v: View<T>, turns: seq<Turn<T>>): View<T> {
    if turns == [] then v else Taken(After(v, turns[..|turns| - 1]), turns[|turns| - 1])
  }

  lemma Unfold<T>(v: View<T>, turns: seq<Turn<T>>, k: nat)
    requires k < |turns|
    ensures After(v, turns[..k + 1]) == Taken(After(v, turns[..k]), turns[k])
    ensures AllLost(v, turns[..k + 1]) == AllLost(v, turns[..k]) + Lost(After(v, turns[..k]), turns[k])
  {
    assert turns[..k + 1][..k] == turns[..k];
  }

  /** Once closed, the queue only shrinks from the front, whatever the others do. */
  lemma {:induction false} ClosedShrinks<T>(v: View<T>, turns: seq<Turn<T>>)
    requires v.closed
    ensures var w := After(v, turns); w.closed && |w.items| <= |v.items| && w.items == v.items[|v.items| - |w.items|..]
  {
    if turns != [] {
      ClosedShrinks(v, turns[..|turns| - 1]);
    }
  }

  function AllLost<T>(v: View<T>, turns: seq<Turn<T>>): nat {
    if turns == [] then 0
    else
      var before := turns[..|turns| - 1];
      AllLost(v, before) + Lost(After(v, before), turns[|turns| - 1])
  }

  datatype Popped<T> = Got(item: T) | Finished | StillAsleep

  /** One round of a worker's loop: what the others did, all told, while it ran its last task and
      waited for the mutex, and their turns while it sleeps in `pop`. */
  datatype Round<T> = Round(meanwhile: Turn<T>, asleep: seq<Turn<T>>)

  /** How the loop ended: the stop flag was set, the queue had run dry, or it is still in `pop`. */
  datatype End = Stopped | RanDry | Waiting

  /** The others only push and close. */
  ghost predicate TakesNothing<T>(turns: seq<Turn<T>>) { forall t | t in turns :: t.taken == 0 }

  ghost predicate Alone<T>(rounds: seq<Round<T>>) {
    forall r | r in rounds :: r.meanwhile.taken == 0 && TakesNothing(r.asleep)
  }

  /** Each of these tasks was accepted at its position, in this order, between two moments. */
  predicate InOrder<T(==)>(ran: seq<T>, positions: seq<nat>, arrived: seq<T>, from: nat, to: nat) {
    && |positions| == |ran| && to <= |arrived|
    && (ran != [] ==>
          var k := |ran| - 1;
          && from <= positions[k] < to && ran[k] == arrived[positions[k]]
          && InOrder(ran[..k], positions[..k], arrived, from, positions[k]))
  }

  lemma {:induction false} NoMore<T>(ran: seq<T>, positions: seq<nat>, was: seq<T>, arrived: seq<T>, from: nat, to: nat,
                                     next: nat)
    requires InOrder(ran, positions, was, from, to) && was <= arrived && to <= next <= |arrived|
    ensures InOrder(ran, positions, arrived, from, next)
  {
    if ran != [] {
      var k := |ran| - 1;
      NoMore(ran[..k], positions[..k], was, arrived, from, positions[k], positions[k]);
    }
  }

  lemma OneMore<T>(ran: seq<T>, positions: seq<nat>, was: seq<T>, arrived: seq<T>, from: nat, to: nat, next: nat)
    requires InOrder(ran, positions, was, from, to) && was <= arrived && from <= to < next <= |arrived|
    ensures InOrder(ran + [arrived[next - 1]], positions + [next - 1], arrived, from, next)
  {
    NoMore(ran, positions, was, arrived, from, to, next - 1);
    assert (ran + [arrived[next - 1]])[..|ran|] == ran && (positions + [next - 1])[..|ran|] == positions;
  }

  /** These tasks were accepted in this order between two moments, at different positions. */
  ghost predicate Ordered<T>(ran: seq<T>, arrived: seq<T>, from: nat, to: nat) {
    exists positions: seq<nat> :: InOrder(ran, positions, arrived, from, to)
  }

  /** As many tasks as there are places between two moments are all that were accepted there. */
  lemma {:induction false} NoGaps<T>(ran: seq<T>, positions: seq<nat>, arrived: seq<T>, from: nat, to: nat)
    requires InOrder(ran, positions, arrived, from, to) && from <= to
    ensures |ran| <= to - from && (|ran| == to - from ==> ran == arrived[from..to])
  {
    if ran != [] {
      var k := |ran| - 1;
      NoGaps(ran[..k], positions[..k], arrived, from, positions[k]);
      assert ran == ran[..k] + [ran[k]];
    }
  }

  /** The number of turns a sleeper lets pass: it goes on at the first moment it can. */
  function First<T>(v: View<T>, turns: seq<Turn<T>>): (at: nat)
    ensures at <= |turns|
    decreases |turns|
  {
    if turns == [] || v.closed || v.items != [] then 0 else 1 + First(Taken(v, turns[0]), turns[1..])
  }

  lemma {:induction false} AfterFirst<T>(v: View<T>, turns: seq<Turn<T>>, k: nat)
    requires turns != [] && k < |turns|
    ensures After(v, turns[..k + 1]) == After(Taken(v, turns[0]), turns[1..][..k])
  {
    Unfold(v, turns, k);
    if k == 0 {
      assert turns[..0] == [] && turns[1..][..0] == [];
    } else {
      AfterFirst(v, turns, k - 1);
      Unfold(Taken(v, turns[0]), turns[1..], k - 1);
    }
  }

  /** Whoever lets pass exactly the turns before which the queue is open and empty is that sleeper. */
  lemma {:induction false} FirstIs<T>(v: View<T>, turns: seq<Turn<T>>, at: nat)
    requires at <= |turns| && forall k | 0 <= k < at :: After(v, turns[..k]) == View([], false)
    requires at == |turns| || After(v, turns[..at]) != View([], false)
    ensures First(v, turns) == at
    decreases |turns|
  {
    assert turns[..0] == [];
    if at > 0 {
      assert After(v, turns[..0]) == View([], false);
      forall k | 0 <= k < at - 1 ensures After(Taken(v, turns[0]), turns[1..][..k]) == View([], false) {
        AfterFirst(v, turns, k);
      }
      AfterFirst(v, turns, at - 1);
      FirstIs(Taken(v, turns[0]), turns[1..], at - 1);
    } else {
      assert turns == [] || v != View([], false);
    }
  }

  /** What a worker finds in a round, and how much the others take in it. */
  function Seen<T>(v: View<T>, round: Round<T>): View<T> {
    var w := Taken(v, round.meanwhile);
    After(w, round.asleep[..First(w, round.asleep)])
  }

  function Taking<T>(v: View<T>, round: Round<T>): nat {
    var w := Taken(v, round.meanwhile);
    Lost(v, round.meanwhile) + AllLost(w, round.asleep[..First(w, round.asleep)])
  }

  /** How much they take from round i on while the worker goes on, which is until it finds nothing. */
  function TakingAll<T>(v: View<T>, rounds: seq<Round<T>>, i: nat): nat
    decreases |rounds| - i
  {
    if i >= |rounds| then 0
    else
      var w := Seen(v, rounds[i]);
      Taking(v, rounds[i]) + if w.items == [] then 0 else TakingAll(View(w.items[1..], w.closed), rounds, i + 1)
  }

  lemma {:induction false} NothingLost<T>(v: View<T>, turns: seq<Turn<T>>)
    requires TakesNothing(turns)
    ensures AllLost(v, turns) == 0
  {
    if turns != [] {
      assert turns[|turns| - 1] in turns;
      NothingLost(v, turns[..|turns| - 1]);
    }
  }

  lemma {:induction false} AloneTakesAll<T>(v: View<T>, rounds: seq<Round<T>>, i: nat)
    requires Alone(rounds)
    ensures TakingAll(v, rounds, i) == 0
    decreases |rounds| - i
  {
    if i < |rounds| {
      var w := Taken(v, rounds[i].meanwhile);
      assert rounds[i] in rounds;
      NothingLost(w, rounds[i].asleep[..First(w, rounds[i].asleep)]);
      var found := Seen(v, rounds[i]);
      if found.items != [] {
        AloneTakesAll(View(found.items[1..], found.closed), rounds, i + 1);
      }
    }
  }

  /** The tasks run are accepted tasks in order, what left the queue is what was run and what the
      others took, and while they take nothing none is missed. */
  ghost predicate Accounted<T>(v: View<T>, rounds: seq<Round<T>>, ran: seq<T>, arrived: seq<T>, from: nat, to: nat) {
    && Ordered(ran, arrived, from, to) && to == from + |ran| + TakingAll(v, rounds, 0)
    && (Alone(rounds) ==> from <= to <= |arrived| && ran == arrived[from..to])
  }

  /** After i rounds in which it found something. */
  ghost predicate Sofar<T>(start: View<T>, rounds: seq<Round<T>>, i: nat, view: View<T>, ran: seq<T>, arrived: seq<T>,
                           from: nat, to: nat)
  {
    && i == |ran| <= |rounds| && from + i <= to && Ordered(ran, arrived, from, to)
    && to + TakingAll(view, rounds, i) == from + i + TakingAll(start, rounds, 0)
  }

  lemma RoundGot<T>(start: View<T>, rounds: seq<Round<T>>, i: nat, view: View<T>, ran: seq<T>, was: seq<T>, from: nat,
                    to: nat, arrived: seq<T>, next: nat, item: T, after: View<T>)
    requires i < |rounds| && Sofar(start, rounds, i, view, ran, was, from, to) && was <= arrived
    requires Seen(view, rounds[i]).items != []
    requires after == View(Seen(view, rounds[i]).items[1..], Seen(view, rounds[i]).closed)
    requires next == to + Taking(view, rounds[i]) + 1 <= |arrived| && item == arrived[next - 1]
    ensures Sofar(start, rounds, i + 1, after, ran + [item], arrived, from, next)
  {
    var positions: seq<nat> :| InOrder(ran, positions, was, from, to);
    OneMore(ran, positions, was, arrived, from, to, next);
  }

  lemma RoundMissed<T>(start: View<T>, rounds: seq<Round<T>>, i: nat, view: View<T>, ran: seq<T>, was: seq<T>, from: nat,
                       to: nat, arrived: seq<T>, next: nat)
    requires i < |rounds| && Sofar(start, rounds, i, view, ran, was, from, to)
    requires Seen(view, rounds[i]).items == [] && was <= arrived
    requires next == to + Taking(view, rounds[i]) <= |arrived|
    ensures Accounted(start, rounds, ran, arrived, from, next)
  {
    var positions: seq<nat> :| InOrder(ran, positions, was, from, to);
    NoMore(ran, positions, was, arrived, from, to, next);
    AloneMisses(start, rounds, ran, positions, arrived, from, next);
  }

  lemma AllRounds<T>(start: View<T>, rounds: seq<Round<T>>, view: View<T>, ran: seq<T>, arrived: seq<T>, from: nat, to: nat)
    requires Sofar(start, rounds, |rounds|, view, ran, arrived, from, to)
    ensures Accounted(start, rounds, ran, arrived, from, to)
  {
    var positions: seq<nat> :| InOrder(ran, positions, arrived, from, to);
    AloneMisses(start, rounds, ran, positions, arrived, from, to);
  }

  lemma AloneMisses<T>(v: View<T>, rounds: seq<Round<T>>, ran: seq<T>, positions: seq<nat>, arrived: seq<T>, from: nat, to: nat)
    requires InOrder(ran, positions, arrived, from, to) && to == from + |ran| + TakingAll(v, rounds, 0)
    ensures Accounted(v, rounds, ran, arrived, from, to)
  {
    if Alone(rounds) {
      AloneTakesAll(v, rounds, 0);
      NoGaps(ran, positions, arrived, from, to);
    }
  }

  /** All but the last function object held so far were destroyed. */
  predicate Hands<T(==)>(idle: T, ran: seq<T>, destroyed: seq<T>, task: T)
  {
    if ran == [] then destroyed == [] && task == idle
    else
      var k, d := |ran| - 1, |destroyed| - 1;
      task == ran[k] && destroyed != [] && Hands(idle, ran[..k], destroyed[..d], destroyed[d])
  }

  lemma {:induction false} HandsMean<T>(idle: T, ran: seq<T>, destroyed: seq<T>, task: T)
    requires Hands(idle, ran, destroyed, task)
    ensures destroyed + [task] == [idle] + ran && destroyed == ([idle] + ran)[..|ran|]
  {
    if ran != [] {
      var k, d := |ran| - 1, |destroyed| - 1;
      HandsMean(idle, ran[..k], destroyed[..d], destroyed[d]);
      assert ran == ran[..k] + [ran[k]] && destroyed == destroyed[..d] + [destroyed[d]];
    }
  }

  lemma Discarded<T>(idle: T, ran: seq<T>, destroyed: seq<T>, task: T, item: T)
    requires Hands(idle, ran, destroyed, task)
    ensures Hands(idle, ran + [item], destroyed + [task], item)
  {
    assert (ran + [item])[..|ran|] == ran && (destroyed + [task])[..|destroyed|] == destroyed;
  }

  class Queue<T(==)> {
    var queue: seq<T>
    var closed: bool
    /** Everything ever accepted, and how much of it was taken out. */
    ghost var arrived: seq<T>
    ghost var removed: nat

    ghost predicate Valid()
      reads this
    {
      removed <= |arrived| && queue == arrived[removed..]
    }

    function Contents(): View<T>
      reads this
    {
      View(queue, closed)
    }

    constructor ()
      ensures Contents() == View([], false) && Valid() && arrived == []
    {
      queue, closed, arrived, removed := [], false, [], 0;
    }

    /** A value pushed into a closed queue is destroyed with the parameter. */
    method Push(val: T)
      requires Valid()
      modifies this
      ensures Valid() && removed == old(removed)
      ensures Contents() == if old(closed) then old(Contents()) else View(old(queue) + [val], false)
      ensures Contents() == Taken(old(Contents()), Turn([val], 0, false))
    {
      if closed {
        return;
      }
      queue := queue + [val];
      arrived := arrived + [val];
    }

    method Close()
      requires Valid()
      modifies this
      ensures Valid() && arrived == old(arrived) && Contents() == View(old(queue), true)
      ensures Contents() == Taken(old(Contents()), Turn([], 0, true))
    {
      closed := true;
    }

    method Interfere(t: Turn<T>)
      requires Valid()
      modifies this
      ensures Valid() && old(arrived) <= arrived && old(removed) <= removed
      ensures Contents() == Taken(old(Contents()), t) && removed == old(removed) + Lost(old(Contents()), t)
    {
      if !closed {
        queue := queue + t.pushed;
        arrived := arrived + t.pushed;
      }
      removed := removed + Least(t.taken, |queue|);
      queue := queue[Least(t.taken, |queue|)..];
      closed := closed || t.closes;
    }

    /** cv_.wait: the others have turns until the queue is closed or not empty. */
    method Await(turns: seq<Turn<T>>) returns (at: nat)
      requires Valid()
      modifies this
      ensures at <= |turns| && Contents() == After(old(Contents()), turns[..at])
      ensures forall k | 0 <= k < at :: After(old(Contents()), turns[..k]) == View([], false)
      ensures closed || queue != [] || at == |turns|
      ensures Valid() && old(arrived) <= arrived && removed == old(removed) + AllLost(old(Contents()), turns[..at])
    {
      at := 0;
      assert turns[..0] == [];
      while !(closed || queue != []) && at < |turns|
        invariant at <= |turns| && Contents() == After(old(Contents()), turns[..at])
        invariant forall k | 0 <= k < at :: After(old(Contents()), turns[..k]) == View([], false)
        invariant Valid() && old(arrived) <= arrived && removed == old(removed) + AllLost(old(Contents()), turns[..at])
      {
        Unfold(old(Contents()), turns, at);
        Interfere(turns[at]);
        at := at + 1;
      }
    }

    /** pop(dest): `left` is what dest holds afterwards, `gone` what was destroyed with the
        front slot, and `at` the number of turns the others had before the call went on. */
    method Pop(dest: T, turns: seq<Turn<T>>) returns (r: Popped<T>, left: T, gone: seq<T>, at: nat)
      requires Valid()
      modifies this
      ensures at <= |turns|
      ensures var v := After(old(Contents()), turns[..at]);
              match r
              case Got(item) => v.items != [] && item == left == v.items[0] && gone == [dest]
                                && Contents() == View(v.items[1..], v.closed)
              case Finished => v == View([], true) && Contents() == v && left == dest && gone == []
              case StillAsleep => v == View([], false) && Contents() == v && left == dest && gone == []
                                  && at == |turns|
      ensures forall k | 0 <= k < at :: After(old(Contents()), turns[..k]) == View([], false)
      ensures Valid() && old(arrived) <= arrived
      ensures removed == old(removed) + AllLost(old(Contents()), turns[..at]) + if r.Got? then 1 else 0
      ensures r.Got? ==> arrived[removed - 1] == r.item
    {
      at := Await(turns);
      left, gone := dest, [];
      if !closed && queue == [] {
        return StillAsleep, left, gone, at;
      }
      if closed && queue == [] {
        return Finished, left, gone, at;
      }
      left, gone := queue[0], [dest];
      queue := queue[1..];
      removed := removed + 1;
      return Got(left), left, gone, at;
    }

    /** One round: the others go on, then `pop`. */
    method Next(task: T, round: Round<T>) returns (r: Popped<T>, left: T, gone: seq<T>)
      requires Valid()
      modifies this
      ensures Valid() && old(arrived) <= arrived
      ensures var v := Seen(old(Contents()), round);
              match r
              case Got(item) => v.items != [] && item == left == v.items[0] && gone == [task]
                                && Contents() == View(v.items[1..], v.closed)
              case Finished => v == View([], true) && queue == [] && closed && left == task && gone == []
              case StillAsleep => v == View([], false) && queue == [] && !closed && left == task && gone == []
      ensures removed == old(removed) + Taking(old(Contents()), round) + if r.Got? then 1 else 0
      ensures r.Got? ==> arrived[removed - 1] == r.item
    {
      ghost var v := Contents();
      Interfere(round.meanwhile);
      ghost var w := Contents();
      var at;
      r, left, gone, at := Pop(task, round.asleep);
      FirstIs(w, round.asleep, at);
    }

    /** process_queue of one worker among any number of others and of producers; the stop flag is
        first seen set after |rounds| rounds. What it runs are accepted tasks in the order they were
        accepted, each once; what left the queue is what it ran and what the others took, so while
        they take nothing it misses none. It leaves for the flag, or when the queue is closed and
        empty, and every function object it took is destroyed by then. */
    method ProcessQueue(idle: T, rounds: seq<Round<T>>)
      returns (ran: seq<T>, destroyed: seq<T>, end: End)
      requires Valid()
      modifies this
      ensures Valid() && old(arrived) <= arrived
      ensures Accounted(old(Contents()), rounds, ran, arrived, old(removed), removed)
      ensures match end
              case Stopped => |ran| == |rounds|
              case RanDry => |ran| < |rounds| && closed && queue == []
              case Waiting => |ran| < |rounds| && !closed && queue == []
      ensures destroyed == if end.Waiting? then ([idle] + ran)[..|ran|] else [idle] + ran
    {
      var task, tests := idle, 0;
      ran, destroyed, end := [], [], Stopped;
      ghost var start, view, from := Contents(), Contents(), removed;
      assert InOrder([], [], arrived, removed, removed);
      while tests < |rounds| && end.Stopped?
        invariant Valid() && view == Contents() && Hands(idle, ran, destroyed, task) && old(arrived) <= arrived
        invariant end.Stopped? ==> Sofar(start, rounds, tests, view, ran, arrived, from, removed)
        invariant !end.Stopped? ==>
                    Accounted(start, rounds, ran, arrived, from, removed) && |ran| < |rounds| && view == View([], end.RanDry?)
        decreases |rounds| - tests, end.Stopped?
      {
        ghost var was, to, held := arrived, removed, task;
        var r, gone;
        r, task, gone := Next(task, rounds[tests]);
        ghost var after := Contents();
        if r.Got? {
          RoundGot(start, rounds, tests, view, ran, was, from, to, arrived, removed, task, after);
          Discarded(idle, ran, destroyed, held, task);
          ran := ran + [task];
          destroyed := destroyed + gone;
          tests := tests + 1;
        } else {
          RoundMissed(start, rounds, tests, view, ran, was, from, to, arrived, removed);
          end := if r.Finished? then RanDry else Waiting;
        }
        view := after;
      }
      if end.Stopped? {
        AllRounds(start, rounds, view, ran, arrived, from, removed);
      }
      HandsMean(idle, ran, destroyed, task);
      if !end.Waiting? {
        destroyed := destroyed + [task];
      }
    }
  }
}
