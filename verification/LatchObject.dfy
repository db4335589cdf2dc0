/** The latch as an object: its two counters, the waiting loops, and the notifications sent.
    While a caller sleeps other threads take turns in critical sections of the same object; the
    caller looks at the counters again only after one of them notified it or it woke by itself,
    and when it gets the mutex. That it never sleeps through its moment is what the notifications
    are for. */
module LatchObject {

  /** One section of another thread: count_down up to the release of the mutex, and its notify_all
      after that; the start of a wait or count_down_and_wait; the end of a wait. */
  datatype Section = CountsDown(n: nat) | Notifies | Waits | CountsDownAndWaits | Leaves

  /** `spurious` wakes the sleeper for no reason afterwards; `looks` lets it have the mutex, if it
      is awake. */
  datatype Turn = Turn(what: Section, spurious: bool, looks: bool)

  /** `owed` counts the count_downs that took the counter to zero and have not notified yet. */
  datatype View = View(counter: nat, waiters: nat, owed: nat)

  /** What a section does while `self` of the waiters, the caller or nobody, is asleep here. A
      section that cannot take place is passed over. */
  function Taken(v: View, what: Section, self: nat): View {
    match what
    case CountsDown(n) =>
      if n > v.counter then v else v.(counter := v.counter - n, owed := v.owed + if n == v.counter then 1 else 0)
    case Notifies => if v.owed == 0 then v else v.(owed := v.owed - 1)
    case Waits => if v.counter == 0 then v else v.(waiters := v.waiters + 1)
    case CountsDownAndWaits =>
      if v.counter == 0 then v
      else v.(counter := v.counter - 1, waiters := v.waiters + if v.counter == 1 then 0 else 1)
    case Leaves => if v.counter > 0 || v.waiters <= self then v else v.(waiters := v.waiters - 1)
  }

  /** The start of a wait counts the caller, unless the counter is at zero: then it comes and goes.
      The others leave only at zero. */
  lemma ComesAndGoes(v: View, self: nat)
    requires self <= v.waiters
    ensures Taken(v, Waits, self).waiters == v.waiters + if v.counter == 0 then 0 else 1
    ensures Taken(v, Leaves, self).waiters == v.waiters - if v.counter == 0 && v.waiters > self then 1 else 0
    ensures v.counter == 0 ==> Taken(v.(waiters := v.waiters + 1), Leaves, self) == v
    ensures forall what: Section | what.Waits? || what.Leaves? ::
              Taken(v, what, self).counter == v.counter && Taken(v, what, self).owed == v.owed
  {
  }

  function After(v: View, turns: seq<Turn>, self: nat): View {
    if turns == [] then v else Taken(After(v, turns[..|turns| - 1], self), turns[|turns| - 1].what, self)
  }

  lemma Unfold(v: View, turns: seq<Turn>, k: nat, self: nat)
    requires k < |turns|
    ensures After(v, turns[..k + 1], self) == Taken(After(v, turns[..k], self), turns[k].what, self)
  {
    assert turns[..k + 1][..k] == turns[..k];
  }

  class Latch {
    var counter: nat
    var waiters: nat
    var owed: nat
    /** How often notify_one and notify_all were called. */
    var ones: nat
    var alls: nat

    function Now(): View
      reads this
    {
      View(counter, waiters, owed)
    }

    constructor (count: nat)
      ensures Now() == View(count, 0, 0) && ones == 0 && alls == 0
    {
      counter, waiters, owed, ones, alls := count, 0, 0, 0, 0;
    }

    method IsReady() returns (ready: bool)
      ensures ready <==> counter == 0
    {
      ready := counter == 0;
    }

    /** Up to the release of the mutex. */
    method Subtract(n: nat)
      requires n <= counter
      modifies this`counter, this`owed
      ensures counter == old(counter) - n && owed == old(owed) + if counter == 0 then 1 else 0
    {
      counter := counter - n;
      if counter == 0 {
        owed := owed + 1;
      }
    }

    method NotifyAll()
      requires owed > 0
      modifies this`owed, this`alls
      ensures owed == old(owed) - 1 && alls == old(alls) + 1
    {
      owed, alls := owed - 1, alls + 1;
    }

    method CountDown(n: nat)
      requires n <= counter
      modifies this
      ensures Now() == View(old(counter) - n, old(waiters), old(owed)) && ones == old(ones)
      ensures var v := Taken(old(Now()), CountsDown(n), 0); Now() == if v.counter == 0 then Taken(v, Notifies, 0) else v
      ensures alls == old(alls) + if counter == 0 then 1 else 0
    {
      Subtract(n);
      if counter > 0 {
        return;
      }
      NotifyAll();
    }

    /** The end of a wait: the last to leave notifies, once. */
    method Leave()
      requires waiters > 0
      modifies this`waiters, this`ones
      ensures waiters == old(waiters) - 1 && (counter == 0 ==> Now() == Taken(old(Now()), Leaves, 0))
      ensures ones == old(ones) + if waiters == 0 then 1 else 0
    {
      waiters := waiters - 1;
      if waiters == 0 {
        ones := ones + 1;
      }
    }

    /** The start of count_down_and_wait: whoever takes the counter to zero does not wait. */
    method Arrive() returns (waits: bool)
      requires counter > 0
      modifies this`counter, this`waiters, this`alls
      ensures counter == old(counter) - 1 && (waits <==> counter > 0)
      ensures waiters == old(waiters) + (if waits then 1 else 0) && alls == old(alls) + if waits then 0 else 1
      ensures Now() == Taken(old(Now()), CountsDownAndWaits, 0)
    {
      waiters := waiters + 1;
      counter := counter - 1;
      waits := counter != 0;
      if !waits {
        waiters := waiters - 1;
        alls := alls + 1;
      }
    }

    /** A turn of another thread, and whether it notified a sleeper. */
    method Other(what: Section, self: nat) returns (notified: bool)
      requires self <= waiters && (what.Waits? ==> self > 0)
      modifies this
      ensures Now() == Taken(old(Now()), what, self) && self <= waiters && alls >= old(alls)
      ensures notified <==> alls != old(alls) || ones != old(ones)
      ensures counter == 0 < old(counter) ==> notified || owed > 0
      ensures owed < old(owed) ==> notified
      ensures waiters == 0 < old(waiters) ==> notified
      ensures self > 0 ==> ones == old(ones)
    {
      var o, a := ones, alls;
      match what {
        case CountsDown(n) =>
          if n <= counter {
            Subtract(n);
          }
        case Notifies =>
          if owed > 0 {
            NotifyAll();
          }
        case Waits =>
          waiters := waiters + 1;
          if counter == 0 {
            Leave();
          }
        case CountsDownAndWaits =>
          if counter > 0 {
            var waits := Arrive();
          }
        case Leaves =>
          if counter == 0 && waiters > self {
            Leave();
          }
      }
      notified := alls != a || ones != o;
    }

    /** cv_.wait on the counter. Evaluating the predicate only when awake loses nothing: a caller
        that comes back does so at zero; one that is not back at zero is awake or still owed a
        notification, and if it could look last, it is owed one. */
    method SleepUntilZero(turns: seq<Turn>) returns (back: bool, awake: bool, at: nat)
      requires waiters > 0
      modifies this
      ensures at <= |turns| && Now() == After(old(Now()), turns[..at], 1) && waiters > 0 && ones == old(ones)
      ensures if back then counter == 0 else at == |turns| && (counter == 0 ==> awake || owed > 0)
      ensures !back && turns != [] && turns[|turns| - 1].looks ==> !awake
      ensures old(counter) == 0 ==> back && at == 0
    {
      at, awake, back := 0, false, counter == 0;
      assert turns[..0] == [];
      while !back && at < |turns|
        invariant at <= |turns| && Now() == After(old(Now()), turns[..at], 1) && waiters > 0 && ones == old(ones)
        invariant if back then counter == 0 else counter == 0 ==> awake || owed > 0
        invariant !back && at > 0 && turns[at - 1].looks ==> !awake
        invariant old(counter) == 0 ==> back && at == 0
      {
        Unfold(old(Now()), turns, at, 1);
        var notified := Other(turns[at].what, 1);
        awake := awake || notified || turns[at].spurious;
        if awake && turns[at].looks {
          back, awake := counter == 0, false;
        }
        at := at + 1;
      }
    }

    /** A caller that is back found the counter at zero and is not counted any more. One that is
        not back stays counted, and does not sleep at zero unless it is owed a notification. */
    method Wait(turns: seq<Turn>) returns (back: bool, awake: bool, at: nat)
      modifies this
      ensures at <= |turns|
      ensures var v := After(View(old(counter), old(waiters) + 1, old(owed)), turns[..at], 1);
              v.waiters > 0 && Now() == if back then v.(waiters := v.waiters - 1) else v
      ensures if back then counter == 0 else at == |turns| && (counter == 0 ==> awake || owed > 0)
      ensures !back && turns != [] && turns[|turns| - 1].looks ==> !awake
      ensures ones == old(ones) + if back && waiters == 0 then 1 else 0
    {
      waiters := waiters + 1;
      back, awake, at := SleepUntilZero(turns);
      if back {
        Leave();
      }
    }

    /** The caller that takes the counter to zero does not wait and wakes everybody; the others
        wait like `wait`. */
    method CountDownAndWait(turns: seq<Turn>) returns (back: bool, awake: bool, at: nat)
      requires counter > 0
      modifies this
      ensures at <= |turns|
      ensures old(counter) == 1 ==>
                back && Now() == View(0, old(waiters), old(owed)) && alls == old(alls) + 1 && ones == old(ones)
      ensures old(counter) > 1 ==>
                && (var v := After(View(old(counter) - 1, old(waiters) + 1, old(owed)), turns[..at], 1);
                    v.waiters > 0 && Now() == if back then v.(waiters := v.waiters - 1) else v)
                && (if back then counter == 0 else at == |turns| && (counter == 0 ==> awake || owed > 0))
                && (!back && turns != [] && turns[|turns| - 1].looks ==> !awake)
                && ones == old(ones) + if back && waiters == 0 then 1 else 0
    {
      var waits := Arrive();
      if !waits {
        return true, false, 0;
      }
      back, awake, at := SleepUntilZero(turns);
      if back {
        Leave();
      }
    }

    /** The destructor, during which no call begins: it comes back when no waiter is left, and the
        one notification of the last to leave is enough, as it never sleeps without waiters. */
    method Destroy(turns: seq<Turn>) returns (back: bool, awake: bool, at: nat)
      requires forall t | t in turns :: t.what.Leaves? || t.what.Notifies?
      modifies this
      ensures at <= |turns| && Now() == After(old(Now()), turns[..at], 0)
      ensures if back then waiters == 0 else at == |turns| && (waiters == 0 ==> awake)
      ensures !back && turns != [] && turns[|turns| - 1].looks ==> !awake && waiters > 0
    {
      at, awake, back := 0, false, waiters == 0;
      assert turns[..0] == [];
      while !back && at < |turns|
        invariant at <= |turns| && Now() == After(old(Now()), turns[..at], 0)
        invariant if back then waiters == 0 else waiters == 0 ==> awake
        invariant !back && at > 0 && turns[at - 1].looks ==> !awake
      {
        Unfold(old(Now()), turns, at, 0);
        assert turns[at] in turns;
        var notified := Other(turns[at].what, 0);
        awake := awake || notified || turns[at].spurious;
        if awake && turns[at].looks {
          back, awake := waiters == 0, false;
        }
        at := at + 1;
      }
    }
  }
}
