/** The once-consumable stack as the program's own objects: nodes on the heap whose `next`
    the compare-exchange loop rewrites, while other threads take turns in between. */
module OnceConsumableStack {
  import opened Outcomes
  import opened Sequences

  /** The atomic word `head_`, and the value of a node's `next`, which doubles as the
      expected value of the compare-exchange. */
  datatype Word = Nil | At(n: ListNode) | Marker

  class ListNode {
    var val: int
    var next: Word

    constructor (val: int)
      ensures this.val == val && next == Nil
    {
      this.val := val;
      next := Nil;
    }
  }

  /** The abstract object. */
  datatype View = Open(items: seq<int>) | Consumed

  /** What other threads did between two atomic steps of a push. */
  datatype Turn = Turn(pushed: seq<int>, consumed: bool)

  function Taken(v: View, t: Turn): View {
    if v.Consumed? || t.consumed then Consumed else Open(Rev(t.pushed) + v.items)
  }

  /** A turn that changes head_. */
  predicate Effective(v: View, t: Turn) {
    v.Open? && (t.consumed || t.pushed != [])
  }

  /** A turn is pushes, one at a time, and a consume: a push goes on top of an open stack and is
      refused by a consumed one. */
  lemma OneAtATime(v: View, x: int, t: Turn)
    ensures Taken(v, Turn([], false)) == v && Taken(v, Turn([], true)) == Consumed
    ensures Taken(v, t.(pushed := [x] + t.pushed)) == Taken(if v.Open? then Open([x] + v.items) else v, t)
  {
    if v.Open? && !t.consumed {
      assert Rev([x] + t.pushed) + v.items == Rev(t.pushed) + ([x] + v.items) by {
        assert ([x] + t.pushed)[1..] == t.pushed;
      }
    }
  }

  function After(v: View, turns: seq<Turn>): View {
    if turns == [] then v else Taken(After(v, turns[..|turns| - 1]), turns[|turns| - 1])
  }

  function Changes(v: View, turns: seq<Turn>): nat {
    if turns == [] then 0
    else
      var before := turns[..|turns| - 1];
      Changes(v, before) + if Effective(After(v, before), turns[|turns| - 1]) then 1 else 0
  }

  ghost predicate Linked(w: Word, chain: seq<ListNode>)
    reads chain
    decreases |chain|
  {
    if chain == [] then w == Nil else w == At(chain[0]) && Linked(chain[0].next, chain[1..])
  }

  ghost function Values(chain: seq<ListNode>): seq<int>
    reads chain
  {
    if chain == [] then [] else [chain[0].val] + Values(chain[1..])
  }

  class Stack {
    var head: Word
    ghost var chain: seq<ListNode>

    ghost predicate Valid()
      reads this, chain
    {
      if head.Marker? then chain == [] else Linked(head, chain)
    }

    ghost function Contents(): View
      reads this, chain
    {
      if head.Marker? then Consumed else Open(Values(chain))
    }

    constructor ()
      ensures Valid() && Contents() == Open([])
    {
      head := Nil;
      chain := [];
    }

    /** head_.compare_exchange_strong(node->next, node). */
    method CompareExchange(node: ListNode) returns (ok: bool)
      requires Valid() && node !in chain && !node.next.Marker?
      modifies this, node
      ensures Valid() && node.val == old(node.val)
      ensures ok <==> old(head) == old(node.next)
      ensures ok ==> chain == [node] + old(chain) && node.next == old(node.next)
                     && Contents() == Open([node.val] + old(Contents()).items) && old(Contents()).Open?
      ensures !ok ==> node.next == head == old(head) && chain == old(chain) && Contents() == old(Contents())
    {
      if head == node.next {
        head := At(node);
        chain := [node] + chain;
        return true;
      }
      node.next := head;
      return false;
    }

    /** Another thread's push that is not disturbed. */
    method PushOther(val: int, ghost mine: ListNode)
      requires Valid() && mine !in chain && !head.Marker?
      modifies this
      ensures Valid() && mine !in chain && Contents() == Open([val] + old(Contents()).items)
      ensures head.At? && fresh(head.n) && chain == [head.n] + old(chain)
    {
      var other := new ListNode(val);
      other.next := head;
      head := At(other);
      chain := [other] + chain;
    }

    method PushOthers(vals: seq<int>, ghost mine: ListNode)
      requires Valid() && mine !in chain && !head.Marker?
      modifies this
      ensures Valid() && mine !in chain && Contents() == Open(Rev(vals) + old(Contents()).items)
      ensures head == old(head) <==> vals == []
      ensures vals != [] ==> head.At? && fresh(head.n)
      decreases |vals|
    {
      if vals != [] {
        var last := |vals| - 1;
        ghost var before := Contents().items;
        PushOthers(vals[..last], mine);
        RevPrepend(vals, before);
        PushOther(vals[last], mine);
      }
    }

    /** The others' turn: they push their own nodes, or one of them consumes. */
    method Interfere(t: Turn, ghost mine: ListNode)
      requires Valid() && mine !in chain
      modifies this
      ensures Valid() && mine !in chain && Contents() == Taken(old(Contents()), t)
      ensures head == old(head) <==> !Effective(old(Contents()), t)
    {
      if !head.Marker? {
        PushOthers(t.pushed, mine);
        if t.consumed {
          head := Marker;
          chain := [];
        }
      }
    }

    /** push(forward_list<T> &node): load, then the compare-exchange loop, with the turns
        `others` of the other threads in between. `at` is the number of turns taken when
        the push took effect; `failures` counts lost exchanges. */
    method Push(node: ListNode, others: seq<Turn>) returns (ok: bool, at: nat, failures: nat)
      requires Valid() && node !in chain && node.next == Nil
      modifies this, node
      ensures Valid() && node.val == old(node.val) && at <= |others|
      ensures ok <==> After(old(Contents()), others[..at]).Open?
      ensures ok ==> Contents() == Open([node.val] + After(old(Contents()), others[..at]).items) && head == At(node)
      ensures !ok ==> Contents() == Consumed && node.next == Nil && node !in chain
      ensures failures <= Changes(old(Contents()), others[..at])
    {
      at, failures := 0, 0;
      ghost var v := Contents();
      assert others[..0] == [];
      if others != [] {
        Interfere(others[0], node);
        at := 1;
        Unfold(v, others, 0);
      }
      var current := head;
      if current == Marker {
        return false, at, failures;
      }
      node.next := current;
      while true
        invariant at <= |others| && Valid() && node !in chain && node.val == old(node.val)
        invariant Contents() == After(v, others[..at]) && v == old(Contents())
        invariant node.next == head && !head.Marker?
        invariant failures <= Changes(v, others[..at])
        decreases |others| - at
      {
        if at < |others| {
          Unfold(v, others, at);
          Interfere(others[at], node);
          at := at + 1;
        }
        ok := CompareExchange(node);
        if ok {
          return true, at, failures;
        }
        failures := failures + 1;
        if node.next == Marker {
          node.next := Nil;
          return false, at, failures;
        }
      }
    }

    /** push(val, alloc): the item moves into a fresh node, and back if the push fails.
        `left` is what the caller's variable holds afterwards. */
    method PushItem(val: int, others: seq<Turn>) returns (ok: bool, at: nat, left: Option<int>)
      requires Valid()
      modifies this
      ensures Valid() && at <= |others|
      ensures ok <==> After(old(Contents()), others[..at]).Open?
      ensures ok ==> left == None && Contents() == Open([val] + After(old(Contents()), others[..at]).items)
      ensures !ok ==> left == Some(val) && Contents() == Consumed
    {
      var node := new ListNode(val);
      var failures;
      ok, at, failures := Push(node, others);
      left := if ok then None else Some(node.val);
    }

    /** consume(): the exchange hands the whole list to the caller. */
    method Consume() returns (list: Word, ghost taken: seq<ListNode>)
      requires Valid()
      modifies this
      ensures Valid() && Contents() == Consumed
      ensures Linked(list, taken) && taken == old(chain)
      ensures old(Contents()).Open? ==> Values(taken) == old(Contents()).items
      ensures old(Contents()).Consumed? ==> list == Nil
    {
      list, taken := if head == Marker then Nil else head, chain;
      head := Marker;
      chain := [];
    }
  }

  /** The loop of continuations_stack::execute over the consumed list. */
  method Walk(list: Word, ghost taken: seq<ListNode>) returns (called: seq<int>)
    requires Linked(list, taken)
    ensures called == Values(taken)
  {
    var p := list;
    ghost var rest := taken;
    called := [];
    while p.At?
      invariant Linked(p, rest) && called + Values(rest) == Values(taken)
      decreases rest
    {
      called := called + [p.n.val];
      p := p.n.next;
      rest := rest[1..];
    }
  }

  lemma RevPrepend(xs: seq<int>, rest: seq<int>)
    requires xs != []
    ensures [xs[|xs| - 1]] + (Rev(xs[..|xs| - 1]) + rest) == Rev(xs) + rest
  {
    RevLast(xs);
    Reassociate(xs[|xs| - 1], Rev(xs[..|xs| - 1]), rest);
  }

  lemma Reassociate(x: int, a: seq<int>, b: seq<int>)
    ensures [x] + (a + b) == ([x] + a) + b
  {
  }

  lemma Unfold(v: View, turns: seq<Turn>, k: nat)
    requires k < |turns|
    ensures After(v, turns[..k + 1]) == Taken(After(v, turns[..k]), turns[k])
    ensures Changes(v, turns[..k + 1]) ==
            Changes(v, turns[..k]) + if Effective(After(v, turns[..k]), turns[k]) then 1 else 0
  {
    assert turns[..k + 1][..k] == turns[..k];
  }

  /** Once the others have consumed the stack it stays consumed, so a push after it fails. */
  lemma {:induction false} ConsumedForGood(v: View, turns: seq<Turn>, k: nat)
    requires k <= |turns| && After(v, turns[..k]).Consumed?
    ensures After(v, turns).Consumed?
  {
    if k < |turns| {
      assert turns[..|turns| - 1][..k] == turns[..k];
      ConsumedForGood(v, turns[..|turns| - 1], k);
    } else {
      assert turns[..k] == turns;
    }
  }

  /** Without a consume by the others, an open stack stays open whatever they push. */
  lemma {:induction false} OpenWithoutConsume(v: View, turns: seq<Turn>)
    requires v.Open?
    ensures After(v, turns).Open? <==> forall t | t in turns :: !t.consumed
  {
    if turns != [] {
      var last := |turns| - 1;
      OpenWithoutConsume(v, turns[..last]);
      assert turns == turns[..last] + [turns[last]];
    }
  }
}
