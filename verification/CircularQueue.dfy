/** v4/server/utils/circular_queue.c: a singly linked list with a size counter. Items enter
    and leave at the front. */
module Queues {
  import opened Wrappers

  class Node {
    var val: int
    var next: Node?

    constructor (val: int, next: Node?)
      ensures this.val == val && this.next == next
    {
      this.val, this.next := val, next;
    }
  }

  class CircularQueue {
    var front: Node?
    var size: int

    /** The items, front first. */
    ghost var items: seq<int>
    /** The nodes that hold them. */
    ghost var spine: seq<Node>

    ghost function NodeAt(i: nat): Node?
      reads this
    {
      if i < |spine| then spine[i] else null
    }

    ghost predicate Valid()
      reads this, spine
    {
      && size == |items| == |spine|
      && (forall i, j :: 0 <= i < j < |spine| ==> spine[i] != spine[j])
      && front == NodeAt(0)
      && forall i :: 0 <= i < |spine| ==> spine[i].val == items[i] && spine[i].next == NodeAt(i + 1)
    }

    /** initQueue */
    constructor ()
      ensures Valid() && items == [] && spine == []
    {
      front, size := null, 0;
      items, spine := [], [];
    }

    method IsEmpty() returns (r: bool)
      requires Valid()
      ensures r <==> items == []
      ensures r <==> front == null
    {
      r := size == 0;
    }

    /** The outcome of malloc is the parameter `mallocOk`. */
    method Enqueue(item: int, mallocOk: bool) returns (r: int)
      requires Valid()
      modifies this
      ensures Valid()
      ensures !mallocOk ==> r == -1 && items == old(items) && spine == old(spine)
      ensures mallocOk ==> r == 0 && items == [item] + old(items)
      ensures mallocOk ==> |spine| > 0 && fresh(spine[0]) && spine[1..] == old(spine)
    {
      if !mallocOk {
        return -1;
      }
      var newNode := new Node(item, front);
      front := newNode;
      size := size + 1;
      items, spine := [item] + items, [newNode] + spine;
      return 0;
    }

    /** The node taken off leaves the spine, so nothing reachable is freed. */
    method Dequeue() returns (r: int)
      requires Valid()
      modifies this
      ensures Valid()
      ensures old(items) == [] ==> r == -1 && items == [] && spine == old(spine)
      ensures old(items) != [] ==> r == old(items)[0] && items == old(items)[1..] && spine == old(spine)[1..]
    {
      var empty := IsEmpty();
      if empty {
        return -1;
      }
      var frontNode := front;
      r := frontNode.val;
      front := frontNode.next;
      size := size - 1;
      items, spine := items[1..], spine[1..];
    }

    method GetSize() returns (r: int)
      requires Valid()
      ensures r == |items|
    {
      r := size;
    }
  }

  ghost predicate Disjoint(p: CircularQueue, q: CircularQueue)
    reads p, q
  {
    p != q && forall n :: n in p.spine ==> n !in q.spine
  }

  /** One use of a queue: an item is put in, or the next one taken out. */
  datatype Use = In(item: int) | Out

  /** The stack that a sequence of uses leaves, top first. */
  function StackAfter(uses: seq<Use>): seq<int> {
    if uses == [] then [] else
    var s := StackAfter(uses[..|uses| - 1]);
    match uses[|uses| - 1]
    case In(item) => [item] + s
    case Out => if s == [] then s else s[1..]
  }

  /** What a use of a stack returns: an Out takes the top, or -1 from an empty stack. */
  function Returned(s: seq<int>, use: Use): seq<int> {
    match use
    case In(item) => []
    case Out => [if s == [] then -1 else s[0]]
  }

  /** What the Outs of a sequence of uses return, in order. */
  function Outs(uses: seq<Use>): seq<int> {
    if uses == [] then [] else
    var init := uses[..|uses| - 1];
    Outs(init) + Returned(StackAfter(init), uses[|uses| - 1])
  }

  lemma UsesSnoc(uses: seq<Use>, use: Use)
    ensures Outs(uses + [use]) == Outs(uses) + Returned(StackAfter(uses), use)
    ensures StackAfter(uses + [use])
         == match use
            case In(item) => [item] + StackAfter(uses)
            case Out => if StackAfter(uses) == [] then [] else StackAfter(uses)[1..]
  {
    assert (uses + [use])[..|uses|] == uses;
  }

  /** A use of one of two queues: of the first, or of the second. */
  datatype Turn = Turn(first: bool, use: Use)

  /** The uses of one of the two queues. */
  function Side(turns: seq<Turn>, first: bool): seq<Use> {
    if turns == [] then [] else
    var last := turns[|turns| - 1];
    Side(turns[..|turns| - 1], first) + if last.first == first then [last.use] else []
  }

  /** The queue is the stack of these uses, and `from` is what they returned. */
  ghost predicate Refines(q: CircularQueue, uses: seq<Use>, from: seq<int>)
    reads q
  {
    q.items == StackAfter(uses) && from == Outs(uses)
  }

  /** One more use of a queue, which leaves another queue alone. */
  method UseOne(q: CircularQueue, use: Use, ghost other: CircularQueue, ghost uses: seq<Use>, from: seq<int>)
    returns (from': seq<int>)
    requires q.Valid() && other.Valid() && Disjoint(q, other) && Refines(q, uses, from)
    modifies q
    ensures q.Valid() && other.Valid() && Disjoint(q, other) && Refines(q, uses + [use], from')
  {
    UsesSnoc(uses, use);
    match use {
      case In(item) =>
        var r := q.Enqueue(item, true);
        assert forall n :: n in q.spine ==> n == q.spine[0] || n in q.spine[1..];
        from' := from;
      case Out =>
        var r := q.Dequeue();
        from' := from + [r];
    }
  }

  lemma SideSnoc(turns: seq<Turn>, k: nat)
    requires k < |turns|
    ensures Side(turns[..k + 1], turns[k].first) == Side(turns[..k], turns[k].first) + [turns[k].use]
    ensures Side(turns[..k + 1], !turns[k].first) == Side(turns[..k], !turns[k].first)
  {
    assert turns[..k + 1][..k] == turns[..k];
  }

  /** Two queues used in any interleaving, as the server uses its two: each is a stack of its own
      uses, in what it holds and in what it returns, and they never share a node. */
  method RunBoth(turns: seq<Turn>)
    returns (p: CircularQueue, q: CircularQueue, fromP: seq<int>, fromQ: seq<int>)
    ensures p.Valid() && q.Valid() && Disjoint(p, q)
    ensures p.items == StackAfter(Side(turns, true)) && fromP == Outs(Side(turns, true))
    ensures q.items == StackAfter(Side(turns, false)) && fromQ == Outs(Side(turns, false))
  {
    p := new CircularQueue();
    q := new CircularQueue();
    fromP, fromQ := [], [];
    for k := 0 to |turns|
      invariant fresh(p) && fresh(q)
      invariant p.Valid() && q.Valid() && Disjoint(p, q)
      invariant Refines(p, Side(turns[..k], true), fromP)
      invariant Refines(q, Side(turns[..k], false), fromQ)
    {
      SideSnoc(turns, k);
      if turns[k].first {
        fromP := UseOne(p, turns[k].use, q, Side(turns[..k], true), fromP);
      } else {
        fromQ := UseOne(q, turns[k].use, p, Side(turns[..k], false), fromQ);
      }
    }
    assert turns[..|turns|] == turns;
  }

  /** Items put in one after the other, and as many taken out again. */
  function InsAndOuts(items: seq<int>): seq<Use> {
    if items == [] then [] else [In(items[0])] + InsAndOuts(items[1..]) + [Out]
  }

  function Reversed(items: seq<int>): seq<int> {
    seq(|items|, i requires 0 <= i < |items| => items[|items| - 1 - i])
  }

  lemma ReversedSnoc(items: seq<int>)
    requires items != []
    ensures Reversed(items) == Reversed(items[1..]) + [items[0]]
  {
  }

  lemma Regroup(uses: seq<Use>, first: Use, middle: seq<Use>, last: Use)
    ensures uses + ([first] + middle + [last]) == ((uses + [first]) + middle) + [last]
  {
  }

  lemma PutLast(uses: seq<Use>, item: int)
    ensures Outs(uses + [In(item)]) == Outs(uses)
    ensures StackAfter(uses + [In(item)]) == [item] + StackAfter(uses)
  {
    UsesSnoc(uses, In(item));
    assert Outs(uses) + [] == Outs(uses);
  }

  lemma TakeLast(uses: seq<Use>, item: int, below: seq<int>)
    requires StackAfter(uses) == [item] + below
    ensures Outs(uses + [Out]) == Outs(uses) + [item]
    ensures StackAfter(uses + [Out]) == below
  {
    UsesSnoc(uses, Out);
  }

  /** After any uses, items that are put in and then taken out again, as many as went in, come out
      in reverse order, and the stack is what it was. */
  lemma {:induction false} LastInFirstOut(uses: seq<Use>, items: seq<int>)
    ensures Outs(uses + InsAndOuts(items)) == Outs(uses) + Reversed(items)
    ensures StackAfter(uses + InsAndOuts(items)) == StackAfter(uses)
    decreases |items|
  {
    if items == [] {
      assert uses + InsAndOuts(items) == uses;
    } else {
      var pushed, rest := uses + [In(items[0])], items[1..];
      PutLast(uses, items[0]);
      LastInFirstOut(pushed, rest);
      TakeLast(pushed + InsAndOuts(rest), items[0], StackAfter(uses));
      Regroup(uses, In(items[0]), InsAndOuts(rest), Out);
      Associative(Outs(uses), Reversed(rest), [items[0]]);
      ReversedSnoc(items);
    }
  }

  /** In that sequence all Ins come before all Outs. */
  lemma {:induction false} InsThenOuts(items: seq<int>)
    ensures |InsAndOuts(items)| == 2 * |items|
    ensures forall k :: 0 <= k < |items| ==> InsAndOuts(items)[k] == In(items[k])
    ensures forall k :: |items| <= k < 2 * |items| ==> InsAndOuts(items)[k] == Out
  {
    if items != [] {
      InsThenOuts(items[1..]);
    }
  }
}
