/**
  The waiting-call queue: a double-ended queue with two producers and one
  consumer.  `items` lists the deque from its left end to its right end:
  new arrivals are held on the left (appendleft), a rejected call is put on
  the right (append), and the next call is taken from the right (pop).
  Served(q) is the order in which repeated `next` would hand the calls out.
*/
module Queues {

  /** hold: a call that found nobody waits behind every waiting call. */
  function AfterHold(q: seq<int>, c: int): (r: seq<int>)
    ensures |r| == |q| + 1 && r[0] == c && r[1..] == q
  {
    [c] + q
  }

  /** first: a rejected call goes to the end that is served next. */
  function AfterFirst(q: seq<int>, c: int): (r: seq<int>)
    ensures |r| == |q| + 1 && r[|q|] == c && r[..|q|] == q
  {
    q + [c]
  }

  /** The call next() returns: the rightmost, so the queue is the rest followed by it. */
  function Front(q: seq<int>): (c: int)
    requires q != []
    ensures q == Rest(q) + [c]
  {
    q[|q| - 1]
  }

  /** The queue after next() has taken its call. */
  function Rest(q: seq<int>): (r: seq<int>)
    requires q != []
    ensures |r| == |q| - 1
  {
    q[..|q| - 1]
  }

  /** The position of the leftmost occurrence of c. */
  function LeftmostIndex(q: seq<int>, c: int): (i: nat)
    requires c in q
    ensures i < |q| && q[i] == c && c !in q[..i]
  {
    if q[0] == c then 0 else
      var i' := LeftmostIndex(q[1..], c);
      assert q[..i' + 1] == [q[0]] + q[1..][..i'];
      i' + 1
  }

  /** remove: deletes the leftmost occurrence of c, as deque.remove does. */
  function RemoveFirst(q: seq<int>, c: int): (r: seq<int>)
    requires c in q
    ensures |r| == |q| - 1
    ensures forall a :: 0 <= a < |r| ==> r[a] == q[if a < LeftmostIndex(q, c) then a else a + 1]
    ensures multiset(r) == multiset(q) - multiset{c}
  {
    var i := LeftmostIndex(q, c);
    assert q == q[..i] + [c] + q[i + 1..];
    q[..i] + q[i + 1..]
  }

  /** The order in which the waiting calls would be served. */
  function Served(q: seq<int>): (r: seq<int>)
    ensures |r| == |q|
  {
    if q == [] then [] else [Front(q)] + Served(Rest(q))
  }

  /** Every waiting call is served exactly once. */
  lemma {:induction false} ServedOncePerCall(q: seq<int>)
    ensures multiset(Served(q)) == multiset(q)
  {
    if q != [] {
      ServedOncePerCall(Rest(q));
      assert q == Rest(q) + [Front(q)];
    }
  }

  /** next() hands out the first call of the service order and leaves the others in order. */
  lemma NextServesInOrder(q: seq<int>)
    requires q != []
    ensures Front(q) == Served(q)[0] && Served(Rest(q)) == Served(q)[1..]
  {
  }

  /** FIFO: a held call is served after every call already waiting. */
  lemma {:induction false} HoldServedLast(q: seq<int>, c: int)
    ensures Served(AfterHold(q, c)) == Served(q) + [c]
  {
    if q == [] {
    } else {
      assert Rest(AfterHold(q, c)) == AfterHold(Rest(q), c);
      HoldServedLast(Rest(q), c);
    }
  }

  /** Priority: a call put back with first() is the very next call served. */
  lemma FirstServedNext(q: seq<int>, c: int)
    ensures Served(AfterFirst(q, c)) == [c] + Served(q)
  {
    assert Rest(AfterFirst(q, c)) == q;
  }

  /** Holding the arrivals cs one by one onto q. */
  function HoldAll(q: seq<int>, cs: seq<int>): (r: seq<int>)
    ensures |r| == |q| + |cs|
    decreases cs
  {
    if cs == [] then q else HoldAll(AfterHold(q, cs[0]), cs[1..])
  }

  /** FIFO over many arrivals: calls held one after another are served in arrival order. */
  lemma {:induction false} HoldAllServedInArrivalOrder(q: seq<int>, cs: seq<int>)
    ensures Served(HoldAll(q, cs)) == Served(q) + cs
    decreases cs
  {
    if cs != [] {
      HoldServedLast(q, cs[0]);
      HoldAllServedInArrivalOrder(AfterHold(q, cs[0]), cs[1..]);
      assert [cs[0]] + cs[1..] == cs;
    }
  }

  class CallQueue {
    var items: seq<int>

    constructor ()
      ensures items == []
    {
      items := [];
    }

    method Hold(c: int)
      modifies this
      ensures items == AfterHold(old(items), c)
    {
      items := [c] + items;
    }

    method Next() returns (c: int)
      requires items != []
      modifies this
      ensures c == Front(old(items)) && items == Rest(old(items))
    {
      c := items[|items| - 1];
      items := items[..|items| - 1];
    }

    /** has: c is waiting, so next() would hand it out some time. */
    predicate Has(c: int): (b: bool)
      reads this
      ensures b <==> c in Served(items)
    {
      ServedOncePerCall(items);
      assert c in Served(items) <==> c in multiset(Served(items));
      c in items
    }

    method Remove(c: int)
      requires c in items
      modifies this
      ensures items == RemoveFirst(old(items), c)
    {
      items := RemoveFirst(items, c);
    }

    /** not_empty: next() has a call to hand out. */
    predicate NotEmpty(): (b: bool)
      reads this
      ensures b <==> Served(items) != []
    {
      items != []
    }

    method First(c: int)
      modifies this
      ensures items == AfterFirst(old(items), c)
    {
      items := items + [c];
    }
  }
}
