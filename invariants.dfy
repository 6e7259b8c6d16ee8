/**
  The invariants of the dispatcher, proved for every entry point: an
  operator holds a call iff it rings or is busy; no call both waits and is
  held; no two operators hold one call; no call waits twice; and calls wait
  only while every operator is ringing or busy.  Uniqueness rests on the
  caller's promise that a new call id is not live.
*/
module Invariants {
  import opened Wrappers
  import opened Operators
  import opened Pools
  import opened Queues
  import opened Messages
  import opened Dispatch

  lemma ConsistentIsSettling(s: Center)
    requires Consistent(s)
    ensures Settling(s)
  {
  }

  /** Placing a call that is not live restores the whole invariant. */
  lemma PlacePreserves(s: Center, c: int)
    requires Settling(s) && !Live(s, c)
    ensures Consistent(Place(s, c).after)
  {
    var t := Place(s, c).after;
    match FirstAvailable(s.ops)
    case Some(k) =>
      forall i, j | 0 <= i < |t.ops| && 0 <= j < |t.ops| && i != j && t.ops[i].call.Some?
        ensures t.ops[i].call != t.ops[j].call
      {
        if i == k { assert s.ops[j].call != Some(c); }
        else if j == k { assert s.ops[i].call != Some(c); }
      }
    case None =>
      assert t.queue == [c] + s.queue;
      forall i, j | 0 <= i < |t.queue| && 0 <= j < |t.queue| && i != j
        ensures t.queue[i] != t.queue[j]
      {
        if i > 0 && j > 0 { assert t.queue[i] == s.queue[i - 1] && t.queue[j] == s.queue[j - 1]; }
      }
      forall k | 0 <= k < |t.ops| && t.ops[k].call.Some?
        ensures t.ops[k].call.value !in t.queue
      {
        assert s.ops[k].call != Some(c);
      }
  }

  /** Taking the next call out of a settling queue leaves a settling state in which it is not live. */
  lemma TakeNext(s: Center)
    requires Settling(s) && s.queue != []
    ensures Settling(Center(s.ops, Rest(s.queue)))
    ensures !Live(Center(s.ops, Rest(s.queue)), Front(s.queue))
  {
    var q := s.queue;
    assert q == Rest(q) + [Front(q)];
    forall x | x in Rest(q) ensures x != Front(q) {
      var i :| 0 <= i < |Rest(q)| && Rest(q)[i] == x;
      assert q[i] == x && q[|q| - 1] == Front(q);
    }
  }

  lemma CascadePreserves(r: Step)
    requires Settling(r.after)
    ensures Consistent(Cascade(r).after)
  {
    if r.after.queue != [] {
      TakeNext(r.after);
      PlacePreserves(Center(r.after.ops, Rest(r.after.queue)), Front(r.after.queue));
    }
  }

  /** Freeing one operator of a consistent state leaves it settling. */
  lemma FreeOne(s: Center, k: nat, o: Op)
    requires Consistent(s) && k < |s.ops| && o.state == Available && o.call == None
    ensures Settling(Center(s.ops[k := o], s.queue))
  {
  }

  lemma CallPreserves(s: Center, c: Option<int>)
    requires Consistent(s)
    requires c.Some? ==> !Live(s, c.value)
    requires c.None? ==> s.queue != []
    ensures Consistent(Call(s, c).after)
  {
    match c
    case Some(x) => PlacePreserves(s, x);
    case None =>
      TakeNext(s);
      PlacePreserves(Center(s.ops, Rest(s.queue)), Front(s.queue));
  }

  lemma AnswerPreserves(s: Center, k: nat)
    requires Consistent(s) && k < |s.ops|
    ensures Consistent(Answer(s, k).after)
  {
  }

  lemma RejectPreserves(s: Center, k: nat)
    requires Consistent(s) && k < |s.ops| && s.ops[k].state == Ringing
    ensures Consistent(Reject(s, k).after)
  {
    var c := s.ops[k].call.value;
    var freed := Center(s.ops[k := s.ops[k].Reject()], s.queue);
    FreeOne(s, k, s.ops[k].Reject());
    assert Rest(AfterFirst(s.queue, c)) == s.queue;
    PlacePreserves(freed, c);
  }

  lemma RemoveKeepsNoDup(q: seq<int>, c: int)
    requires c in q
    requires forall i, j :: 0 <= i < |q| && 0 <= j < |q| && i != j ==> q[i] != q[j]
    ensures var r := RemoveFirst(q, c);
      (forall i, j :: 0 <= i < |r| && 0 <= j < |r| && i != j ==> r[i] != r[j]) && (forall x :: x in r ==> x in q && x != c)
  {
    var i := LeftmostIndex(q, c);
    var r := RemoveFirst(q, c);
    forall a, b | 0 <= a < |r| && 0 <= b < |r| && a != b ensures r[a] != r[b] {
      var a' := if a < i then a else a + 1;
      var b' := if b < i then b else b + 1;
      assert r[a] == q[a'] && r[b] == q[b'];
    }
    forall x | x in r ensures x in q && x != c {
      var a :| 0 <= a < |r| && r[a] == x;
      var a' := if a < i then a else a + 1;
      assert r[a] == q[a'] && a' != i;
    }
  }

  lemma HangupPreserves(s: Center, c: int)
    requires Consistent(s)
    ensures Consistent(Hangup(s, c).after)
  {
    if c in s.queue {
      RemoveKeepsNoDup(s.queue, c);
    } else {
      match FindHolder(s.ops, c)
      case None => CascadePreserves(Release(s, c));
      case Some(k) =>
        FreeOne(s, k, s.ops[k].Hangup());
        CascadePreserves(Release(s, c));
    }
  }

  lemma TimeoutPreserves(s: Center, c: int)
    requires Consistent(s)
    ensures Consistent(Timeout(s, c).after)
  {
    match FindHolder(s.ops, c)
    case None =>
    case Some(k) =>
      if s.ops[k].state == Ringing {
        FreeOne(s, k, s.ops[k].Hangup());
        CascadePreserves(Step(Center(s.ops[k := s.ops[k].Hangup()], s.queue), [IgnoredBy(c, s.ops[k].id)], None));
      }
  }
}
