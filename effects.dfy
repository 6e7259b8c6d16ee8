/**
  What each entry point does to the calls: which call rings where, what
  waits, and which calls stay live.  A call is live while it waits or an
  operator holds it; new calls become live, hangups and timeouts end them,
  and nothing else creates or loses a call.
*/
module Effects {
  import opened Wrappers
  import opened Operators
  import opened Pools
  import opened Queues
  import opened Messages
  import opened Dispatch

  function CallSet(c: Option<int>): set<int>
  {
    if c.Some? then {c.value} else {}
  }

  /** Replacing one operator changes the held calls by exactly its old and new call. */
  lemma HeldCallsUpdate(ops: seq<Op>, k: nat, o: Op)
    requires k < |ops|
    requires forall j :: 0 <= j < |ops| && j != k && ops[k].call.Some? ==> ops[j].call != ops[k].call
    ensures HeldCalls(ops[k := o]) == HeldCalls(ops) - CallSet(ops[k].call) + CallSet(o.call)
  {
    var t := ops[k := o];
    forall x ensures x in HeldCalls(t) <==> x in HeldCalls(ops) - CallSet(ops[k].call) + CallSet(o.call) {
      if x in HeldCalls(t) {
        var j :| 0 <= j < |t| && t[j].call == Some(x);
      }
      if x in HeldCalls(ops) - CallSet(ops[k].call) {
        var j :| 0 <= j < |ops| && ops[j].call == Some(x);
        assert t[j].call == Some(x);
      }
      if x in CallSet(o.call) {
        assert t[k].call == Some(x);
      }
    }
  }

  /** Placing a call makes it live and keeps every other live call. */
  lemma PlaceAddsCall(s: Center, c: int)
    requires Wf(s)
    ensures LiveCalls(Place(s, c).after) == LiveCalls(s) + {c}
  {
    match FirstAvailable(s.ops)
    case Some(k) =>
      HeldCallsUpdate(s.ops, k, s.ops[k].Ring(c));
      assert Place(s, c).after.ops == s.ops[k := s.ops[k].Ring(c)];
    case None =>
      assert Place(s, c).after.queue == [c] + s.queue;
  }

  /** do_call with a new id: the call is received, then rings exactly one operator or waits last. */
  lemma {:induction false} CallNew(s: Center, c: int)
    requires Consistent(s) && !Live(s, c)
    ensures var r := Call(s, Some(c));
      && r.events[0] == Received(c) && |r.events| == 2
      && LiveCalls(r.after) == LiveCalls(s) + {c}
      && (r.rung.Some? <==> FirstAvailable(s.ops).Some?)
      && (r.rung.Some? ==> r.rung.value.call == c && r.after.queue == s.queue && r.events[1] == RingingFor(c, s.ops[r.rung.value.op].id))
      && (r.rung.Some? ==> r.rung.value.op == FirstAvailable(s.ops).value)
      && (r.rung.Some? ==> r.after.ops == s.ops[r.rung.value.op := Op(s.ops[r.rung.value.op].id, Ringing, Some(c))])
      && (r.rung.None? ==> r.after.ops == s.ops && r.after.queue == AfterHold(s.queue, c) && r.events[1] == Waiting(c))
  {
    PlaceAddsCall(s, c);
    PlaceOutcome(s, c);
  }

  /** do_call(None): the call next() hands out is placed; no call is gained or lost. */
  lemma {:induction false} CallFromQueue(s: Center)
    requires Consistent(s) && s.queue != []
    ensures var r := Call(s, None);
      && LiveCalls(r.after) == LiveCalls(s)
      && r.after.ops == s.ops
      && r.after.queue == [Front(s.queue)] + Rest(s.queue)
      && r.events == [Waiting(Front(s.queue))]
  {
    var q := s.queue;
    var t := Center(s.ops, Rest(q));
    PlaceAddsCall(t, Front(q));
    assert q == Rest(q) + [Front(q)];
    assert (set x | x in q) == (set x | x in Rest(q)) + {Front(q)};
  }

  /** do_answer succeeds exactly on a ringing operator, which keeps its call. */
  lemma AnswerEffect(s: Center, k: nat)
    requires Consistent(s) && k < |s.ops|
    ensures var r := Answer(s, k);
      && LiveCalls(r.after) == LiveCalls(s)
      && r.after.queue == s.queue
      && (s.ops[k].state == Ringing ==> r.after.ops[k].state == Busy && r.events == [AnsweredBy(s.ops[k].call.value, s.ops[k].id)])
      && (s.ops[k].state != Ringing ==> r.after == s && r.events == [])
  {
    if s.ops[k].state == Ringing {
      HeldCallsUpdate(s.ops, k, s.ops[k].Answer());
    }
  }

  /**
    do_reject: the rejected call goes to the front, is taken straight back
    and rings an operator (the rejecting one is free, so one always is);
    the queue ends as it was.  While calls wait, the only free operator is
    the one that rejected, so it rings again.
  */
  lemma {:induction false} RejectRerings(s: Center, k: nat)
    requires Consistent(s) && k < |s.ops| && s.ops[k].state == Ringing
    ensures var c := s.ops[k].call.value; var r := Reject(s, k);
      && r.after.queue == s.queue
      && r.rung.Some? && r.rung.value.call == c && r.rung.value.op < |s.ops|
      && r.events == [RejectedBy(c, s.ops[k].id), RingingFor(c, s.ops[r.rung.value.op].id)]
      && (s.queue != [] ==> r.rung.value.op == k)
      && LiveCalls(r.after) == LiveCalls(s)
  {
    var c := s.ops[k].call.value;
    var freed := Center(s.ops[k := s.ops[k].Reject()], s.queue);
    assert Rest(AfterFirst(s.queue, c)) == s.queue && Front(AfterFirst(s.queue, c)) == c;
    assert freed.ops[k].state == Available;
    HeldCallsUpdate(s.ops, k, s.ops[k].Reject());
    PlaceAddsCall(freed, c);
  }

  /** do_hangup of a waiting call: just that call leaves the queue, with no cascade. */
  lemma {:induction false} HangupQueued(s: Center, c: int)
    requires Consistent(s) && c in s.queue
    ensures var r := Hangup(s, c);
      && r.after.ops == s.ops
      && r.after.queue == RemoveFirst(s.queue, c)
      && r.events == [Missed(c)] && r.rung == None
      && LiveCalls(r.after) == LiveCalls(s) - {c}
  {
    var q := s.queue;
    var i := LeftmostIndex(q, c);
    var t := RemoveFirst(q, c);
    forall x ensures x in t <==> x in q && x != c {
      if x in t {
        var a :| 0 <= a < |t| && t[a] == x;
        var a' := if a < i then a else a + 1;
        assert t[a] == q[a'] && a' != i;
      }
      if x in q && x != c {
        var a :| 0 <= a < |q| && q[a] == x;
        assert a != i;
        var a' := if a < i then a else a - 1;
        assert t[a'] == x;
      }
    }
    assert c !in HeldCalls(s.ops);
  }

  /**
    Freeing an operator while calls wait: the cascade's do_call(None) rings
    that operator, the only free one, with the call next() hands out.
  */
  lemma {:induction false} RefillFreed(s: Center, k: nat)
    requires Consistent(s) && k < |s.ops| && s.ops[k].call.Some? && s.queue != []
    ensures var o := s.ops[k]; var q := s.queue;
      var p := Call(Center(s.ops[k := o.Hangup()], q), None);
      && p.after == Center(s.ops[k := Op(o.id, Ringing, Some(Front(q)))], Rest(q))
      && p.events == [RingingFor(Front(q), o.id)]
      && p.rung == Some(Dispatched(k, Front(q)))
      && LiveCalls(p.after) == LiveCalls(s) - {o.call.value}
  {
    var o := s.ops[k];
    HeldCallsUpdate(s.ops, k, o.Hangup());
    var t := Center(s.ops[k := o.Hangup()], Rest(s.queue));
    assert t.ops[k].state == Available;
    assert forall j :: 0 <= j < |t.ops| && j != k ==> t.ops[j].state != Available;
    assert FirstAvailable(t.ops) == Some(k);
    PlaceOutcome(t, Front(s.queue));
    PlaceAddsCall(t, Front(s.queue));
    assert s.queue == Rest(s.queue) + [Front(s.queue)];
    assert (set x | x in s.queue) == (set x | x in Rest(s.queue)) + {Front(s.queue)};
    assert o.call.value !in s.queue;
  }

  /**
    do_hangup of a call an operator holds: the operator becomes available
    ("finished" if it was busy, "missed" if it was ringing) and, while calls
    wait, it at once rings the call next() hands out.
  */
  lemma {:induction false} HangupHeld(s: Center, c: int, k: nat)
    requires Consistent(s) && c !in s.queue && FindHolder(s.ops, c) == Some(k)
    ensures var r := Hangup(s, c); var o := s.ops[k]; var q := s.queue;
      && r.events[0] == (if o.state == Busy then Finished(c, o.id) else Missed(c))
      && LiveCalls(r.after) == LiveCalls(s) - {c}
      && (q == [] ==> r.after == Center(s.ops[k := Op(o.id, Available, None)], []) && |r.events| == 1)
      && (q != [] ==>
            && r.after == Center(s.ops[k := Op(o.id, Ringing, Some(Front(q)))], Rest(q))
            && r.events == [r.events[0], RingingFor(Front(q), o.id)]
            && r.rung == Some(Dispatched(k, Front(q))))
  {
    if s.queue != [] {
      RefillFreed(s, k);
    } else {
      HeldCallsUpdate(s.ops, k, s.ops[k].Hangup());
    }
  }

  /**
    do_hangup of an id that is neither waiting nor held, while calls wait:
    the cascade takes the next call, finds nobody free and holds it again,
    so the queue rotates by one and keeps its length.
  */
  lemma {:induction false} HangupUnknownRotates(s: Center, c: int)
    requires Consistent(s) && !Live(s, c) && s.queue != []
    ensures var r := Hangup(s, c); var q := s.queue;
      && r.after.ops == s.ops
      && r.after.queue == AfterHold(Rest(q), Front(q))
      && |r.after.queue| == |q|
      && Served(r.after.queue) == Served(q)[1..] + [Served(q)[0]]
      && r.events == [Waiting(Front(q))]
      && LiveCalls(r.after) == LiveCalls(s)
  {
    CallFromQueue(s);
    NextServesInOrder(s.queue);
    HoldServedLast(Rest(s.queue), Front(s.queue));
  }

  /**
    do_timeout while the holder of c still rings: that operator is freed,
    c is dropped without being requeued, and the queue cascades.
  */
  lemma {:induction false} TimeoutReclaims(s: Center, c: int, k: nat)
    requires Consistent(s) && FindHolder(s.ops, c) == Some(k) && s.ops[k].state == Ringing
    ensures var r := Timeout(s, c); var q := s.queue;
      && r.events[0] == IgnoredBy(c, s.ops[k].id)
      && LiveCalls(r.after) == LiveCalls(s) - {c}
      && !Live(r.after, c)
      && (q == [] ==> r.after.ops[k] == Op(s.ops[k].id, Available, None) && |r.events| == 1)
      && (q != [] ==> r.after.queue == Rest(q) && r.rung == Some(Dispatched(k, Front(q))))
  {
    assert c !in s.queue;
    if s.queue != [] {
      RefillFreed(s, k);
    } else {
      HeldCallsUpdate(s.ops, k, s.ops[k].Hangup());
    }
    assert c !in LiveCalls(Timeout(s, c).after);
  }

  /** A timeout for a call whose holder no longer rings (or that nobody holds) changes nothing. */
  lemma TimeoutOtherwiseNoop(s: Center, c: int)
    requires FindHolder(s.ops, c).None? || s.ops[FindHolder(s.ops, c).value].state != Ringing
    ensures Timeout(s, c) == Step(s, [], None)
  {
  }

  /** A call answered before its timeout fires is not reclaimed: the late timeout changes nothing. */
  lemma {:induction false} TimeoutAfterAnswerIsHarmless(s: Center, k: nat)
    requires Consistent(s) && k < |s.ops| && s.ops[k].state == Ringing
    ensures var a := Answer(s, k).after; Timeout(a, s.ops[k].call.value) == Step(a, [], None)
  {
    var c := s.ops[k].call.value;
    var a := Answer(s, k).after;
    assert a.ops[k].call == Some(c);
    var j := FindHolder(a.ops, c).value;
    assert j == k;
  }
}
