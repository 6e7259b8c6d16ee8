/**
  The call manager of the server variant with ring timeouts.  It replies
  like the variant without timers and, in addition, schedules a callback
  whenever an operator starts ringing, cancels it when that operator
  rejects, and frees an operator still ringing when its callback fires.
  Of the reactor the model keeps its pending callbacks and the next handle
  it hands out.
*/
module Extra {
  import opened Wrappers
  import opened Operators
  import opened Pools
  import opened Queues
  import opened Messages
  import opened Dispatch
  import opened Timers

  /** The part of the reactor the manager uses: delayed callbacks, each under its own handle. */
  class Reactor {
    /** The pending callbacks: handle to the call id their checkTimeout is for. */
    var pending: map<nat, int>
    /** The handle the next callback gets. */
    var next: nat

    /** Handles are never reused: every pending handle is below the next one. */
    ghost predicate Valid()
      reads this
    {
      forall h :: h in pending ==> h < next
    }

    constructor ()
      ensures Valid() && pending == map[] && next == 0
    {
      pending := map[];
      next := 0;
    }

    /** callLater: schedule checkTimeout(call) under a new handle. */
    method CallLater(call: int) returns (h: nat)
      requires Valid()
      modifies this
      ensures Valid()
      ensures h == old(next) && next == old(next) + 1
      ensures pending == old(pending)[h := call]
    {
      h := next;
      pending := pending[h := call];
      next := next + 1;
    }

    /** DelayedCall.cancel: a pending callback is dropped. */
    method Cancel(h: nat)
      requires Valid() && h in pending
      modifies this
      ensures Valid()
      ensures pending == old(pending) - {h} && next == old(next)
    {
      pending := pending - {h};
    }

    /** The callback under h comes due: it leaves the reactor and its call id is handed to checkTimeout. */
    method Fire(h: nat) returns (call: int)
      requires Valid() && h in pending
      modifies this
      ensures Valid()
      ensures call == old(pending[h])
      ensures pending == old(pending) - {h} && next == old(next)
    {
      call := pending[h];
      pending := pending - {h};
    }
  }

  class CallManager {
    const pool: Pool
    const queue: CallQueue
    const reactor: Reactor

    ghost predicate Valid()
      reads this, pool, pool.ops, reactor
    {
      pool.Valid() && reactor.Valid()
    }

    /** The operators' values and the waiting calls. */
    ghost function View(): Center
      reads this, pool, queue
    {
      Center(pool.model, queue.items)
    }

    /** The operators' timeout_id handles and the reactor's callbacks. */
    ghost function Clock(): Timing
      reads this, pool, reactor
    {
      Timing(pool.handles, reactor.pending, reactor.next)
    }

    constructor (operators: seq<Operator>)
      requires DistinctIds(Values(operators))
      requires forall i :: 0 <= i < |operators| ==> operators[i].View().Wf()
      ensures Valid() && fresh(pool) && fresh(queue) && pool.ops == operators && queue.items == []
      ensures pool.model == Values(operators)
      ensures forall i :: 0 <= i < |operators| ==> pool.handles[i] == operators[i].timeoutId
      ensures fresh(reactor) && reactor.pending == map[]
    {
      pool := new Pool(operators);
      queue := new CallQueue();
      reactor := new Reactor();
    }

    /** set_timeout: a callback for call is scheduled and its handle stored in the k-th operator's timeout_id. */
    method SetTimeout(call: int, k: nat)
      requires Valid() && k < |pool.ops|
      modifies reactor, pool, pool.ops[k]
      ensures Valid()
      ensures View() == old(View())
      ensures Clock() == Arm(old(Clock()), Some(Dispatched(k, call)))
    {
      var h := reactor.CallLater(call);
      pool.SetTimeoutId(k, h);
    }

    /** The second half of do_call: ring the first available operator and arm its timeout, or hold the call. */
    method Place(call: int) returns (line: string)
      requires Valid()
      modifies reactor, queue, pool, pool.ops
      ensures Valid()
      ensures View() == Dispatch.Place(old(View()), call).after
      ensures line == Render(Dispatch.Place(old(View()), call).events)
      ensures Clock() == Arm(old(Clock()), Dispatch.Place(old(View()), call).rung)
    {
      ghost var s := View();
      ghost var t := Clock();
      ghost var r := Dispatch.Place(s, call);
      PlaceOutcome(s, call);
      var k := pool.RingOperators(call);
      assert Clock() == t;
      if k.Some? {
        line := Line(RingingFor(call, pool.ops[k.value].id));
        assert View() == r.after && line == Render(r.events);
        SetTimeout(call, k.value);
      } else {
        queue.Hold(call);
        line := Line(Waiting(call));
      }
    }

    /** do_call: a new call (Some) or the next waiting call (None) rings the first available operator or waits. */
    method DoCall(c: Option<int>) returns (msg: string)
      requires Valid()
      requires c.None? ==> queue.items != []
      modifies reactor, queue, pool, pool.ops
      ensures Valid()
      ensures View() == Call(old(View()), c).after
      ensures msg == Render(Call(old(View()), c).events)
      ensures Clock() == Arm(old(Clock()), Call(old(View()), c).rung)
    {
      var call: int;
      if c.Some? {
        call := c.value;
        msg := Line(Received(call)) + "\n";
      } else {
        call := queue.Next();
        msg := "";
      }
      ghost var s1 := View();
      var line := Place(call);
      msg := msg + line;
      if c.Some? {
        RenderCons(Received(call), Dispatch.Place(s1, call).events);
      }
    }

    /** do_answer: the "answered" line only when the operator was ringing; its callback is not cancelled. */
    method DoAnswer(id: string) returns (msg: string)
      requires Valid() && pool.Get(id).Some?
      modifies pool, pool.ops
      ensures Valid()
      ensures View() == Answer(old(View()), pool.Get(id).value).after
      ensures msg == Render(Answer(old(View()), pool.Get(id).value).events)
      ensures Clock() == old(Clock())
    {
      var k := pool.Get(id).value;
      msg := "";
      var ok := pool.AnswerAt(k);
      if ok {
        msg := msg + Line(AnsweredBy(pool.ops[k].call.value, id));
      }
    }

    /**
      do_reject: the operator's pending callback is cancelled, the rejected
      call is put at the front and placed again at once.
    */
    method DoReject(id: string) returns (msg: string)
      requires Valid() && pool.Get(id).Some? && pool.model[pool.Get(id).value].state == Ringing
      requires pool.handles[pool.Get(id).value].Some? && pool.handles[pool.Get(id).value].value in reactor.pending
      modifies reactor, queue, pool, pool.ops
      ensures Valid()
      ensures View() == Reject(old(View()), pool.Get(id).value).after
      ensures msg == Render(Reject(old(View()), pool.Get(id).value).events)
      ensures Clock() == Arm(Cancel(old(Clock()), pool.Get(id).value), Reject(old(View()), pool.Get(id).value).rung)
    {
      ghost var s := View();
      var k := pool.Get(id).value;
      reactor.Cancel(pool.ops[k].timeoutId.value);
      var call := pool.RejectAt(k);
      msg := Line(RejectedBy(call.value, id)) + "\n";
      queue.First(call.value);
      ghost var s1 := View();
      assert s1 == Center(s.ops[k := s.ops[k].Reject()], AfterFirst(s.queue, call.value));
      var m := DoCall(None);
      msg := msg + m;
      RenderCons(RejectedBy(call.value, id), Call(s1, None).events);
    }

    /** The middle of do_hangup: the holder of c, if any, hangs up; its callback stays pending. */
    method Release(c: int) returns (line: string)
      requires Valid()
      modifies pool, pool.ops
      ensures Valid()
      ensures View() == Dispatch.Release(old(View()), c).after
      ensures line == Render(Dispatch.Release(old(View()), c).events)
      ensures Clock() == old(Clock())
    {
      ghost var s := View();
      line := "";
      var k := pool.SearchCall(c);
      if k.Some? {
        var op := pool.ops[k.value];
        ghost var o := s.ops[k.value];
        if op.IsBusy() {
          line := line + Line(Finished(c, op.id));
        } else if op.IsRinging() {
          line := line + Line(Missed(c));
        }
        assert line == Render(Dispatch.Release(s, c).events);
        var _ := pool.HangupAt(k.value);
        assert View() == Center(s.ops[k.value := o.Hangup()], s.queue);
      }
    }

    /** do_hangup: a waiting call is removed; a held call frees its operator and the queue cascades. */
    method DoHangup(c: int) returns (msg: string)
      requires Valid()
      modifies reactor, queue, pool, pool.ops
      ensures Valid()
      ensures View() == Hangup(old(View()), c).after
      ensures msg == HangupReply(old(View()), c)
      ensures Clock() == Arm(old(Clock()), Hangup(old(View()), c).rung)
    {
      if queue.Has(c) {
        queue.Remove(c);
        msg := Line(Missed(c));
      } else {
        msg := Settle(c);
      }
    }

    /** The branch of do_hangup for a call that is not waiting: its holder, if any, hangs up and the queue cascades. */
    method Settle(c: int) returns (msg: string)
      requires Valid() && c !in queue.items
      modifies reactor, queue, pool, pool.ops
      ensures Valid()
      ensures View() == Cascade(Dispatch.Release(old(View()), c)).after
      ensures msg == HangupReply(old(View()), c)
      ensures Clock() == Arm(old(Clock()), Cascade(Dispatch.Release(old(View()), c)).rung)
    {
      ghost var s := View();
      ghost var r := Dispatch.Release(s, c);
      SettleOutcome(s, c);
      msg := Release(c);
      assert View() == r.after && msg == Render(r.events);
      if queue.NotEmpty() {
        var m := DoCall(None);
        msg := msg + "\n" + m;
      }
    }

    /** do_timeout: an operator still ringing with c is reported as ignoring it and freed; the queue cascades. */
    method DoTimeout(c: int) returns (msg: string)
      requires Valid()
      modifies reactor, queue, pool, pool.ops
      ensures Valid()
      ensures View() == Timeout(old(View()), c).after
      ensures msg == Render(Timeout(old(View()), c).events)
      ensures Clock() == Arm(old(Clock()), Timeout(old(View()), c).rung)
    {
      ghost var s := View();
      msg := "";
      var k := pool.SearchCall(c);
      if k.Some? && pool.ops[k.value].IsRinging() {
        var op := pool.ops[k.value];
        ghost var o := s.ops[k.value];
        msg := msg + Line(IgnoredBy(op.call.value, op.id));
        var _ := pool.HangupAt(k.value);
        ghost var r := Step(View(), [IgnoredBy(c, o.id)], None);
        assert Timeout(s, c) == Cascade(r);
        assert msg == Render(r.events);
        if queue.NotEmpty() {
          var m := DoCall(None);
          msg := msg + "\n" + m;
          RenderCons(IgnoredBy(c, o.id), Call(r.after, None).events);
        }
      }
    }

    /** The reactor fires callback h: it leaves the reactor and do_timeout runs for its call. */
    method Expire(h: nat) returns (msg: string)
      requires Valid() && h in reactor.pending
      modifies reactor, queue, pool, pool.ops
      ensures Valid()
      ensures View() == Timeout(old(View()), old(reactor.pending[h])).after
      ensures msg == Render(Timeout(old(View()), old(reactor.pending[h])).events)
      ensures Clock() == Arm(Fire(old(Clock()), h), Timeout(old(View()), old(reactor.pending[h])).rung)
    {
      var c := reactor.Fire(h);
      msg := DoTimeout(c);
    }
  }
}
