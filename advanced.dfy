/**
  The call manager of the server variant without timers: every entry
  point returns its reply lines joined by newlines.
*/
module Advanced {
  import opened Wrappers
  import opened Operators
  import opened Pools
  import opened Queues
  import opened Messages
  import opened Dispatch

  class CallManager {
    const pool: Pool
    const queue: CallQueue

    ghost predicate Valid()
      reads this, pool, pool.ops
    {
      pool.Valid()
    }

    /** The operators' values and the waiting calls. */
    ghost function View(): Center
      reads this, pool, queue
    {
      Center(pool.model, queue.items)
    }

    constructor (operators: seq<Operator>)
      requires DistinctIds(Values(operators))
      requires forall i :: 0 <= i < |operators| ==> operators[i].View().Wf()
      ensures Valid() && fresh(pool) && fresh(queue) && pool.ops == operators && queue.items == []
      ensures pool.model == Values(operators)
      ensures forall i :: 0 <= i < |operators| ==> pool.handles[i] == operators[i].timeoutId
    {
      pool := new Pool(operators);
      queue := new CallQueue();
    }

    /** The second half of do_call: ring the first available operator, or hold the call. */
    method Place(call: int) returns (line: string)
      requires Valid()
      modifies queue, pool, pool.ops
      ensures Valid()
      ensures View() == Dispatch.Place(old(View()), call).after
      ensures line == Render(Dispatch.Place(old(View()), call).events)
    {
      PlaceOutcome(View(), call);
      var k := pool.RingOperators(call);
      if k.Some? {
        line := Line(RingingFor(call, pool.ops[k.value].id));
      } else {
        queue.Hold(call);
        line := Line(Waiting(call));
      }
    }

    /** do_call: a new call (Some) or the next waiting call (None) rings the first available operator or waits. */
    method DoCall(c: Option<int>) returns (msg: string)
      requires Valid()
      requires c.None? ==> queue.items != []
      modifies queue, pool, pool.ops
      ensures Valid()
      ensures View() == Call(old(View()), c).after
      ensures msg == Render(Call(old(View()), c).events)
    {
      var call: int;
      if c.Some? {
        call := c.value;
        msg := Line(Received(call)) + "\n";
      } else {
        call := queue.Next();
        msg := "";
      }
      ghost var s1 := View();
      var line := Place(call);
      msg := msg + line;
      if c.Some? {
        RenderCons(Received(call), Dispatch.Place(s1, call).events);
      }
    }

    /** do_answer: the "answered" line only when the operator was ringing, "" otherwise. */
    method DoAnswer(id: string) returns (msg: string)
      requires Valid() && pool.Get(id).Some?
      modifies pool, pool.ops
      ensures Valid()
      ensures View() == Answer(old(View()), pool.Get(id).value).after
      ensures msg == Render(Answer(old(View()), pool.Get(id).value).events)
    {
      var k := pool.Get(id).value;
      msg := "";
      var ok := pool.AnswerAt(k);
      if ok {
        msg := msg + Line(AnsweredBy(pool.ops[k].call.value, id));
      }
    }

    /** do_reject: the rejected call is put at the front and placed again at once. */
    method DoReject(id: string) returns (msg: string)
      requires Valid() && pool.Get(id).Some? && pool.model[pool.Get(id).value].state == Ringing
      modifies queue, pool, pool.ops
      ensures Valid()
      ensures View() == Reject(old(View()), pool.Get(id).value).after
      ensures msg == Render(Reject(old(View()), pool.Get(id).value).events)
    {
      ghost var s := View();
      var k := pool.Get(id).value;
      var call := pool.RejectAt(k);
      msg := Line(RejectedBy(call.value, id)) + "\n";
      queue.First(call.value);
      ghost var s1 := View();
      assert s1 == Center(s.ops[k := s.ops[k].Reject()], AfterFirst(s.queue, call.value));
      var m := DoCall(None);
      msg := msg + m;
      RenderCons(RejectedBy(call.value, id), Call(s1, None).events);
    }

    /** The middle of do_hangup: the holder of c, if any, hangs up; the line says how the call ended. */
    method Release(c: int) returns (line: string)
      requires Valid()
      modifies pool, pool.ops
      ensures Valid()
      ensures View() == Dispatch.Release(old(View()), c).after
      ensures line == Render(Dispatch.Release(old(View()), c).events)
    {
      ghost var s := View();
      line := "";
      var k := pool.SearchCall(c);
      if k.Some? {
        var op := pool.ops[k.value];
        ghost var o := s.ops[k.value];
        if op.IsBusy() {
          line := line + Line(Finished(c, op.id));
        } else if op.IsRinging() {
          line := line + Line(Missed(c));
        }
        assert line == Render(Dispatch.Release(s, c).events);
        var _ := pool.HangupAt(k.value);
        assert View() == Center(s.ops[k.value := o.Hangup()], s.queue);
      }
    }

    /** do_hangup: a waiting call is removed; a held call frees its operator and the queue cascades. */
    method DoHangup(c: int) returns (msg: string)
      requires Valid()
      modifies queue, pool, pool.ops
      ensures Valid()
      ensures View() == Hangup(old(View()), c).after
      ensures msg == HangupReply(old(View()), c)
    {
      if queue.Has(c) {
        queue.Remove(c);
        msg := Line(Missed(c));
      } else {
        msg := Settle(c);
      }
    }

    /** The branch of do_hangup for a call that is not waiting: its holder, if any, hangs up and the queue cascades. */
    method Settle(c: int) returns (msg: string)
      requires Valid() && c !in queue.items
      modifies queue, pool, pool.ops
      ensures Valid()
      ensures View() == Cascade(Dispatch.Release(old(View()), c)).after
      ensures msg == HangupReply(old(View()), c)
    {
      ghost var s := View();
      ghost var r := Dispatch.Release(s, c);
      SettleOutcome(s, c);
      msg := Release(c);
      assert View() == r.after && msg == Render(r.events);
      if queue.NotEmpty() {
        var m := DoCall(None);
        msg := msg + "\n" + m;
      }
    }
  }
}
