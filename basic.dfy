/**
  The console variant of the call manager: every entry point prints its
  lines to standard output, one print per line.
*/
module Basic {
  import opened Wrappers
  import opened Operators
  import opened Pools
  import opened Queues
  import opened Messages
  import opened Dispatch

  class CallManager {
    const pool: Pool
    const queue: CallQueue
    /** Standard output: every line printed so far. */
    var printed: seq<string>

    ghost predicate Valid()
      reads pool, pool.ops
    {
      pool.Valid()
    }

    /** The operators' values and the waiting calls. */
    ghost function View(): Center
      reads pool, queue
    {
      Center(pool.model, queue.items)
    }

    constructor (operators: seq<Operator>)
      requires DistinctIds(Values(operators))
      requires forall i :: 0 <= i < |operators| ==> operators[i].View().Wf()
      ensures Valid() && fresh(pool) && fresh(queue) && pool.ops == operators && queue.items == [] && printed == []
      ensures pool.model == Values(operators)
    {
      pool := new Pool(operators);
      queue := new CallQueue();
      printed := [];
    }

    /** The second half of do_call: ring the first available operator, or hold the call; the line do_call then prints. */
    method Place(call: int) returns (line: string)
      requires Valid()
      modifies queue, pool, pool.ops
      ensures Valid()
      ensures View() == Dispatch.Place(old(View()), call).after
      ensures [line] == Lines(Dispatch.Place(old(View()), call).events)
    {
      PlaceOutcome(View(), call);
      var k := pool.RingOperators(call);
      if k.Some? {
        line := Line(RingingFor(call, pool.ops[k.value].id));
      } else {
        queue.Hold(call);
        line := Line(Waiting(call));
      }
    }

    /** do_call: a new call (Some) or, with no argument, the next waiting call (None). */
    method DoCall(c: Option<int>)
      requires Valid()
      requires c.None? ==> queue.items != []
      modifies this, queue, pool, pool.ops
      ensures Valid()
      ensures View() == Call(old(View()), c).after
      ensures printed == old(printed) + Lines(Call(old(View()), c).events)
    {
      ghost var start := printed;
      var call: int;
      if c.Some? {
        call := c.value;
        printed := printed + [Line(Received(call))];
      } else {
        call := queue.Next();
      }
      ghost var s1 := View();
      var line := Place(call);
      printed := printed + [line];
      if c.Some? {
        PrintedInTurn(start, [Received(call)], Dispatch.Place(s1, call).events);
      }
    }

    /** do_answer: prints the "answered" line only when the operator was ringing. */
    method DoAnswer(id: string)
      requires Valid() && pool.Get(id).Some?
      modifies this, pool, pool.ops
      ensures Valid()
      ensures View() == Answer(old(View()), pool.Get(id).value).after
      ensures printed == old(printed) + Lines(Answer(old(View()), pool.Get(id).value).events)
    {
      var k := pool.Get(id).value;
      var ok := pool.AnswerAt(k);
      if ok {
        printed := printed + [Line(AnsweredBy(pool.ops[k].call.value, id))];
      }
    }

    /** do_reject: the rejected call is put at the front and placed again at once. */
    method DoReject(id: string)
      requires Valid() && pool.Get(id).Some? && pool.model[pool.Get(id).value].state == Ringing
      modifies this, queue, pool, pool.ops
      ensures Valid()
      ensures View() == Reject(old(View()), pool.Get(id).value).after
      ensures printed == old(printed) + Lines(Reject(old(View()), pool.Get(id).value).events)
    {
      ghost var s := View();
      ghost var start := printed;
      var k := pool.Get(id).value;
      var call := pool.RejectAt(k);
      printed := printed + [Line(RejectedBy(call.value, id))];
      queue.First(call.value);
      ghost var s1 := View();
      assert s1 == Center(s.ops[k := s.ops[k].Reject()], AfterFirst(s.queue, call.value));
      DoCall(None);
      PrintedInTurn(start, [RejectedBy(call.value, id)], Call(s1, None).events);
    }

    /** The middle of do_hangup: the holder of c, if any, hangs up; the printed line says how the call ended. */
    method Release(c: int)
      requires Valid()
      modifies this, pool, pool.ops
      ensures Valid()
      ensures View() == Dispatch.Release(old(View()), c).after
      ensures printed == old(printed) + Lines(Dispatch.Release(old(View()), c).events)
    {
      ghost var s := View();
      ghost var before := printed;
      var k := pool.SearchCall(c);
      if k.Some? {
        var op := pool.ops[k.value];
        ghost var o := s.ops[k.value];
        if op.IsBusy() {
          printed := printed + [Line(Finished(c, op.id))];
        } else if op.IsRinging() {
          printed := printed + [Line(Missed(c))];
        }
        assert printed == before + Lines(Dispatch.Release(s, c).events);
        var _ := pool.HangupAt(k.value);
        assert View() == Center(s.ops[k.value := o.Hangup()], s.queue);
      }
    }

    /** do_hangup: a waiting call is removed; a held call frees its operator and the queue cascades. */
    method DoHangup(c: int)
      requires Valid()
      modifies this, queue, pool, pool.ops
      ensures Valid()
      ensures View() == Hangup(old(View()), c).after
      ensures printed == old(printed) + Lines(Hangup(old(View()), c).events)
    {
      if queue.Has(c) {
        queue.Remove(c);
        printed := printed + [Line(Missed(c))];
      } else {
        Settle(c);
      }
    }

    /** The branch of do_hangup for a call that is not waiting: its holder, if any, hangs up and the queue cascades. */
    method Settle(c: int)
      requires Valid() && c !in queue.items
      modifies this, queue, pool, pool.ops
      ensures Valid()
      ensures View() == Cascade(Dispatch.Release(old(View()), c)).after
      ensures printed == old(printed) + Lines(Cascade(Dispatch.Release(old(View()), c)).events)
    {
      ghost var s := View();
      ghost var r := Dispatch.Release(s, c);
      ghost var before := printed;
      SettleOutcome(s, c);
      Release(c);
      assert View() == r.after && printed == before + Lines(r.events);
      if queue.NotEmpty() {
        DoCall(None);
        PrintedInTurn(before, r.events, Call(r.after, None).events);
      }
    }
  }
}
