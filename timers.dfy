/**
  The reactor's ring timeouts on values.  Whenever an operator starts
  ringing, set_timeout schedules a ten-second callback under a new handle
  and stores that handle in the operator's timeout_id; do_reject cancels
  the rejecting operator's callback; a callback that fires leaves the
  reactor and runs do_timeout for its call.  Nothing else cancels a
  callback: the callbacks of answered and hung-up calls stay pending.
*/
module Timers {
  import opened Wrappers
  import opened Operators
  import opened Pools
  import opened Queues
  import opened Messages
  import opened Dispatch
  import Effects

  /** The operators' timeout_id handles, the pending callbacks (handle to the call they time out) and the next handle. */
  datatype Timing = Timing(handles: seq<Option<nat>>, pending: map<nat, int>, next: nat)

  /** set_timeout for the operator the step rang, if any. */
  function Arm(t: Timing, rung: Option<Dispatched>): (r: Timing)
    requires rung.Some? ==> rung.value.op < |t.handles|
    ensures |r.handles| == |t.handles|
  {
    match rung
    case None => t
    case Some(d) => Timing(t.handles[d.op := Some(t.next)], t.pending[t.next := d.call], t.next + 1)
  }

  /** The reactor drops callback h, because it fired or was cancelled. */
  function Fire(t: Timing, h: nat): (r: Timing)
    ensures r.handles == t.handles && r.next == t.next
  {
    Timing(t.handles, t.pending - {h}, t.next)
  }

  /** do_reject's cancel() of the k-th operator's callback. */
  function Cancel(t: Timing, k: nat): (r: Timing)
    requires k < |t.handles| && t.handles[k].Some?
    ensures r.handles == t.handles && r.next == t.next
  {
    Fire(t, t.handles[k].value)
  }

  /** Handles are never reused: every pending handle is below the next one. */
  predicate Fresh(t: Timing)
  {
    forall h :: h in t.pending ==> h < t.next
  }

  /** Every ringing operator has a pending callback of its own, for the call it rings with. */
  ghost predicate Armed(ops: seq<Op>, t: Timing)
  {
    && |t.handles| == |ops|
    && Fresh(t)
    && (forall k :: 0 <= k < |ops| && ops[k].state == Ringing ==>
          t.handles[k].Some? && t.handles[k].value in t.pending && ops[k].call == Some(t.pending[t.handles[k].value]))
    && (forall i, j :: 0 <= i < |ops| && 0 <= j < |ops| && i != j && ops[i].state == Ringing && ops[j].state == Ringing ==>
          t.handles[i] != t.handles[j])
  }

  /**
    When every ringing operator but the one just rung is untouched, arming
    that one keeps every ringing operator armed: the new handle is pending
    and differs from every other pending one.
  */
  lemma ArmKeeps(before: seq<Op>, after: seq<Op>, t: Timing, rung: Option<Dispatched>)
    requires Armed(before, t) && |after| == |before|
    requires rung.Some? ==> rung.value.op < |after| && after[rung.value.op].state == Ringing && after[rung.value.op].call == Some(rung.value.call)
    requires forall j :: 0 <= j < |after| && after[j].state == Ringing && (rung.None? || j != rung.value.op) ==> after[j] == before[j]
    ensures Armed(after, Arm(t, rung))
  {
    if rung.Some? {
      var a := Arm(t, rung);
      forall k | 0 <= k < |after| && after[k].state == Ringing && k != rung.value.op
        ensures a.handles[k] == t.handles[k] && a.pending[t.handles[k].value] == t.pending[t.handles[k].value]
      {
        assert before[k].state == Ringing;
      }
    }
  }

  /** An operator leaving the ringing state keeps the others armed. */
  lemma StopKeeps(ops: seq<Op>, k: nat, o: Op, t: Timing)
    requires Armed(ops, t) && k < |ops| && o.state != Ringing
    ensures Armed(ops[k := o], t)
  {
  }

  /** Dropping a callback that no ringing operator owns keeps every ringing operator armed. */
  lemma DropKeeps(ops: seq<Op>, t: Timing, h: nat)
    requires Armed(ops, t)
    requires forall k :: 0 <= k < |ops| && ops[k].state == Ringing ==> t.handles[k] != Some(h)
    ensures Armed(ops, Fire(t, h))
  {
  }

  /** Placing a call rings at most the operator it reports, with that call. */
  lemma PlaceKeepsArmed(s: Center, c: int, t: Timing)
    requires Armed(s.ops, t)
    ensures var r := Place(s, c); Armed(r.after.ops, Arm(t, r.rung))
  {
    PlaceOutcome(s, c);
    var r := Place(s, c);
    ArmKeeps(s.ops, r.after.ops, t, r.rung);
  }

  /** do_call arms the operator it rings, and every ringing operator stays armed. */
  lemma CallKeepsArmed(s: Center, c: Option<int>, t: Timing)
    requires Armed(s.ops, t) && (c.None? ==> s.queue != [])
    ensures var r := Call(s, c); Armed(r.after.ops, Arm(t, r.rung))
  {
    match c
    case Some(x) => PlaceKeepsArmed(s, x, t);
    case None => PlaceKeepsArmed(Center(s.ops, Rest(s.queue)), Front(s.queue), t);
  }

  /** do_answer arms nothing, and the operators that still ring stay armed. */
  lemma AnswerKeepsArmed(s: Center, k: nat, t: Timing)
    requires Armed(s.ops, t) && k < |s.ops| && s.ops[k].Wf()
    ensures Answer(s, k).rung.None?
    ensures Armed(Answer(s, k).after.ops, t)
  {
    if s.ops[k].state == Ringing {
      StopKeeps(s.ops, k, s.ops[k].Answer(), t);
    }
  }

  /** do_reject cancels the rejecting operator's callback and arms the operator the call rings again. */
  lemma {:induction false} RejectKeepsArmed(s: Center, k: nat, t: Timing)
    requires Armed(s.ops, t) && k < |s.ops| && s.ops[k].state == Ringing && s.ops[k].Wf()
    ensures var r := Reject(s, k); Armed(r.after.ops, Arm(Cancel(t, k), r.rung))
  {
    var o := s.ops[k];
    var freed := Center(s.ops[k := o.Reject()], AfterFirst(s.queue, o.call.value));
    StopKeeps(s.ops, k, o.Reject(), t);
    DropKeeps(freed.ops, t, t.handles[k].value);
    CallKeepsArmed(freed, None, Cancel(t, k));
  }

  /** A cascade after some operators stopped ringing arms the operator it rings. */
  lemma CascadeKeepsArmed(r: Step, t: Timing)
    requires Armed(r.after.ops, t) && r.rung.None?
    ensures Armed(Cascade(r).after.ops, Arm(t, Cascade(r).rung))
  {
    if r.after.queue != [] {
      CallKeepsArmed(r.after, None, t);
    }
  }

  /** do_hangup cancels nothing and arms the operator the cascade rings. */
  lemma HangupKeepsArmed(s: Center, c: int, t: Timing)
    requires Armed(s.ops, t)
    ensures var r := Hangup(s, c); Armed(r.after.ops, Arm(t, r.rung))
  {
    if c !in s.queue {
      var r := Release(s, c);
      if FindHolder(s.ops, c).Some? {
        var k := FindHolder(s.ops, c).value;
        StopKeeps(s.ops, k, s.ops[k].Hangup(), t);
      }
      CascadeKeepsArmed(r, t);
    }
  }

  /**
    A fired callback runs do_timeout for its call.  When no two operators
    hold the same call, the operator that owned the callback (if it still
    rings) is the one freed, so every operator still ringing keeps a
    pending callback.
  */
  lemma {:induction false} ExpireKeepsArmed(s: Center, h: nat, t: Timing)
    requires Armed(s.ops, t) && DistinctHolders(s) && h in t.pending
    ensures var r := Timeout(s, t.pending[h]); Armed(r.after.ops, Arm(Fire(t, h), r.rung))
  {
    var c := t.pending[h];
    match FindHolder(s.ops, c)
    case None =>
      DropKeeps(s.ops, t, h);
    case Some(k) =>
      var o := s.ops[k];
      if o.state == Ringing {
        var freed := s.ops[k := o.Hangup()];
        StopKeeps(s.ops, k, o.Hangup(), t);
        DropKeeps(freed, t, h);
        CascadeKeepsArmed(Step(Center(freed, s.queue), [IgnoredBy(c, o.id)], None), Fire(t, h));
      } else {
        DropKeeps(s.ops, t, h);
      }
  }

  /**
    Every ringing operator is reclaimed by its own callback: when it fires,
    do_timeout finds that operator still ringing with the call, reports it
    ignored, and the call is no longer live.
  */
  lemma ExpiryReclaims(s: Center, t: Timing, k: nat)
    requires Consistent(s) && Armed(s.ops, t) && k < |s.ops| && s.ops[k].state == Ringing
    ensures t.handles[k].Some? && t.handles[k].value in t.pending
    ensures var c := t.pending[t.handles[k].value];
      && s.ops[k].call == Some(c)
      && FindHolder(s.ops, c) == Some(k)
      && Timeout(s, c).events[0] == IgnoredBy(c, s.ops[k].id)
      && !Live(Timeout(s, c).after, c)
  {
    var c := t.pending[t.handles[k].value];
    assert FindHolder(s.ops, c) == Some(k) by {
      var f := FindHolder(s.ops, c);
      assert f.Some?;
    }
    Effects.TimeoutReclaims(s, c, k);
  }

  /** At start-up nobody rings and no callback is pending. */
  lemma InitialArmed(ops: seq<Op>)
    requires forall k :: 0 <= k < |ops| ==> ops[k].state == Available
    ensures Armed(ops, Timing(seq(|ops|, _ => None), map[], 0))
  {
  }
}
