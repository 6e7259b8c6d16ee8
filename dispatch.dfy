/**
  The call manager on values: the operators' observable state in
  configuration order and the waiting queue.  Each entry point of the call
  manager is a function from the state before to a Step: the state after,
  the reply lines it produces, and the operator it rang, if any.  The
  three manager classes are proved to follow these functions.
*/
module Dispatch {
  import opened Wrappers
  import opened Operators
  import opened Pools
  import opened Queues
  import opened Messages

  datatype Center = Center(ops: seq<Op>, queue: seq<int>)

  /** The operator at position op started ringing with call. */
  datatype Dispatched = Dispatched(op: nat, call: int)

  datatype Step = Step(after: Center, events: seq<Event>, rung: Option<Dispatched>)

  /* ---------- the entry points ---------- */

  /**
    ring_operators(c), and hold(c) when nobody is available: either exactly
    the first available operator changes, or the operators stay as they are
    and c waits behind every waiting call.
  */
  function Place(s: Center, c: int): (r: Step)
    ensures |r.after.ops| == |s.ops| && |r.events| == 1
    ensures r.rung.Some? ==> r.rung.value.op < |s.ops|
  {
    match FirstAvailable(s.ops)
    case Some(k) =>
      Step(Center(RingFirst(s.ops, c), s.queue), [RingingFor(c, s.ops[k].id)], Some(Dispatched(k, c)))
    case None =>
      Step(Center(s.ops, AfterHold(s.queue, c)), [Waiting(c)], None)
  }

  /** Placing c rings the first available operator, who alone changes, or holds c behind every waiting call. */
  lemma PlaceOutcome(s: Center, c: int)
    ensures var r := Place(s, c);
      match FirstAvailable(s.ops)
      case Some(k) =>
        && r.after == Center(s.ops[k := Op(s.ops[k].id, Ringing, Some(c))], s.queue)
        && r.events == [RingingFor(c, s.ops[k].id)] && r.rung == Some(Dispatched(k, c))
      case None =>
        && r.after == Center(s.ops, [c] + s.queue)
        && r.events == [Waiting(c)] && r.rung == None
  {
  }

  /** do_call: a new call (Some) is received first; None places the call next() returns. */
  function Call(s: Center, c: Option<int>): (r: Step)
    requires c.None? ==> s.queue != []
    ensures |r.after.ops| == |s.ops| && (r.rung.Some? ==> r.rung.value.op < |s.ops|)
  {
    match c
    case Some(x) =>
      var p := Place(s, x);
      Step(p.after, [Received(x)] + p.events, p.rung)
    case None =>
      Place(Center(s.ops, Rest(s.queue)), Front(s.queue))
  }

  /** do_answer on the operator at position k. */
  function Answer(s: Center, k: nat): (r: Step)
    requires k < |s.ops| && s.ops[k].Wf()
    ensures |r.after.ops| == |s.ops| && r.rung.None?
  {
    var o := s.ops[k];
    if o.state == Ringing then
      Step(Center(s.ops[k := o.Answer()], s.queue), [AnsweredBy(o.call.value, o.id)], None)
    else
      Step(s, [], None)
  }

  /** do_reject on the ringing operator at position k: first(call), then do_call(None). */
  function Reject(s: Center, k: nat): (r: Step)
    requires k < |s.ops| && s.ops[k].state == Ringing && s.ops[k].Wf()
    ensures |r.after.ops| == |s.ops| && (r.rung.Some? ==> r.rung.value.op < |s.ops|)
  {
    var o := s.ops[k];
    var c := o.call.value;
    var p := Call(Center(s.ops[k := o.Reject()], AfterFirst(s.queue, c)), None);
    Step(p.after, [RejectedBy(c, o.id)] + p.events, p.rung)
  }

  /** The part of do_hangup that ends a call held by an operator. */
  function Release(s: Center, c: int): (r: Step)
    ensures |r.after.ops| == |s.ops| && r.rung.None?
  {
    match FindHolder(s.ops, c)
    case None => Step(s, [], None)
    case Some(k) =>
      var o := s.ops[k];
      var ev := if o.state == Busy then [Finished(c, o.id)] else if o.state == Ringing then [Missed(c)] else [];
      Step(Center(s.ops[k := o.Hangup()], s.queue), ev, None)
  }

  /** The cascade: when calls are waiting, do_call(None) follows and its lines are appended. */
  function Cascade(r: Step): (q: Step)
    ensures |q.after.ops| == |r.after.ops|
    ensures q.rung.Some? ==> q.rung == r.rung || q.rung.value.op < |r.after.ops|
  {
    if r.after.queue == [] then r
    else
      var p := Call(r.after, None);
      Step(p.after, r.events + p.events, p.rung)
  }

  /** do_hangup: a waiting call is removed with no cascade; otherwise its holder is freed and the queue cascades. */
  function Hangup(s: Center, c: int): (r: Step)
    ensures |r.after.ops| == |s.ops| && (r.rung.Some? ==> r.rung.value.op < |s.ops|)
  {
    if c in s.queue then Step(Center(s.ops, RemoveFirst(s.queue, c)), [Missed(c)], None)
    else Cascade(Release(s, c))
  }

  /** do_timeout: acts only when the holder of c is still ringing; the call is dropped, not requeued. */
  function Timeout(s: Center, c: int): (r: Step)
    ensures |r.after.ops| == |s.ops| && (r.rung.Some? ==> r.rung.value.op < |s.ops|)
  {
    match FindHolder(s.ops, c)
    case None => Step(s, [], None)
    case Some(k) =>
      var o := s.ops[k];
      if o.state == Ringing then
        Cascade(Step(Center(s.ops[k := o.Hangup()], s.queue), [IgnoredBy(c, o.id)], None))
      else
        Step(s, [], None)
  }

  /**
    The reply of do_hangup in the two server variants.  When the id is neither waiting nor held and
    calls wait, the reply starts with an empty line: the cascade's lines are
    appended after a newline even though nothing came before them.
  */
  function HangupReply(s: Center, c: int): (r: string)
    ensures r == "" <==> c !in s.queue && Release(s, c).events == [] && Release(s, c).after.queue == []
  {
    if c in s.queue then Line(Missed(c))
    else
      var r := Release(s, c);
      Render(r.events) + (if r.after.queue != [] then "\n" + Render(Call(r.after, None).events) else "")
  }

  /** Hanging up a call that is not waiting: the release, then the cascade when calls wait, and the reply of the two. */
  lemma SettleOutcome(s: Center, c: int)
    requires c !in s.queue
    ensures var r := Release(s, c);
      && Hangup(s, c) == Cascade(r)
      && (r.after.queue == [] ==> Cascade(r) == r && HangupReply(s, c) == Render(r.events))
      && (r.after.queue != [] ==>
            && Cascade(r).after == Call(r.after, None).after
            && Cascade(r).rung == Call(r.after, None).rung
            && Cascade(r).events == r.events + Call(r.after, None).events
            && HangupReply(s, c) == Render(r.events) + "\n" + Render(Call(r.after, None).events))
  {
  }

  /** The reply is the rendering of the hangup's lines, except for that leading empty line. */
  lemma HangupReplyRenders(s: Center, c: int)
    requires Wf(s)
    ensures c in s.queue || Held(s, c) || s.queue == [] ==> HangupReply(s, c) == Render(Hangup(s, c).events)
    ensures !Live(s, c) && s.queue != [] ==> HangupReply(s, c) == "\n" + Render(Hangup(s, c).events)
  {
    if c in s.queue {
      assert Hangup(s, c).events == [Missed(c)];
    } else if s.queue != [] {
      CascadeReply(s, c);
    }
  }

  /** When the cascade runs, the lines of the release and of the cascade are joined by one newline. */
  lemma CascadeReply(s: Center, c: int)
    requires Wf(s) && c !in s.queue && s.queue != []
    ensures HangupReply(s, c) == (if Held(s, c) then "" else "\n") + Render(Hangup(s, c).events)
  {
    var r := Release(s, c);
    var p := Call(r.after, None);
    assert Hangup(s, c).events == r.events + p.events;
    if Held(s, c) {
      assert r.events != [];
      RenderAppend(r.events, p.events);
    } else {
      assert r.events + p.events == p.events;
    }
  }

  /* ---------- invariants ---------- */

  ghost predicate Wf(s: Center)
  {
    forall k :: 0 <= k < |s.ops| ==> s.ops[k].Wf()
  }

  ghost predicate NoDupQueue(s: Center)
  {
    forall i, j :: 0 <= i < |s.queue| && 0 <= j < |s.queue| && i != j ==> s.queue[i] != s.queue[j]
  }

  /** No two operators hold the same call. */
  ghost predicate DistinctHolders(s: Center)
  {
    forall i, j :: 0 <= i < |s.ops| && 0 <= j < |s.ops| && i != j && s.ops[i].call.Some? ==> s.ops[i].call != s.ops[j].call
  }

  /** No call both waits and is held by an operator. */
  ghost predicate Disjoint(s: Center)
  {
    forall k :: 0 <= k < |s.ops| && s.ops[k].call.Some? ==> s.ops[k].call.value !in s.queue
  }

  /** Calls wait only while no operator is available. */
  ghost predicate Saturated(s: Center)
  {
    s.queue != [] ==> forall k :: 0 <= k < |s.ops| ==> s.ops[k].state != Available
  }

  ghost predicate AtMostOneFree(s: Center)
  {
    forall i, j :: 0 <= i < |s.ops| && 0 <= j < |s.ops| && s.ops[i].state == Available && s.ops[j].state == Available ==> i == j
  }

  ghost predicate Consistent(s: Center)
  {
    Wf(s) && NoDupQueue(s) && DistinctHolders(s) && Disjoint(s) && Saturated(s)
  }

  /** Consistent, except that one operator may just have been freed while calls wait. */
  ghost predicate Settling(s: Center)
  {
    Wf(s) && NoDupQueue(s) && DistinctHolders(s) && Disjoint(s) && (s.queue != [] ==> AtMostOneFree(s))
  }

  predicate Held(s: Center, c: int)
  {
    FindHolder(s.ops, c).Some?
  }

  /** A call is live while it waits or is held by an operator. */
  predicate Live(s: Center, c: int)
  {
    c in s.queue || Held(s, c)
  }

  function HeldCalls(ops: seq<Op>): set<int>
  {
    set k | 0 <= k < |ops| && ops[k].call.Some? :: ops[k].call.value
  }

  function LiveCalls(s: Center): set<int>
  {
    (set c | c in s.queue) + HeldCalls(s.ops)
  }
}
