/**
  Runs of the variant with ring timeouts: client commands and the
  reactor's callbacks, interleaved in any order.  A timeout reaches the
  call manager only through a pending callback firing, so the state is the
  dispatcher's values together with the reactor's view of the timers.
*/
module TimedRuns {
  import opened Wrappers
  import opened Operators
  import opened Pools
  import opened Messages
  import opened Dispatch
  import opened Invariants
  import opened Runs
  import opened Timers

  /** A client command, or the reactor firing the callback under a handle. */
  datatype Action = Client(cmd: Command) | Expire(h: nat)

  datatype Clocked = Clocked(center: Center, timing: Timing)

  /** Every invariant of the dispatcher, and every ringing operator armed. */
  ghost predicate Good(m: Clocked)
  {
    Consistent(m.center) && Armed(m.center.ops, m.timing)
  }

  predicate Enabled(m: Clocked, a: Action)
  {
    match a
    case Client(cmd) => Admissible(m.center, cmd)
    case Expire(h) => h in m.timing.pending
  }

  /** In a good state the operator do_reject names rings with a pending callback, so its cancel() is defined. */
  lemma RejectCanCancel(m: Clocked, id: string)
    requires Good(m) && Admissible(m.center, RejectCmd(id))
    ensures var k := Lookup(m.center.ops, id).value;
      && k < |m.timing.handles| && m.timing.handles[k].Some? && m.timing.handles[k].value in m.timing.pending
  {
  }

  /** One action: the dispatcher's step, the callbacks it cancels or that fire, and the one it arms. */
  function Next(m: Clocked, a: Action): (n: Clocked)
    requires Good(m) && Enabled(m, a)
    ensures |n.timing.handles| == |m.timing.handles|
  {
    var s := m.center;
    var t := m.timing;
    match a
    case Client(CallCmd(c)) =>
      var r := Call(s, c); Clocked(r.after, Arm(t, r.rung))
    case Client(AnswerCmd(id)) =>
      Clocked(Answer(s, Lookup(s.ops, id).value).after, t)
    case Client(RejectCmd(id)) =>
      var k := Lookup(s.ops, id).value;
      var r := Reject(s, k); Clocked(r.after, Arm(Cancel(t, k), r.rung))
    case Client(HangupCmd(c)) =>
      var r := Hangup(s, c); Clocked(r.after, Arm(t, r.rung))
    case Expire(h) =>
      var r := Timeout(s, t.pending[h]); Clocked(r.after, Arm(Fire(t, h), r.rung))
  }

  /** Every enabled action keeps the dispatcher consistent and every ringing operator armed. */
  lemma {:induction false} NextPreserves(m: Clocked, a: Action)
    requires Good(m) && Enabled(m, a)
    ensures Good(Next(m, a))
  {
    var s := m.center;
    var t := m.timing;
    match a
    case Client(CallCmd(c)) =>
      CallPreserves(s, c);
      CallKeepsArmed(s, c, t);
    case Client(AnswerCmd(id)) =>
      AnswerPreserves(s, Lookup(s.ops, id).value);
      AnswerKeepsArmed(s, Lookup(s.ops, id).value, t);
    case Client(RejectCmd(id)) =>
      RejectPreserves(s, Lookup(s.ops, id).value);
      RejectKeepsArmed(s, Lookup(s.ops, id).value, t);
    case Client(HangupCmd(c)) =>
      HangupPreserves(s, c);
      HangupKeepsArmed(s, c, t);
    case Expire(h) =>
      TimeoutPreserves(s, t.pending[h]);
      ExpireKeepsArmed(s, h, t);
  }

  /** The state after the actions, or None when one of them is not enabled. */
  ghost function TimedRun(m: Clocked, acts: seq<Action>): (r: Option<Clocked>)
    requires Good(m)
    ensures r.Some? ==> Good(r.value)
    decreases |acts|
  {
    if acts == [] then Some(m)
    else if !Enabled(m, acts[0]) then None
    else
      NextPreserves(m, acts[0]);
      TimedRun(Next(m, acts[0]), acts[1..])
  }

  /** The manager at start-up: every operator available, nobody waiting, no callback scheduled. */
  function Start(ids: seq<string>): (m: Clocked)
    requires UniqueKeys(ids)
    ensures m.center == Initial(ids) && m.timing.pending == map[] && m.timing.next == 0
    ensures |m.timing.handles| == |ids| && forall k :: 0 <= k < |ids| ==> m.timing.handles[k] == None
  {
    Clocked(Initial(ids), Timing(seq(|ids|, _ => None), map[], 0))
  }

  /**
    Along every run from start-up, each ringing operator has a pending
    callback for its call, so its ten seconds are always running, and every
    do_reject a client can issue finds a callback to cancel.
  */
  lemma InitialTimedRunsGood(ids: seq<string>, acts: seq<Action>)
    requires UniqueKeys(ids)
    ensures Good(Start(ids))
    ensures TimedRun(Start(ids), acts).Some? ==> Good(TimedRun(Start(ids), acts).value)
  {
    InitialRunsConsistent(ids, []);
    InitialArmed(Initial(ids).ops);
  }

  /** Call 1 rings A; A answers; the call is hung up; call 1 arrives again; then the first callback fires. */
  function ReusedIdRun(): (acts: seq<Action>)
    ensures |acts| == 5 && acts[4] == Expire(0)
  {
    [Client(CallCmd(Some(1))), Client(AnswerCmd("A")), Client(HangupCmd(1)), Client(CallCmd(Some(1))), Expire(0)]
  }

  /** The states of ReusedIdRun, before each action and after the last. */
  function ReuseState(i: nat): Clocked
  {
    if i == 0 then Clocked(Center([Op("A", Available, None)], []), Timing([None], map[], 0))
    else if i == 1 then Clocked(Center([Op("A", Ringing, Some(1))], []), Timing([Some(0)], map[0 := 1], 1))
    else if i == 2 then Clocked(Center([Op("A", Busy, Some(1))], []), Timing([Some(0)], map[0 := 1], 1))
    else if i == 3 then Clocked(Center([Op("A", Available, None)], []), Timing([Some(0)], map[0 := 1], 1))
    else if i == 4 then Clocked(Center([Op("A", Ringing, Some(1))], []), Timing([Some(1)], map[0 := 1, 1 := 1], 2))
    else Clocked(Center([Op("A", Available, None)], []), Timing([Some(1)], map[1 := 1], 2))
  }

  lemma ReuseStart()
    ensures UniqueKeys(["A"]) && Start(["A"]) == ReuseState(0) && Good(ReuseState(0))
  {
    InitialTimedRunsGood(["A"], []);
  }

  /** Call 1 rings A under handle 0. */
  lemma ReuseStep0()
    requires Good(ReuseState(0))
    ensures Enabled(ReuseState(0), ReusedIdRun()[0]) && Next(ReuseState(0), ReusedIdRun()[0]) == ReuseState(1)
  {
    assert FirstAvailable(ReuseState(0).center.ops) == Some(0);
  }

  /** A answers; handle 0 stays pending. */
  lemma ReuseStep1()
    requires Good(ReuseState(1))
    ensures Enabled(ReuseState(1), ReusedIdRun()[1]) && Next(ReuseState(1), ReusedIdRun()[1]) == ReuseState(2)
  {
    assert Lookup(ReuseState(1).center.ops, "A") == Some(0);
  }

  /** Call 1 is hung up; A is available again. */
  lemma ReuseStep2()
    requires Good(ReuseState(2))
    ensures Enabled(ReuseState(2), ReusedIdRun()[2]) && Next(ReuseState(2), ReusedIdRun()[2]) == ReuseState(3)
  {
    assert FindHolder(ReuseState(2).center.ops, 1) == Some(0);
  }

  /** Call 1 arrives again and rings A under handle 1. */
  lemma ReuseStep3()
    requires Good(ReuseState(3))
    ensures Enabled(ReuseState(3), ReusedIdRun()[3]) && Next(ReuseState(3), ReusedIdRun()[3]) == ReuseState(4)
  {
    assert FindHolder(ReuseState(3).center.ops, 1) == None;
    assert FirstAvailable(ReuseState(3).center.ops) == Some(0);
  }

  /** Handle 0 fires and frees A. */
  lemma ReuseStep4()
    requires Good(ReuseState(4))
    ensures Enabled(ReuseState(4), ReusedIdRun()[4]) && Next(ReuseState(4), ReusedIdRun()[4]) == ReuseState(5)
    ensures Timeout(ReuseState(4).center, 1).events == [IgnoredBy(1, "A")]
  {
    assert FindHolder(ReuseState(4).center.ops, 1) == Some(0);
  }

  lemma ReuseStep(i: nat)
    requires i < 5 && Good(ReuseState(i))
    ensures Enabled(ReuseState(i), ReusedIdRun()[i]) && Next(ReuseState(i), ReusedIdRun()[i]) == ReuseState(i + 1)
    ensures Good(ReuseState(i + 1))
  {
    if i == 0 { ReuseStep0(); }
    else if i == 1 { ReuseStep1(); }
    else if i == 2 { ReuseStep2(); }
    else if i == 3 { ReuseStep3(); }
    else { ReuseStep4(); }
    NextPreserves(ReuseState(i), ReusedIdRun()[i]);
  }

  lemma {:induction false} ReuseRun(i: nat, j: nat)
    requires i <= j <= 5 && Good(ReuseState(i))
    ensures TimedRun(ReuseState(i), ReusedIdRun()[i..j]) == Some(ReuseState(j))
    decreases j - i
  {
    if i < j {
      ReuseStep(i);
      ReuseRun(i + 1, j);
      assert ReusedIdRun()[i..j][1..] == ReusedIdRun()[i + 1..j];
    }
  }

  /**
    After the first four actions of ReusedIdRun, A rings call 1 again with
    two callbacks pending for call 1: its own (handle 1) and the one of the
    first ring (handle 0), which do_answer left pending.
  */
  lemma ReusedIdRingsAgain()
    ensures UniqueKeys(["A"]) && Good(Start(["A"]))
    ensures var r := TimedRun(Start(["A"]), ReusedIdRun()[..4]);
      && r.Some? && r.value.center == Center([Op("A", Ringing, Some(1))], [])
      && r.value.timing == Timing([Some(1)], map[0 := 1, 1 := 1], 2)
  {
    ReuseStart();
    ReuseRun(0, 4);
    assert ReusedIdRun()[0..4] == ReusedIdRun()[..4];
  }

  /**
    do_timeout matches only the call id and a ringing holder.  So when a
    call id rings again after its call ended, the stale callback of the
    first ring frees the operator with "ignored", while the operator's own
    callback is still pending.
  */
  lemma StaleCallbackFreesReusedCall()
    ensures UniqueKeys(["A"]) && Good(Start(["A"]))
    ensures Timeout(ReuseState(4).center, 1).events == [IgnoredBy(1, "A")]
    ensures var r := TimedRun(Start(["A"]), ReusedIdRun());
      && r.Some? && r.value.center == Center([Op("A", Available, None)], [])
      && r.value.timing == Timing([Some(1)], map[1 := 1], 2)
  {
    ReuseStart();
    ReuseRun(0, 5);
    ReuseStep4();
    assert ReusedIdRun()[0..5] == ReusedIdRun();
  }
}
