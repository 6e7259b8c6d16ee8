/**
  Runs of the dispatcher: the client commands, applied one after another.
  A command is admissible when the code defines its behaviour and the
  caller keeps call ids unique: a new call id is not live, a bare call
  finds a waiting call for next() to hand out, an operator id is
  configured, and a rejecting operator is ringing.  The timeouts of the
  timed variant are not client commands; module TimedRuns adds them.
*/
module Runs {
  import opened Wrappers
  import opened Operators
  import opened Pools
  import opened Messages
  import opened Dispatch
  import opened Invariants

  /** The closed set of commands, in place of the lookup of "do_" + command by name. */
  datatype Command =
    | CallCmd(arg: Option<int>)
    | AnswerCmd(op: string)
    | RejectCmd(op: string)
    | HangupCmd(call: int)

  predicate Admissible(s: Center, cmd: Command)
  {
    match cmd
    case CallCmd(c) => if c.Some? then !Live(s, c.value) else s.queue != []
    case AnswerCmd(id) => Lookup(s.ops, id).Some?
    case RejectCmd(id) => Lookup(s.ops, id).Some? && s.ops[Lookup(s.ops, id).value].state == Ringing
    case HangupCmd(_) => true
  }

  /** The do_ method the command names, run on s. */
  function Apply(s: Center, cmd: Command): (r: Step)
    requires Wf(s) && Admissible(s, cmd)
    ensures |r.after.ops| == |s.ops| && (r.rung.Some? ==> r.rung.value.op < |s.ops|)
    ensures cmd.CallCmd? && cmd.arg.Some? ==> |r.events| == 2 && r.events[0] == Received(cmd.arg.value)
    ensures cmd.AnswerCmd? ==> r.rung.None? && |r.events| <= 1 && (r.events != [] ==> r.events[0] == AnsweredBy(r.events[0].call, cmd.op))
    ensures cmd.RejectCmd? ==> r.events != [] && r.events[0] == RejectedBy(s.ops[Lookup(s.ops, cmd.op).value].call.value, cmd.op)
  {
    match cmd
    case CallCmd(c) => Call(s, c)
    case AnswerCmd(id) => Answer(s, Lookup(s.ops, id).value)
    case RejectCmd(id) => Reject(s, Lookup(s.ops, id).value)
    case HangupCmd(c) => Hangup(s, c)
  }

  lemma ApplyPreserves(s: Center, cmd: Command)
    requires Consistent(s) && Admissible(s, cmd)
    ensures Consistent(Apply(s, cmd).after)
  {
    match cmd
    case CallCmd(c) => CallPreserves(s, c);
    case AnswerCmd(id) => AnswerPreserves(s, Lookup(s.ops, id).value);
    case RejectCmd(id) => RejectPreserves(s, Lookup(s.ops, id).value);
    case HangupCmd(c) => HangupPreserves(s, c);
  }

  /**
    The state after running cmds from s, or None when the run reaches a
    command that is not admissible.  Every state a run reaches is consistent.
  */
  ghost function Run(s: Center, cmds: seq<Command>): (r: Option<Center>)
    requires Consistent(s)
    ensures r.Some? ==> Consistent(r.value)
    decreases |cmds|
  {
    if cmds == [] then Some(s)
    else if !Admissible(s, cmds[0]) then None
    else
      ApplyPreserves(s, cmds[0]);
      Run(Apply(s, cmds[0]).after, cmds[1..])
  }

  /** The state the call manager starts in: every configured operator available, nobody waiting. */
  function Initial(ids: seq<string>): (s: Center)
    requires UniqueKeys(ids)
    ensures DistinctIds(s.ops)
    ensures |s.ops| == |ids| && s.queue == []
    ensures forall k :: 0 <= k < |ids| ==> s.ops[k] == Op(ids[k], Available, None)
  {
    Center(seq(|ids|, k requires 0 <= k < |ids| => Op(ids[k], Available, None)), [])
  }

  /** Every admissible run from the initial state keeps every invariant. */
  lemma InitialRunsConsistent(ids: seq<string>, cmds: seq<Command>)
    requires UniqueKeys(ids)
    ensures Consistent(Initial(ids))
    ensures Run(Initial(ids), cmds).Some? ==> Consistent(Run(Initial(ids), cmds).value)
  {
  }
}
