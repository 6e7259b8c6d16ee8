# Call-center dispatcher, modelled in Dafny

This project models the dispatch engine of the call-center exercise. A
fixed set of operators, in configuration order, answers incoming calls. A
call rings the first available operator. If nobody is available, the call
waits in a queue. An operator may answer a ringing call, reject it (the
call goes back to the front of the queue and is placed again at once) or
hang it up. When an operator is freed, the next waiting call is placed.
The variant with timers also frees an operator that lets a call ring
for ten seconds.

The repository implements the engine three times:

- `advanced/server.py` replies with the lines of each command joined by
  newlines (module `Advanced`).
- `extra/server.py` does the same and also arms a ten-second callback
  whenever an operator starts ringing (module `Extra`).
- `basic/callcenter.py` prints each line (module `Basic`, where the
  manager's `printed` field is standard output: the lines printed so far).

Modules:

- `Operators`: the operator state machine, as a value `Op` and as the
  class `Operator` whose methods update its fields in place.
- `Pools`: the id-to-operator dictionary as the class `Pool`, holding the
  operator objects in insertion order, together with the scans
  `ring_operators`, `search_call` and `get`.
- `Queues`: the deque of waiting calls as the class `CallQueue`. It holds
  the calls left to right. `hold` is `appendleft`, `first` is `append`,
  and `next` is `pop` from the right.
- `Messages`: the reply lines as events, rendered exactly as the f-strings
  print them.
- `Dispatch`: every entry point of the call manager as a function on
  values. It maps the operators and queue before to the state after, the
  events produced and the operator rung, if any. The three `CallManager`
  classes are each proved to follow these functions, and the properties
  are proved about the functions.
- `Invariants`, `Effects` and `Runs`: the invariants every entry point
  keeps, and what each entry point does to the set of live calls.
- `Timers` and `TimedRuns`: the reactor's pending callbacks. They prove
  that every ringing operator always has a callback of its own pending,
  which is what lets the timeout reclaim it.

Behaviour modelled as the code has it:

- Hanging up a waiting call never places the next waiting call. Only a
  hangup that does not find the call in the queue cascades.
- Unlike a rejected call, a timed-out call is not put back in the queue
  (extra/server.py:97-104): it is dropped.
- `do_answer` does not cancel the operator's callback, and `do_timeout`
  matches only the call id and a ringing holder. A late callback is
  harmless while its call id has not rung again: fired right after the
  answer it finds the holder busy (`Effects.TimeoutAfterAnswerIsHarmless`).
  When a client reuses the id after the call ended and it rings again, the
  stale callback frees that operator before the operator's own callback
  fires (`TimedRuns.ReusedIdRingsAgain`, `TimedRuns.StaleCallbackFreesReusedCall`).
- In the two server variants, hanging up an id that is neither waiting nor
  held while calls wait gives a reply that starts with an empty line.
  `Dispatch.HangupReply` models this.

Uniqueness of call ids is the caller's promise, not the code's: nothing
stops a client from reusing a live call id. The invariants require that a
new call is not live (`Runs.Admissible`).

## Model

| member | source | states |
|---|---|---|
| Operators.Op.Ring | extra/server.py:18-23 | from AVAILABLE the operator rings with the call; from any other state nothing changes; the id never changes; a call is held iff ringing or busy, before and after |
| Operators.Op.Answer | extra/server.py:40-44 | from RINGING the operator becomes BUSY and keeps its call; from any other state nothing changes; the held-iff-not-available invariant is kept |
| Operators.Op.Reject | extra/server.py:32-38 | from RINGING the operator becomes AVAILABLE with no call; from any other state nothing changes; the invariant is kept |
| Operators.Op.Hangup | extra/server.py:25-30 | the operator ends AVAILABLE with no call; an AVAILABLE operator is unchanged; the invariant is kept |
| Operators.HangupIdempotent | basic/callcenter.py:22-27 | hanging up twice is hanging up once |
| Operators.Operator.constructor | extra/server.py:10-14 | a new operator is AVAILABLE with no call and no timeout handle |
| Operators.Operator.IsAvailable | extra/server.py:48-49 | true exactly when hanging up would change nothing; a well-formed available operator holds no call |
| Operators.Operator.IsRinging | extra/server.py:50-51 | true exactly when answer would take effect, and exactly when reject would |
| Operators.Operator.IsBusy | extra/server.py:52-53 | true exactly when hanging up would take effect and answering would not |
| Operators.Operator.Ring | extra/server.py:18-23 | returns true iff the operator was AVAILABLE; its fields change as `Op.Ring` says; timeout_id is untouched |
| Operators.Operator.Hangup | extra/server.py:25-30 | returns true iff the operator was not AVAILABLE; its fields change as `Op.Hangup` says |
| Operators.Operator.Reject | advanced/server.py:29-35 | returns the held call iff the operator was RINGING, and no call otherwise; its fields change as `Op.Reject` says |
| Operators.Operator.Answer | advanced/server.py:37-41 | returns true iff the operator was RINGING; its fields change as `Op.Answer` says |
| Pools.FirstAvailable | extra/server.py:60-64 | the position of the first AVAILABLE operator in configuration order; none is available when it gives nothing |
| Pools.FindHolder | advanced/server.py:62-65 | the position of the first operator holding the call, and no earlier operator holds it; nobody holds it when it gives nothing |
| Pools.Lookup | extra/server.py:72-73 | the position of the operator with the id, or no operator has that id |
| Pools.RingFirst | extra/server.py:60-64 | only the first available operator changes, it rings with the call, and ids and the operator invariant are kept |
| Pools.Position | extra/server.py:72-73 | the position of the first occurrence of the id among the dictionary's keys (no earlier key equals it), or the id is not a key |
| Pools.Pool.constructor | extra/server.py:57-58 | the pool holds the operators in insertion order, and its values are theirs; their ids are distinct keys |
| Pools.Pool.RingOperators | extra/server.py:60-64 | the loop rings the first AVAILABLE operator and returns its position, or returns none; the pool's values become `RingFirst` of the old ones; no handle changes |
| Pools.Pool.SearchCall | basic/callcenter.py:62-65 | the scan returns the first operator holding the call, in configuration order, and changes nothing |
| Pools.Pool.Get | extra/server.py:72-73 | the operator configured under the id, or none |
| Pools.Pool.GetIsLookup | extra/server.py:72-73 | `get` on the objects agrees with `Lookup` on their values |
| Pools.Pool.AnswerAt | advanced/server.py:102-106 | only the named operator answers; the result is true iff it was ringing |
| Pools.Pool.RejectAt | advanced/server.py:108-110 | only the named operator rejects and hands back its call |
| Pools.Pool.HangupAt | advanced/server.py:129 | only the named operator hangs up |
| Pools.Pool.SetTimeoutId | extra/server.py:92-95 | only the named operator's timeout_id changes, to the new handle |
| Queues.AfterHold | extra/server.py:78 | hold puts the call at the left end, in front of all the waiting calls |
| Queues.AfterFirst | extra/server.py:83 | first puts the call at the right end, behind all the waiting calls |
| Queues.Front | extra/server.py:79 | the call next returns is the rightmost: the queue is the rest followed by it |
| Queues.Rest | extra/server.py:79 | next removes exactly the rightmost call |
| Queues.LeftmostIndex | extra/server.py:81 | the leftmost occurrence of the call |
| Queues.RemoveFirst | extra/server.py:81 | remove deletes exactly the leftmost occurrence; the other calls keep their order |
| Queues.Served | extra/server.py:77-83 | the order in which next would hand out the waiting calls, one entry per waiting call |
| Queues.ServedOncePerCall | extra/server.py:77-83 | repeated next hands out every waiting call exactly as often as it waits |
| Queues.NextServesInOrder | extra/server.py:79 | next hands out the first call of the service order and keeps the order of the rest |
| Queues.HoldServedLast | extra/server.py:78 | FIFO: a held call is served after every call already waiting |
| Queues.FirstServedNext | extra/server.py:83 | a call put back with first is the very next call served |
| Queues.HoldAll | extra/server.py:78 | holding several arrivals one after another |
| Queues.HoldAllServedInArrivalOrder | extra/server.py:77-83 | calls held one after another are served in arrival order |
| Queues.CallQueue.constructor | extra/server.py:77 | the queue starts empty |
| Queues.CallQueue.Hold | extra/server.py:78 | the contents become `AfterHold` of the old contents |
| Queues.CallQueue.Next | extra/server.py:79 | returns the rightmost call and removes it; needs a non-empty queue, as pop does |
| Queues.CallQueue.Has | extra/server.py:80 | true exactly when the call is among those next would hand out |
| Queues.CallQueue.Remove | extra/server.py:81 | the contents become `RemoveFirst` of the old contents; the call must be waiting |
| Queues.CallQueue.NotEmpty | extra/server.py:82 | true exactly when next has a call to hand out |
| Queues.CallQueue.First | extra/server.py:83 | the contents become `AfterFirst` of the old contents |
| Messages.NatToStringInjective | advanced/server.py:88 | different call numbers are written differently |
| Messages.IntToStringInjective | advanced/server.py:88 | different call ids, negative ones included, are written differently |
| Messages.Line | advanced/server.py:88-128 | each line opens with "Call ", the call id and a space; the "ringing", "answered", "rejected" and "ignored" lines end with the operator's id |
| Messages.LineNamesCall | advanced/server.py:88-128 | equal lines are about the same call: a line names its call unambiguously |
| Messages.Render | advanced/server.py:84-114 | the reply is empty exactly when the command produced no line |
| Messages.LinesPointwise | basic/callcenter.py:84-126 | specifies `Lines`, the lines the console prints for a run of events: one printed line per event, and the i-th line printed is the line of the i-th event |
| Messages.LinesAppend | basic/callcenter.py:84-126 | printing two runs of events one after the other prints their lines one after the other |
| Messages.PrintedInTurn | basic/callcenter.py:108-110 | output followed by the lines of one run and then another is output followed by the lines of both runs |
| Messages.RenderAppend | advanced/server.py:130 | the replies of two event runs join with one newline |
| Dispatch.Place | advanced/server.py:92-98 | the number of operators is kept; one line; the operator rung, if any, exists |
| Dispatch.PlaceOutcome | advanced/server.py:92-98 | placing a call either rings the first available operator, which alone changes, or holds the call at the back with the operators unchanged |
| Dispatch.Call | advanced/server.py:84-100 | the number of operators is kept; the operator it reports rung, if any, is one of them |
| Dispatch.Answer | advanced/server.py:102-106 | the number of operators is kept; nobody is rung |
| Dispatch.Reject | advanced/server.py:108-114 | the number of operators is kept; the operator it reports rung, if any, is one of them |
| Dispatch.Release | advanced/server.py:122-129 | the number of operators is kept; nobody is rung |
| Dispatch.Cascade | advanced/server.py:130 | the cascade keeps the number of operators; the operator it reports rung is the step's own or one of the operators |
| Dispatch.Hangup | advanced/server.py:116-132 | the number of operators is kept; the operator it reports rung, if any, is one of them |
| Dispatch.Timeout | extra/server.py:97-104 | the number of operators is kept; the operator it reports rung, if any, is one of them |
| Dispatch.SettleOutcome | advanced/server.py:122-130 | hanging up a call that is not waiting is the release followed by the cascade when calls wait, and the reply joins their lines with one newline |
| Dispatch.HangupReply | advanced/server.py:116-132 | the do_hangup reply is empty exactly when the call was not waiting, nobody was released with a line and no call waits |
| Dispatch.HangupReplyRenders | advanced/server.py:116-132 | the do_hangup reply is the hangup's lines joined by newlines, with a leading empty line exactly when the id is not live and calls wait |
| Dispatch.CascadeReply | advanced/server.py:122-130 | when calls wait and the id is not waiting, the reply joins the release line and the cascade lines with one newline, and starts with an empty line when nobody held the call |
| Invariants.ConsistentIsSettling | advanced/server.py:84-132 | the full invariant implies the weaker one that holds mid-cascade |
| Invariants.PlacePreserves | advanced/server.py:92-98 | placing a call that is not live restores every invariant |
| Invariants.TakeNext | advanced/server.py:90 | taking the next call keeps the weaker invariant, and that call is no longer live |
| Invariants.CascadePreserves | advanced/server.py:130 | a cascade from the weaker invariant restores every invariant |
| Invariants.FreeOne | advanced/server.py:129 | freeing one operator leaves the weaker invariant |
| Invariants.CallPreserves | advanced/server.py:84-100 | do_call of a new call, or of the next waiting call, keeps every invariant |
| Invariants.AnswerPreserves | advanced/server.py:102-106 | do_answer keeps every invariant |
| Invariants.RejectPreserves | advanced/server.py:108-114 | do_reject keeps every invariant |
| Invariants.RemoveKeepsNoDup | advanced/server.py:75 | removing a waiting call from a queue without duplicates leaves no duplicates and drops only that call |
| Invariants.HangupPreserves | advanced/server.py:116-132 | do_hangup keeps every invariant |
| Invariants.TimeoutPreserves | extra/server.py:97-104 | do_timeout keeps every invariant |
| Effects.HeldCallsUpdate | advanced/server.py:129 | replacing one operator changes the held calls by exactly its old and new call |
| Effects.PlaceAddsCall | advanced/server.py:92-98 | placing a call adds it to the live calls and keeps the others |
| Effects.CallNew | basic/callcenter.py:84-98 | do_call of a new id prints "received" then either "ringing" (one operator changed, queue unchanged) or "waiting" (call held at the back, operators unchanged); it becomes live |
| Effects.CallFromQueue | advanced/server.py:84-100 | do_call(None) while calls wait finds nobody free: the next call is held again, the queue rotates and no call is gained or lost |
| Effects.AnswerEffect | advanced/server.py:102-106 | do_answer on a ringing operator makes it busy with the "answered" line; otherwise nothing changes and no line is produced |
| Effects.RejectRerings | basic/callcenter.py:105-110 | do_reject prints the rejection then the ringing line for the same call, leaves the queue as it was, and re-rings the rejecting operator whenever calls wait |
| Effects.HangupQueued | advanced/server.py:119-121 | hanging up a waiting call removes just that occurrence with the "missed" line; operators are unchanged and nothing is rung |
| Effects.RefillFreed | advanced/server.py:129-130 | while calls wait, the operator just freed rings the next waiting call |
| Effects.HangupHeld | advanced/server.py:122-130 | hanging up a held call frees its operator, with "finished" when busy and "missed" when ringing, and that operator then rings the next waiting call, if any |
| Effects.HangupUnknownRotates | basic/callcenter.py:112-126 | hanging up an unknown id while calls wait rotates the queue by one and keeps its length |
| Effects.TimeoutReclaims | extra/server.py:97-104 | a timeout for a call whose holder still rings frees that operator, drops the call for good and cascades |
| Effects.TimeoutOtherwiseNoop | extra/server.py:100 | a timeout for a call that nobody holds, or whose holder no longer rings, changes nothing and replies "" |
| Effects.TimeoutAfterAnswerIsHarmless | extra/server.py:126-131 | a timeout fired right after do_answer finds the holder busy and changes nothing |
| Runs.Apply | advanced/server.py:148-149 | a command runs the do_ method it names: a new call's reply starts "received" and has two lines, an answer gives at most the "answered" line for that operator and rings nobody, a reject starts with the rejection by that operator |
| Runs.ApplyPreserves | advanced/server.py:84-132 | every admissible command keeps every invariant |
| Runs.Run | advanced/server.py:84-132 | every state a run of admissible commands reaches is consistent |
| Runs.Initial | advanced/server.py:80-82 | at start-up every operator, configured under distinct keys, is available and nobody waits |
| Runs.InitialRunsConsistent | advanced/server.py:80-132 | every run of client commands from start-up, including bare calls that take the next waiting call, keeps every invariant |
| Timers.Arm | extra/server.py:92-95 | set_timeout schedules one callback under a new handle and stores it in the rung operator |
| Timers.Fire | extra/server.py:174-177 | a fired callback leaves the reactor; handles are unchanged |
| Timers.Cancel | extra/server.py:136 | cancel drops the operator's callback; handles are unchanged |
| Timers.ArmKeeps | extra/server.py:92-95 | arming the operator just rung keeps every ringing operator armed |
| Timers.StopKeeps | extra/server.py:25-38 | an operator that stops ringing keeps the others armed |
| Timers.DropKeeps | extra/server.py:136 | dropping a callback no ringing operator owns keeps every ringing operator armed |
| Timers.PlaceKeepsArmed | extra/server.py:116-122 | placing a call arms the operator it rings |
| Timers.CallKeepsArmed | extra/server.py:106-124 | do_call arms exactly the operator it rings, and every ringing operator stays armed |
| Timers.AnswerKeepsArmed | extra/server.py:126-131 | do_answer arms nothing and keeps the still-ringing operators armed |
| Timers.RejectKeepsArmed | extra/server.py:133-141 | do_reject cancels the rejecting operator's callback and arms the operator rung again |
| Timers.CascadeKeepsArmed | extra/server.py:158 | a cascade arms the operator it rings |
| Timers.HangupKeepsArmed | extra/server.py:143-160 | do_hangup cancels nothing and arms the operator the cascade rings |
| Timers.ExpireKeepsArmed | extra/server.py:97-104 | a fired callback runs do_timeout and every operator still ringing stays armed |
| Timers.ExpiryReclaims | extra/server.py:97-104 | every ringing operator has a pending callback for its call, and when it fires that operator is freed with the "ignored" line and the call is no longer live |
| Timers.InitialArmed | extra/server.py:10-14 | at start-up nobody rings and no callback is pending |
| TimedRuns.RejectCanCancel | extra/server.py:136 | in a reachable state the operator do_reject names has a pending callback to cancel |
| TimedRuns.Next | extra/server.py:92-160 | one client command or fired callback; the operators' handles stay one per operator |
| TimedRuns.NextPreserves | extra/server.py:92-160 | every command and every fired callback keeps the invariants and every ringing operator armed |
| TimedRuns.TimedRun | extra/server.py:174-177 | every state a run of commands and callbacks reaches is consistent and armed |
| TimedRuns.Start | extra/server.py:87-90 | at start-up every operator is available, nobody waits and no callback is scheduled |
| TimedRuns.InitialTimedRunsGood | extra/server.py:85-177 | along every run from start-up, each ringing operator has its callback pending |
| TimedRuns.ReusedIdRingsAgain | extra/server.py:126-131 | after call 1 rings A, is answered, is hung up and arrives again, A rings call 1 with both the first ring's callback and its own pending |
| TimedRuns.StaleCallbackFreesReusedCall | extra/server.py:97-104 | in that run, the first ring's callback fires: A is freed with "Call 1 ignored by operator A" while its own callback is still pending |
| Advanced.CallManager.constructor | advanced/server.py:80-82 | the manager owns a new pool of the operators in configuration order and a new empty queue |
| Advanced.CallManager.Place | advanced/server.py:92-98 | ring_operators or hold, with the reply line, as `Dispatch.Place` |
| Advanced.CallManager.DoCall | advanced/server.py:84-100 | the new state and the reply are those of `Dispatch.Call` |
| Advanced.CallManager.DoAnswer | advanced/server.py:102-106 | the new state and the reply are those of `Dispatch.Answer`, so "" when the operator was not ringing |
| Advanced.CallManager.DoReject | advanced/server.py:108-114 | the new state and the reply are those of `Dispatch.Reject` |
| Advanced.CallManager.Release | advanced/server.py:122-129 | the holder, if any, hangs up, with the reply line of `Dispatch.Release` |
| Advanced.CallManager.DoHangup | advanced/server.py:116-132 | the new state is that of `Dispatch.Hangup` and the reply is `HangupReply` |
| Advanced.CallManager.Settle | advanced/server.py:122-130 | the holder, if any, hangs up and the queue cascades: the state of `Cascade` after `Release`, with the reply `HangupReply` |
| Extra.Reactor.constructor | extra/server.py:194-196 | no callback is pending |
| Extra.Reactor.CallLater | extra/server.py:94-95 | schedules the call under a new handle |
| Extra.Reactor.Cancel | extra/server.py:136 | drops a pending callback |
| Extra.Reactor.Fire | extra/server.py:174-177 | a pending callback leaves the reactor and hands back its call |
| Extra.CallManager.constructor | extra/server.py:87-90 | the manager owns a new pool of the operators, a new empty queue and a new reactor with nothing pending |
| Extra.CallManager.SetTimeout | extra/server.py:92-95 | the timers become `Arm` of the old ones for the given operator; the dispatcher state is unchanged |
| Extra.CallManager.Place | extra/server.py:116-122 | as `Dispatch.Place`, and the operator rung is armed |
| Extra.CallManager.DoCall | extra/server.py:106-124 | the new state and the reply are those of `Dispatch.Call`; the operator rung is armed |
| Extra.CallManager.DoAnswer | extra/server.py:126-131 | as `Dispatch.Answer`; the timers are unchanged |
| Extra.CallManager.DoReject | extra/server.py:133-141 | as `Dispatch.Reject`; the rejecting operator's callback is cancelled and the operator rung is armed |
| Extra.CallManager.Release | extra/server.py:151-157 | as `Dispatch.Release`; no callback is cancelled |
| Extra.CallManager.DoHangup | extra/server.py:143-160 | as `Dispatch.Hangup` with reply `HangupReply`; the operator the cascade rings is armed |
| Extra.CallManager.Settle | extra/server.py:150-158 | as `Advanced.CallManager.Settle`; the operator the cascade rings is armed and no callback is cancelled |
| Extra.CallManager.DoTimeout | extra/server.py:97-104 | as `Dispatch.Timeout`; the operator the cascade rings is armed |
| Extra.CallManager.Expire | extra/server.py:174-177 | the fired callback leaves the reactor and do_timeout runs for its call |
| Basic.CallManager.constructor | basic/callcenter.py:80-82 | the manager owns a new pool of the operators in configuration order and a new empty queue; nothing has been printed |
| Basic.CallManager.Place | basic/callcenter.py:92-98 | as `Dispatch.Place`; returns the one line do_call prints for it |
| Basic.CallManager.DoCall | basic/callcenter.py:84-98 | the new state is that of `Dispatch.Call` and its lines are printed in order |
| Basic.CallManager.DoAnswer | basic/callcenter.py:100-103 | as `Dispatch.Answer`; nothing is printed when the operator was not ringing |
| Basic.CallManager.DoReject | basic/callcenter.py:105-110 | as `Dispatch.Reject`; the rejection line, then the lines of the re-placement, are printed |
| Basic.CallManager.Release | basic/callcenter.py:119-125 | as `Dispatch.Release`; the line, if any, is printed |
| Basic.CallManager.DoHangup | basic/callcenter.py:112-126 | as `Dispatch.Hangup`; its lines are printed in order, with no leading empty line |
| Basic.CallManager.Settle | basic/callcenter.py:118-126 | the holder, if any, hangs up and the queue cascades: the state of `Cascade` after `Release`, with its lines printed in order |

## Left out

- The Twisted transport is not modelled: the protocol and factory classes, listenTCP, the reactor loop, and the JSON encoding of replies.
- Real time is not modelled. The ten-second delay of callLater is replaced by the reactor's pending callbacks, and the environment may fire any of them at any time (`Extra.CallManager.Expire`).
- The dispatch of a command by looking up "do_" + name is not modelled. `Runs.Command` is the closed set of commands instead.
- The Cmd command loop of the console variant is not modelled, and neither are the two clients.
- The parsing of arguments is not modelled. `int()` parsing is skipped and ids arrive parsed. The `if call:` test becomes `Option<int>`, where None means "take the next waiting call".
- `set_state` is not modelled: it is never called and it bypasses the guards.
- The `protocol` back-reference of the manager is not modelled, and neither is the write of a timeout reply to the client (checkTimeout writes only a non-empty reply).
- Inputs for which the code crashes or misbehaves become preconditions:
  - an operator id that is not configured (get returns None);
  - do_reject on an operator that is not ringing (the code would queue False);
  - do_reject in the timed variant when the operator's callback has already fired (cancel would raise);
  - next() on an empty queue, including a bare `call` command while nobody waits (pop would raise);
  - duplicate operator ids (the dictionary would keep only the last of them).
- Extra.CallManager.DoReject: requires a pending callback for the rejecting operator. `TimedRuns.RejectCanCancel` shows this always holds in states reachable from start-up.
- Timers.ExpireKeepsArmed: requires that no two operators hold the same call, which holds only while clients never reuse a live call id.
- Runs.Admissible: excludes a new call whose id is already live. The code accepts such a call, but the uniqueness invariants need fresh ids.
