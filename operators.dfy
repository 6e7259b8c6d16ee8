/**
  A single operator: a three-state machine (available, ringing, busy) that
  holds at most one call.  Every transition is guarded and reports failure
  by its result, never by a fault.
*/
module Operators {
  import opened Wrappers

  datatype State = Available | Ringing | Busy

  /** The observable value of an operator: its id, state and held call. */
  datatype Op = Op(id: string, state: State, call: Option<int>) {

    /** An operator holds a call exactly when it is ringing or busy. */
    predicate Wf() {
      call.Some? <==> state != Available
    }

    /** ring: only an available operator starts ringing, and it then holds c. */
    function Ring(c: int): (r: Op)
      ensures r.id == id
      ensures state == Available ==> r.state == Ringing && r.call == Some(c)
      ensures state != Available ==> r == this
      ensures Wf() ==> r.Wf()
    {
      if state == Available then Op(id, Ringing, Some(c)) else this
    }

    /** answer: a ringing operator becomes busy and keeps its call. */
    function Answer(): (r: Op)
      ensures r.id == id && r.call == call
      ensures state == Ringing ==> r.state == Busy
      ensures state != Ringing ==> r == this
      ensures Wf() ==> r.Wf()
    {
      if state == Ringing then Op(id, Busy, call) else this
    }

    /** reject: a ringing operator becomes available and lets its call go. */
    function Reject(): (r: Op)
      ensures r.id == id
      ensures state == Ringing ==> r.state == Available && r.call == None
      ensures state != Ringing ==> r == this
      ensures Wf() ==> r.Wf()
    {
      if state == Ringing then Op(id, Available, None) else this
    }

    /** hangup: a ringing or busy operator becomes available with no call. */
    function Hangup(): (r: Op)
      ensures r.id == id && r.state == Available
      ensures state != Available ==> r.call == None
      ensures state == Available ==> r == this
      ensures Wf() ==> r.Wf() && r.call == None
    {
      if state != Available then Op(id, Available, None) else this
    }
  }

  /** Hanging up twice is the same as hanging up once. */
  lemma HangupIdempotent(o: Op)
    ensures o.Hangup().Hangup() == o.Hangup()
  {
  }

  class Operator {
    const id: string
    var state: State
    var call: Option<int>
    /** The pending ring timeout (a timer handle); only the timed variant sets it. */
    var timeoutId: Option<nat>

    function View(): Op
      reads this
    {
      Op(id, state, call)
    }

    constructor (id: string)
      ensures this.id == id && View() == Op(id, Available, None) && timeoutId == None
    {
      this.id := id;
      state := Available;
      call := None;
      timeoutId := None;
    }

    /** is_available: exactly when hanging up would change nothing; then the operator holds no call. */
    predicate IsAvailable(): (b: bool)
      reads this
      ensures b <==> View().Hangup() == View()
      ensures View().Wf() ==> (b <==> call.None?)
    {
      state == Available
    }

    /** is_ringing: exactly when answer, and equally reject, would take effect. */
    predicate IsRinging(): (b: bool)
      reads this
      ensures b <==> View().Answer() != View()
      ensures b <==> View().Reject() != View()
    {
      state == Ringing
    }

    /** is_busy: exactly when hanging up would take effect but answering would not. */
    predicate IsBusy(): (b: bool)
      reads this
      ensures b <==> View().Hangup() != View() && View().Answer() == View()
    {
      state == Busy
    }

    method Ring(c: int) returns (ok: bool)
      modifies this
      ensures ok <==> old(state) == Available
      ensures View() == old(View()).Ring(c)
      ensures timeoutId == old(timeoutId)
    {
      if IsAvailable() {
        state := Ringing;
        call := Some(c);
        return true;
      }
      return false;
    }

    method Hangup() returns (ok: bool)
      modifies this
      ensures ok <==> old(state) != Available
      ensures View() == old(View()).Hangup()
      ensures timeoutId == old(timeoutId)
    {
      if IsBusy() || IsRinging() {
        state := Available;
        call := None;
        return true;
      }
      return false;
    }

    /** Returns the released call, or None where the source returns False. */
    method Reject() returns (released: Option<int>)
      modifies this
      ensures old(state) == Ringing ==> released == old(call)
      ensures old(state) != Ringing ==> released == None
      ensures View() == old(View()).Reject()
      ensures timeoutId == old(timeoutId)
    {
      if IsRinging() {
        state := Available;
        released := call;
        call := None;
        return;
      }
      return None;
    }

    method Answer() returns (ok: bool)
      modifies this
      ensures ok <==> old(state) == Ringing
      ensures View() == old(View()).Answer()
      ensures timeoutId == old(timeoutId)
    {
      if IsRinging() {
        state := Busy;
        return true;
      }
      return false;
    }
  }
}
