/**
  The operator pool: the operators in configuration order (the insertion
  order of the id-to-operator dictionary).  Operators are identified by
  their position in that order.
*/
module Pools {
  import opened Wrappers
  import opened Operators

  /** The position of the first available operator, if any. */
  function FirstAvailable(ops: seq<Op>): (k: Option<nat>)
    ensures k.Some? ==> k.value < |ops| && ops[k.value].state == Available
    ensures k.Some? ==> forall j :: 0 <= j < k.value ==> ops[j].state != Available
    ensures k.None? ==> forall j :: 0 <= j < |ops| ==> ops[j].state != Available
  {
    if ops == [] then None
    else if ops[0].state == Available then Some(0)
    else match FirstAvailable(ops[1..])
      case None => None
      case Some(j) => Some(j + 1)
  }

  /** The position of the first operator holding call c, if any. */
  function FindHolder(ops: seq<Op>, c: int): (k: Option<nat>)
    ensures k.Some? ==> k.value < |ops| && ops[k.value].call == Some(c)
    ensures k.Some? ==> forall j :: 0 <= j < k.value ==> ops[j].call != Some(c)
    ensures k.None? ==> forall j :: 0 <= j < |ops| ==> ops[j].call != Some(c)
  {
    if ops == [] then None
    else if ops[0].call == Some(c) then Some(0)
    else match FindHolder(ops[1..], c)
      case None => None
      case Some(j) => Some(j + 1)
  }

  /** The position of the first occurrence of id among the ids, if any. */
  function Position(ids: seq<string>, id: string): (k: Option<nat>)
    ensures k.Some? ==> k.value < |ids| && ids[k.value] == id
    ensures k.Some? ==> forall j :: 0 <= j < k.value ==> ids[j] != id
    ensures k.None? ==> forall j :: 0 <= j < |ids| ==> ids[j] != id
  {
    if ids == [] then None
    else if ids[0] == id then Some(0)
    else match Position(ids[1..], id)
      case None => None
      case Some(j) => Some(j + 1)
  }

  /** The operators' ids, in configuration order: the keys of the dictionary. */
  function Ids(ops: seq<Op>): (ids: seq<string>)
    ensures |ids| == |ops| && forall j :: 0 <= j < |ops| ==> ids[j] == ops[j].id
  {
    seq(|ops|, j requires 0 <= j < |ops| => ops[j].id)
  }

  /** The position of the operator configured under id, if any. */
  function Lookup(ops: seq<Op>, id: string): (k: Option<nat>)
    ensures k.Some? ==> k.value < |ops| && ops[k.value].id == id
    ensures k.None? ==> forall j :: 0 <= j < |ops| ==> ops[j].id != id
  {
    Position(Ids(ops), id)
  }

  /** ring_operators on values: the first available operator rings with c, nobody else changes. */
  function RingFirst(ops: seq<Op>, c: int): (r: seq<Op>)
    ensures |r| == |ops|
    ensures forall j :: 0 <= j < |ops| ==> r[j].id == ops[j].id
    ensures forall j :: 0 <= j < |ops| && ops[j].Wf() ==> r[j].Wf()
  {
    match FirstAvailable(ops)
    case None => ops
    case Some(k) => ops[k := ops[k].Ring(c)]
  }

  /** No two keys are equal, as in a dictionary. */
  predicate UniqueKeys(ids: seq<string>)
  {
    forall i, j :: 0 <= i < |ids| && 0 <= j < |ids| && i != j ==> ids[i] != ids[j]
  }

  /** The operators' ids are the dictionary's keys, so no two are equal. */
  predicate DistinctIds(ops: seq<Op>)
  {
    UniqueKeys(Ids(ops))
  }

  /** The values of the operator objects, in order. */
  function Values(operators: seq<Operator>): (r: seq<Op>)
    reads operators
    ensures |r| == |operators| && forall i :: 0 <= i < |operators| ==> r[i] == operators[i].View()
  {
    seq(|operators|, i requires 0 <= i < |operators| reads operators => operators[i].View())
  }

  class Pool {
    const ops: seq<Operator>
    /** The operators' observable values, in configuration order. */
    ghost var model: seq<Op>
    /** The operators' timeout_id handles, in configuration order. */
    ghost var handles: seq<Option<nat>>

    /**
      Operator ids are the dictionary's keys, so no two are equal; model and
      handles are what the operators hold, and every operator holds a call
      exactly when it is not available.
    */
    ghost predicate Valid()
      reads this, ops
    {
      && |model| == |ops| && |handles| == |ops|
      && (forall j :: 0 <= j < |ops| ==> ops[j].View() == model[j] && ops[j].timeoutId == handles[j])
      && DistinctIds(model)
      && (forall j :: 0 <= j < |model| ==> model[j].Wf())
    }

    constructor (operators: seq<Operator>)
      requires DistinctIds(Values(operators))
      requires forall i :: 0 <= i < |operators| ==> operators[i].View().Wf()
      ensures Valid() && ops == operators
      ensures model == Values(operators)
      ensures forall i :: 0 <= i < |operators| ==> handles[i] == operators[i].timeoutId
    {
      ops := operators;
      model := Values(operators);
      handles := seq(|operators|, i requires 0 <= i < |operators| reads operators => operators[i].timeoutId);
    }

    /** ring_operators: ring the first available operator in configuration order. */
    method RingOperators(c: int) returns (k: Option<nat>)
      requires Valid()
      modifies this, ops
      ensures Valid()
      ensures k == FirstAvailable(old(model))
      ensures model == RingFirst(old(model), c) && handles == old(handles)
    {
      var i := 0;
      while i < |ops|
        invariant 0 <= i <= |ops|
        invariant Valid() && model == old(model) && handles == old(handles)
        invariant forall j :: 0 <= j < i ==> model[j].state != Available
      {
        assert forall j :: 0 <= j < |ops| && j != i ==> ops[j] != ops[i];
        var ok := ops[i].Ring(c);
        if ok {
          model := model[i := model[i].Ring(c)];
          k := Some(i);
          assert FirstAvailable(old(model)) == k;
          return;
        }
        i := i + 1;
      }
      k := None;
    }

    /** The k-th operator answers; no other operator changes. */
    method AnswerAt(k: nat) returns (ok: bool)
      requires Valid() && k < |ops|
      modifies this, ops[k]
      ensures Valid()
      ensures ok <==> old(model[k].state) == Ringing
      ensures model == old(model[k := model[k].Answer()]) && handles == old(handles)
    {
      assert forall j :: 0 <= j < |ops| && j != k ==> ops[j] != ops[k];
      ok := ops[k].Answer();
      model := model[k := model[k].Answer()];
    }

    /** The k-th operator rejects its ringing call, which it returns; no other operator changes. */
    method RejectAt(k: nat) returns (released: Option<int>)
      requires Valid() && k < |ops|
      modifies this, ops[k]
      ensures Valid()
      ensures old(model[k].state) == Ringing ==> released == old(model[k].call)
      ensures old(model[k].state) != Ringing ==> released == None
      ensures model == old(model[k := model[k].Reject()]) && handles == old(handles)
    {
      assert forall j :: 0 <= j < |ops| && j != k ==> ops[j] != ops[k];
      released := ops[k].Reject();
      model := model[k := model[k].Reject()];
    }

    /** The k-th operator hangs up; no other operator changes. */
    method HangupAt(k: nat) returns (ok: bool)
      requires Valid() && k < |ops|
      modifies this, ops[k]
      ensures Valid()
      ensures ok <==> old(model[k].state) != Available
      ensures model == old(model[k := model[k].Hangup()]) && handles == old(handles)
    {
      assert forall j :: 0 <= j < |ops| && j != k ==> ops[j] != ops[k];
      ok := ops[k].Hangup();
      model := model[k := model[k].Hangup()];
    }

    /** set_timeout's assignment: the k-th operator records timer handle h; nothing else changes. */
    method SetTimeoutId(k: nat, h: nat)
      requires Valid() && k < |ops|
      modifies this, ops[k]
      ensures Valid()
      ensures model == old(model) && handles == old(handles[k := Some(h)])
    {
      assert forall j :: 0 <= j < |ops| && j != k ==> ops[j] != ops[k];
      ops[k].timeoutId := Some(h);
      handles := handles[k := Some(h)];
    }

    /** search_call: the first operator in configuration order holding call c. */
    method SearchCall(c: int) returns (k: Option<nat>)
      requires Valid()
      ensures k == FindHolder(model, c)
    {
      var i := 0;
      while i < |ops|
        invariant 0 <= i <= |ops|
        invariant forall j :: 0 <= j < i ==> model[j].call != Some(c)
      {
        if ops[i].call == Some(c) {
          return Some(i);
        }
        i := i + 1;
      }
      return None;
    }

    /** get finds the same position as the lookup on the operators' values. */
    lemma GetIsLookup(id: string)
      requires Valid()
      ensures Get(id) == Lookup(model, id)
    {
      assert seq(|ops|, j requires 0 <= j < |ops| => ops[j].id) == Ids(model);
    }

    /** get: the operator configured under id, if any. */
    function Get(id: string): (k: Option<nat>)
      ensures k.Some? ==> k.value < |ops| && ops[k.value].id == id
      ensures k.None? ==> forall j :: 0 <= j < |ops| ==> ops[j].id != id
    {
      var ids := seq(|ops|, j requires 0 <= j < |ops| => ops[j].id);
      assert forall j :: 0 <= j < |ops| ==> ids[j] == ops[j].id;
      Position(ids, id)
    }
  }
}
