/** What it means for a history of concurrent operations to be linearizable, and
    how a linearization is built one operation at a time. */
module Linearizability {
  import opened Common

  /** A sequential specification: step says whether it allows the operation in a
      state, and the state after it. */
  datatype Model<!S, !I, !O> = Model(init: S, step: (S, I, O) -> (bool, S))

  /** An operation with the times of its call and its return. */
  datatype Op<+I, +O> = Op(input: I, call: int, output: O, ret: int)

  /** a returned before b was called. */
  predicate Precedes<I, O>(a: Op<I, O>, b: Op<I, O>) {
    a.ret < b.call
  }

  predicate InRange(n: nat, ids: seq<nat>) {
    forall i :: 0 <= i < |ids| ==> ids[i] < n
  }

  /** Apply the operations ids[0], ids[1], ... from state st; None if one is refused. */
  function Run<S, I, O>(m: Model<S, I, O>, ops: seq<Op<I, O>>, st: S, ids: seq<nat>): Option<S>
    requires InRange(|ops|, ids)
  {
    if ids == [] then Some(st)
    else
      var (ok, st') := m.step(st, ops[ids[0]].input, ops[ids[0]].output);
      if ok then Run(m, ops, st', ids[1..]) else None
  }

  /** No operation of ids returned before an earlier one was called. */
  ghost predicate RealTime<I, O>(ops: seq<Op<I, O>>, ids: seq<nat>)
    requires InRange(|ops|, ids)
  {
    forall i, j :: 0 <= i < j < |ids| ==> !Precedes(ops[ids[j]], ops[ids[i]])
  }

  /** rest orders exactly the operations outside done, legally from st and in real-time order. */
  ghost predicate Completion<S, I, O>(m: Model<S, I, O>, ops: seq<Op<I, O>>, done: set<nat>, st: S, rest: seq<nat>) {
    && InRange(|ops|, rest)
    && Distinct(rest)
    && (forall id: nat :: id in rest <==> id < |ops| && id !in done)
    && Run(m, ops, st, rest).Some?
    && RealTime(ops, rest)
  }

  ghost predicate Linearizable<S, I, O>(m: Model<S, I, O>, ops: seq<Op<I, O>>) {
    exists rest :: Completion(m, ops, {}, m.init, rest)
  }

  ghost predicate Dead<S, I, O>(m: Model<S, I, O>, ops: seq<Op<I, O>>, done: set<nat>, st: S) {
    forall rest :: !Completion(m, ops, done, st, rest)
  }

  /** Nothing outside done has to come before id. */
  ghost predicate Eligible<I, O>(ops: seq<Op<I, O>>, done: set<nat>, id: nat) {
    && id < |ops| && id !in done
    && forall j: nat :: j < |ops| && j !in done && j != id ==> !Precedes(ops[j], ops[id])
  }

  /** Taking id next in state st cannot lead to a linearization. */
  ghost predicate Tried<S, I, O>(m: Model<S, I, O>, ops: seq<Op<I, O>>, done: set<nat>, st: S, id: nat)
    requires id < |ops|
  {
    var (ok, st') := m.step(st, ops[id].input, ops[id].output);
    ok ==> Dead(m, ops, done + {id}, st')
  }

  lemma FirstOfCompletion<S, I, O>(m: Model<S, I, O>, ops: seq<Op<I, O>>, done: set<nat>, st: S, rest: seq<nat>)
    requires Completion(m, ops, done, st, rest) && rest != []
    ensures Eligible(ops, done, rest[0]) && !Tried(m, ops, done, st, rest[0])
  {
    var id := rest[0];
    assert id in rest;
    forall j: nat | j < |ops| && j !in done && j != id
      ensures !Precedes(ops[j], ops[id])
    {
      assert j in rest;
      var k :| 0 <= k < |rest| && rest[k] == j;
    }
    var (ok, st') := m.step(st, ops[id].input, ops[id].output);
    var tail := rest[1..];
    forall j: nat
      ensures j in tail <==> j < |ops| && j !in done + {id}
    {
      assert j in rest <==> j == id || j in tail;
      assert id !in tail;
    }
    assert Completion(m, ops, done + {id}, st', tail);
  }

  /** If every eligible operation has been tried and some remain, there is no completion. */
  lemma AllTriedIsDead<S, I, O>(m: Model<S, I, O>, ops: seq<Op<I, O>>, done: set<nat>, st: S, left: nat)
    requires left < |ops| && left !in done
    requires forall id: nat :: Eligible(ops, done, id) ==> Tried(m, ops, done, st, id)
    ensures Dead(m, ops, done, st)
  {
    forall rest | Completion(m, ops, done, st, rest)
      ensures false
    {
      assert left in rest;
      FirstOfCompletion(m, ops, done, st, rest);
    }
  }

  lemma {:induction false} RunAppend<S, I, O>(m: Model<S, I, O>, ops: seq<Op<I, O>>, st: S, ids: seq<nat>, id: nat)
    requires InRange(|ops|, ids) && id < |ops|
    ensures InRange(|ops|, ids + [id])
    ensures Run(m, ops, st, ids).Some? ==>
              var (ok, st') := m.step(Run(m, ops, st, ids).value, ops[id].input, ops[id].output);
              Run(m, ops, st, ids + [id]) == if ok then Some(st') else None
    decreases |ids|
  {
    if ids == [] {
      assert ids + [id] == [id];
    } else {
      assert (ids + [id])[1..] == ids[1..] + [id];
      var (ok, st') := m.step(st, ops[ids[0]].input, ops[ids[0]].output);
      if ok {
        RunAppend(m, ops, st', ids[1..], id);
      }
    }
  }

  ghost function ToSet(ids: seq<nat>): (r: set<nat>)
    ensures forall id :: id in r <==> id in ids
  {
    set id | id in ids
  }

  /** A legal sequence of distinct operations, each eligible when it was taken. */
  ghost predicate Partial<S, I, O>(m: Model<S, I, O>, ops: seq<Op<I, O>>, ids: seq<nat>) {
    && InRange(|ops|, ids)
    && Run(m, ops, m.init, ids).Some?
    && forall k :: 0 <= k < |ids| ==> Eligible(ops, ToSet(ids[..k]), ids[k])
  }

  lemma PartialDistinct<S, I, O>(m: Model<S, I, O>, ops: seq<Op<I, O>>, ids: seq<nat>)
    requires Partial(m, ops, ids)
    ensures Distinct(ids) && RealTime(ops, ids)
  {
    forall i, j | 0 <= i < j < |ids|
      ensures ids[i] != ids[j] && !Precedes(ops[ids[j]], ops[ids[i]])
    {
      assert Eligible(ops, ToSet(ids[..j]), ids[j]);
      assert ids[i] in ids[..j];
      assert Eligible(ops, ToSet(ids[..i]), ids[i]);
      assert forall k :: 0 <= k < i ==> ids[k] in ids[..j];
    }
  }

  /** A partial linearization of everything is a linearization. */
  lemma FullPartial<S, I, O>(m: Model<S, I, O>, ops: seq<Op<I, O>>, ids: seq<nat>)
    requires Partial(m, ops, ids)
    requires forall id: nat :: id < |ops| ==> id in ids
    ensures Completion(m, ops, {}, m.init, ids) && Linearizable(m, ops)
  {
    PartialDistinct(m, ops, ids);
    assert Completion(m, ops, {}, m.init, ids);
  }
}
