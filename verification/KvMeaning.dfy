/** What the key/value model accepts, said without its step function: a read returns the
    last value put, followed by what was appended since. */
module KvMeaning {
  import opened Common
  import opened Linearizability
  import opened KvModel
  import opened Entries

  /** Gets, and appends that return what was there before. */
  predicate Reads(inp: KvInput) {
    inp.op != 1 && inp.op != 2
  }

  predicate Appends(inp: KvInput) {
    inp.op != 0 && inp.op != 1
  }

  /** Where the last put to the key before position i is; -1 if there is none. */
  function LastPut(ops: seq<KvOp>, ids: seq<nat>, key: string, i: nat): (p: int)
    requires InRange(|ops|, ids) && i <= |ids|
    ensures -1 <= p < i
    ensures p >= 0 ==> ops[ids[p]].input.op == 1 && ops[ids[p]].input.key == key
    ensures forall j :: p < j < i ==> ops[ids[j]].input.op != 1 || ops[ids[j]].input.key != key
  {
    if i == 0 then -1
    else if ops[ids[i - 1]].input.op == 1 && ops[ids[i - 1]].input.key == key then i - 1
    else LastPut(ops, ids, key, i - 1)
  }

  /** What was appended to the key at positions p..i-1, in order. */
  function Appended(ops: seq<KvOp>, ids: seq<nat>, key: string, p: nat, i: nat): string
    requires InRange(|ops|, ids) && p <= i <= |ids|
  {
    if p == i then ""
    else
      var inp := ops[ids[i - 1]].input;
      Appended(ops, ids, key, p, i - 1) + if Appends(inp) && inp.key == key then inp.value else ""
  }

  /** What the key holds before position i. */
  function Holds(ops: seq<KvOp>, ids: seq<nat>, key: string, i: nat): string
    requires InRange(|ops|, ids) && i <= |ids|
  {
    var p := LastPut(ops, ids, key, i);
    (if p >= 0 then ops[ids[p]].input.value else "") + Appended(ops, ids, key, p + 1, i)
  }

  /** Every read returned what its key held. */
  ghost predicate ReadsRight(ops: seq<KvOp>, ids: seq<nat>)
    requires InRange(|ops|, ids)
  {
    forall i :: 0 <= i < |ids| && Reads(ops[ids[i]].input) ==>
      ops[ids[i]].output.value == Holds(ops, ids, ops[ids[i]].input.key, i)
  }

  lemma HoldsNext(ops: seq<KvOp>, ids: seq<nat>, key: string, i: nat)
    requires InRange(|ops|, ids) && i < |ids|
    ensures var inp := ops[ids[i]].input;
            Holds(ops, ids, key, i + 1) ==
            if inp.key != key || inp.op == 0 then Holds(ops, ids, key, i)
            else if inp.op == 1 then inp.value
            else Holds(ops, ids, key, i) + inp.value
  {
  }

  /** Earlier positions do not depend on what comes later. */
  lemma {:induction false} HoldsPrefix(ops: seq<KvOp>, ids: seq<nat>, key: string, k: nat, i: nat)
    requires InRange(|ops|, ids) && i <= k <= |ids|
    ensures InRange(|ops|, ids[..k]) && Holds(ops, ids[..k], key, i) == Holds(ops, ids, key, i)
    decreases i
  {
    hide Holds;
    if i == 0 {
      HoldsNothing(ops, ids, key);
      HoldsNothing(ops, ids[..k], key);
    } else {
      HoldsPrefix(ops, ids, key, k, i - 1);
      HoldsNext(ops, ids, key, i - 1);
      HoldsNext(ops, ids[..k], key, i - 1);
    }
  }

  lemma HoldsNothing(ops: seq<KvOp>, ids: seq<nat>, key: string)
    requires InRange(|ops|, ids)
    ensures Holds(ops, ids, key, 0) == ""
  {
  }

  lemma ReadsRightPrefix(ops: seq<KvOp>, ids: seq<nat>)
    requires InRange(|ops|, ids) && |ids| > 0
    ensures var k := |ids| - 1;
            && InRange(|ops|, ids[..k])
            && (ReadsRight(ops, ids) <==>
                  && ReadsRight(ops, ids[..k])
                  && (Reads(ops[ids[k]].input) ==>
                        ops[ids[k]].output.value == Holds(ops, ids, ops[ids[k]].input.key, k)))
  {
    hide Holds;
    var k := |ids| - 1;
    forall i | 0 <= i < k
      ensures Holds(ops, ids[..k], ops[ids[i]].input.key, i) == Holds(ops, ids, ops[ids[i]].input.key, i)
    {
      HoldsPrefix(ops, ids, ops[ids[i]].input.key, k, i);
    }
    assert forall i :: 0 <= i < k ==> ids[..k][i] == ids[i];
  }

  // ----- orders -----

  /** The model of the whole store accepts an order exactly if every read is right in it. */
  lemma {:induction false} StoreRuns(ops: seq<KvOp>, ids: seq<nat>)
    requires InRange(|ops|, ids)
    ensures Run(STORE, ops, map[], ids).Some? <==> ReadsRight(ops, ids)
    ensures Run(STORE, ops, map[], ids).Some? ==>
              forall key :: Value(Run(STORE, ops, map[], ids).value, key) == Holds(ops, ids, key, |ids|)
    decreases |ids|
  {
    hide Holds, ReadsRight, Run;
    if ids == [] {
      StartRun(STORE, ops, map[]);
      NoReads(ops, ids);
      forall key
        ensures Holds(ops, ids, key, 0) == ""
      {
        HoldsNothing(ops, ids, key);
      }
    } else {
      var k, id := |ids| - 1, ids[|ids| - 1];
      StoreRuns(ops, ids[..k]);
      ReadsRightPrefix(ops, ids);
      assert ids == ids[..k] + [id];
      RunAppend(STORE, ops, map[], ids[..k], id);
      RunStops(STORE, ops, map[], ids[..k], id);
      forall key
        ensures Holds(ops, ids[..k], key, k) == Holds(ops, ids, key, k)
      {
        HoldsPrefix(ops, ids, key, k, k);
      }
      if Run(STORE, ops, map[], ids[..k]).Some? {
        StoreStep(ops, ids, Run(STORE, ops, map[], ids[..k]).value);
      }
    }
  }

  /** One more operation of the order. */
  lemma StoreStep(ops: seq<KvOp>, ids: seq<nat>, st: Store)
    requires InRange(|ops|, ids) && |ids| > 0
    requires forall key :: Value(st, key) == Holds(ops, ids, key, |ids| - 1)
    ensures var k := |ids| - 1;
            var op := ops[ids[k]];
            var (ok, st') := STORE.step(st, op.input, op.output);
            && (ok <==> (Reads(op.input) ==> op.output.value == Holds(ops, ids, op.input.key, k)))
            && forall key :: Value(st', key) == Holds(ops, ids, key, |ids|)
  {
    hide Holds;
    var k := |ids| - 1;
    var op := ops[ids[k]];
    var (ok, st') := STORE.step(st, op.input, op.output);
    forall key
      ensures Value(st', key) == Holds(ops, ids, key, |ids|)
    {
      HoldsNext(ops, ids, key, k);
      assert Value(st, key) == Holds(ops, ids, key, k);
    }
    assert Value(st, op.input.key) == Holds(ops, ids, op.input.key, k);
  }

  lemma NoReads(ops: seq<KvOp>, ids: seq<nat>)
    requires InRange(|ops|, ids) && ids == []
    ensures ReadsRight(ops, ids)
  {
  }

  lemma StartRun<S, I, O>(m: Model<S, I, O>, ops: seq<Op<I, O>>, st: S)
    ensures Run(m, ops, st, []) == Some(st)
  {
  }

  /** What is refused once stays refused. */
  lemma {:induction false} RunStops<S, I, O>(m: Model<S, I, O>, ops: seq<Op<I, O>>, st: S, ids: seq<nat>, id: nat)
    requires InRange(|ops|, ids) && id < |ops|
    ensures InRange(|ops|, ids + [id])
    ensures Run(m, ops, st, ids).None? ==> Run(m, ops, st, ids + [id]).None?
    decreases |ids|
  {
    if ids != [] {
      assert (ids + [id])[1..] == ids[1..] + [id];
      var (ok, st') := m.step(st, ops[ids[0]].input, ops[ids[0]].output);
      if ok {
        RunStops(m, ops, st', ids[1..], id);
      }
    }
  }

  /** So does the model of one key, on operations of that key. */
  lemma {:induction false} KeyRuns(ops: seq<KvOp>, key: string, ids: seq<nat>)
    requires InRange(|ops|, ids) && forall i :: 0 <= i < |ids| ==> ops[ids[i]].input.key == key
    ensures Run(KV, ops, "", ids).Some? <==> ReadsRight(ops, ids)
    ensures Run(KV, ops, "", ids).Some? ==> Run(KV, ops, "", ids).value == Holds(ops, ids, key, |ids|)
    decreases |ids|
  {
    hide Holds, ReadsRight, Run;
    if ids == [] {
      StartRun(KV, ops, "");
      NoReads(ops, ids);
      HoldsNothing(ops, ids, key);
    } else {
      var k, id := |ids| - 1, ids[|ids| - 1];
      KeyRuns(ops, key, ids[..k]);
      ReadsRightPrefix(ops, ids);
      assert ids == ids[..k] + [id];
      RunAppend(KV, ops, "", ids[..k], id);
      RunStops(KV, ops, "", ids[..k], id);
      HoldsPrefix(ops, ids, key, k, k);
      HoldsNext(ops, ids, key, k);
    }
  }

  // ----- histories without overlap -----

  /** The operations one after the other, each returned before the next is called. */
  ghost predicate CallOrder(ops: seq<KvOp>, ids: seq<nat>) {
    && InRange(|ops|, ids) && Distinct(ids) && (forall id: nat :: id < |ops| ==> id in ids)
    && forall i, j :: 0 <= i < j < |ids| ==> Precedes(ops[ids[i]], ops[ids[j]])
  }

  /** Any order that respects real time is that one. */
  lemma {:induction false} OneOrder(ops: seq<KvOp>, ids: seq<nat>, rest: seq<nat>, k: nat)
    requires Timely(ops) && CallOrder(ops, ids) && k <= |ids| && k <= |rest|
    requires InRange(|ops|, rest) && Distinct(rest) && RealTime(ops, rest)
    requires forall id: nat :: id in rest <==> id < |ops|
    ensures ids[..k] == rest[..k]
    decreases k
  {
    if k > 0 {
      OneOrder(ops, ids, rest, k - 1);
      var a, b := ids[k - 1], rest[k - 1];
      assert a in rest && b in ids && b in rest;
      var p :| 0 <= p < |ids| && ids[p] == b;
      var q :| 0 <= q < |rest| && rest[q] == a;
      assert forall j :: 0 <= j < k - 1 ==> ids[j] == ids[..k - 1][j] == rest[..k - 1][j] == rest[j];
      assert p >= k - 1 && q >= k - 1;
      assert a == b;
      assert ids[..k] == ids[..k - 1] + [a] && rest[..k] == rest[..k - 1] + [b];
    }
  }

  lemma {:induction false} SameLength(n: nat, a: seq<nat>)
    requires InRange(n, a) && Distinct(a) && forall id: nat :: id < n ==> id in a
    ensures |a| == n
    decreases n
  {
    if n == 0 {
      assert a == [];
    } else {
      assert n - 1 in a;
      var i :| 0 <= i < |a| && a[i] == n - 1;
      var b := a[..i] + a[i + 1..];
      forall id: nat | id < n - 1
        ensures id in b
      {
        assert id in a;
        var j :| 0 <= j < |a| && a[j] == id;
        assert b[if j < i then j else j - 1] == id;
      }
      SameLength(n - 1, b);
    }
  }

  /** Without overlap, a history is linearizable exactly if every read returned, in the order
      of the calls, what was last put and appended. */
  lemma SequentialIff(ops: seq<KvOp>, ids: seq<nat>)
    requires Timely(ops) && CallOrder(ops, ids)
    ensures Linearizable(STORE, ops) <==> ReadsRight(ops, ids)
  {
    hide ReadsRight, Run;
    StoreRuns(ops, ids);
    if ReadsRight(ops, ids) {
      assert Completion(STORE, ops, {}, map[], ids);
    }
    if Linearizable(STORE, ops) {
      var rest :| Completion(STORE, ops, {}, map[], rest);
      SameLength(|ops|, ids);
      SameLength(|ops|, rest);
      OneOrder(ops, ids, rest, |ids|);
      assert ids[..|ids|] == ids && rest[..|rest|] == rest;
    }
  }

  /** If no two operations overlap, there is such an order. */
  lemma {:induction false} HasCallOrder(ops: seq<KvOp>) returns (ids: seq<nat>)
    requires Timely(ops)
    requires forall a, b :: 0 <= a < b < |ops| ==> Precedes(ops[a], ops[b]) || Precedes(ops[b], ops[a])
    ensures CallOrder(ops, ids)
    decreases |ops|
  {
    if ops == [] {
      ids := [];
    } else {
      var n := |ops| - 1;
      var front := HasCallOrder(ops[..n]);
      var k := 0;
      while k < |front| && Precedes(ops[front[k]], ops[n])
        invariant k <= |front| && forall i :: 0 <= i < k ==> Precedes(ops[front[i]], ops[n])
      {
        k := k + 1;
      }
      ids := front[..k] + [n] + front[k..];
      Inserted(ops, front, k, ids);
    }
  }

  lemma Inserted(ops: seq<KvOp>, front: seq<nat>, k: nat, ids: seq<nat>)
    requires |ops| > 0 && Timely(ops) && CallOrder(ops[..|ops| - 1], front) && k <= |front|
    requires forall a, b :: 0 <= a < b < |ops| ==> Precedes(ops[a], ops[b]) || Precedes(ops[b], ops[a])
    requires forall i :: 0 <= i < k ==> Precedes(ops[front[i]], ops[|ops| - 1])
    requires k < |front| ==> !Precedes(ops[front[k]], ops[|ops| - 1])
    requires ids == front[..k] + [|ops| - 1] + front[k..]
    ensures CallOrder(ops, ids)
  {
    var n := |ops| - 1;
    assert forall i :: 0 <= i < |ids| ==> ids[i] == if i < k then front[i] else if i == k then n else front[i - 1];
    forall i | k <= i < |front|
      ensures Precedes(ops[n], ops[front[i]])
    {
      assert Precedes(ops[front[k]], ops[n]) || Precedes(ops[n], ops[front[k]]);
      assert i > k ==> Precedes(ops[..n][front[k]], ops[..n][front[i]]);
    }
    forall i, j | 0 <= i < j < |ids|
      ensures Precedes(ops[ids[i]], ops[ids[j]]) && ids[i] != ids[j]
    {
      var a, b := if i < k then i else i - 1, if j < k then j else j - 1;
      if i != k && j != k {
        assert Precedes(ops[..n][front[a]], ops[..n][front[b]]);
      }
    }
    forall id: nat | id < |ops|
      ensures id in ids
    {
      if id == n {
        assert ids[k] == n;
      } else {
        assert id in front;
        var i :| 0 <= i < |front| && front[i] == id;
        assert ids[if i < k then i else i + 1] == id;
      }
    }
  }
}
