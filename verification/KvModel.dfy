/** The key/value model of the checker, per key, and why checking key by key is enough. */
module KvModel {
  import opened Common
  import opened Counting
  import opened Linearizability

  /** op 0 is get, 1 is put, 2 is append; anything else is an append that also
      returns the value before it. */
  datatype KvInput = KvInput(op: int, key: string, value: string)
  datatype KvOutput = KvOutput(value: string)

  type KvOp = Op<KvInput, KvOutput>

  function KvStep(st: string, inp: KvInput, out: KvOutput): (bool, string) {
    if inp.op == 0 then (out.value == st, st)
    else if inp.op == 1 then (true, inp.value)
    else if inp.op == 2 then (true, st + inp.value)
    else (out.value == st, st + inp.value)
  }

  /** One key's value. */
  const KV: Model<string, KvInput, KvOutput> := Model("", KvStep)

  type Store = map<string, string>

  function Value(st: Store, key: string): string {
    if key in st then st[key] else ""
  }

  function MapStep(st: Store, inp: KvInput, out: KvOutput): (bool, Store) {
    var (ok, v) := KvStep(Value(st, inp.key), inp, out);
    (ok, st[inp.key := v])
  }

  /** The whole store: what the history as a whole is meant to be checked against. */
  const STORE: Model<Store, KvInput, KvOutput> := Model(map[], MapStep)

  // ----- linearizations of one key's operations, by their original numbers -----

  ghost predicate KeyOrder(ops: seq<KvOp>, key: string, st: string, ids: seq<nat>) {
    && InRange(|ops|, ids)
    && Distinct(ids)
    && (forall i :: 0 <= i < |ids| ==> ops[ids[i]].input.key == key)
    && Run(KV, ops, st, ids).Some?
    && RealTime(ops, ids)
  }

  ghost predicate KeyLinearizable(ops: seq<KvOp>, key: string) {
    exists ids :: KeyOrder(ops, key, "", ids) && forall id: nat :: id < |ops| && ops[id].input.key == key ==> id in ids
  }

  // ----- from the whole to each key -----

  function OfKey(ops: seq<KvOp>, key: string, ids: seq<nat>): (r: seq<nat>)
    requires InRange(|ops|, ids)
  {
    if ids == [] then []
    else if ops[ids[0]].input.key == key then [ids[0]] + OfKey(ops, key, ids[1..])
    else OfKey(ops, key, ids[1..])
  }

  lemma {:induction false} OfKeyElements(ops: seq<KvOp>, key: string, ids: seq<nat>, id: nat)
    requires InRange(|ops|, ids) && id < |ops|
    ensures id in OfKey(ops, key, ids) <==> id in ids && ops[id].input.key == key
  {
    if ids != [] {
      OfKeyElements(ops, key, ids[1..], id);
      assert id in ids <==> id == ids[0] || id in ids[1..];
    }
  }

  lemma {:induction false} OfKeyRange(ops: seq<KvOp>, key: string, ids: seq<nat>)
    requires InRange(|ops|, ids)
    ensures InRange(|ops|, OfKey(ops, key, ids))
    ensures forall i :: 0 <= i < |OfKey(ops, key, ids)| ==> OfKey(ops, key, ids)[i] in ids
    ensures forall i :: 0 <= i < |OfKey(ops, key, ids)| ==> ops[OfKey(ops, key, ids)[i]].input.key == key
  {
    if ids != [] {
      OfKeyRange(ops, key, ids[1..]);
    }
  }

  lemma {:induction false} OfKeyOrder(ops: seq<KvOp>, key: string, ids: seq<nat>)
    requires InRange(|ops|, ids) && Distinct(ids) && RealTime(ops, ids)
    ensures InRange(|ops|, OfKey(ops, key, ids))
    ensures Distinct(OfKey(ops, key, ids)) && RealTime(ops, OfKey(ops, key, ids))
  {
    OfKeyRange(ops, key, ids);
    if ids != [] {
      var tail := OfKey(ops, key, ids[1..]);
      OfKeyRange(ops, key, ids[1..]);
      OfKeyOrder(ops, key, ids[1..]);
      forall i | 0 <= i < |tail|
        ensures tail[i] != ids[0] && !Precedes(ops[tail[i]], ops[ids[0]])
      {
        assert tail[i] in ids[1..];
        var k :| 0 <= k < |ids[1..]| && ids[1..][k] == tail[i];
        assert ids[k + 1] == tail[i];
      }
    }
  }

  lemma {:induction false} OfKeyRuns(ops: seq<KvOp>, key: string, ids: seq<nat>, st: Store)
    requires InRange(|ops|, ids) && Run(STORE, ops, st, ids).Some?
    ensures InRange(|ops|, OfKey(ops, key, ids)) && Run(KV, ops, Value(st, key), OfKey(ops, key, ids)).Some?
    decreases |ids|
  {
    OfKeyRange(ops, key, ids);
    if ids != [] {
      var op := ops[ids[0]];
      var (ok, st') := MapStep(st, op.input, op.output);
      OfKeyRuns(ops, key, ids[1..], st');
      if op.input.key == key {
        assert OfKey(ops, key, ids)[1..] == OfKey(ops, key, ids[1..]);
      }
    }
  }

  lemma WholeGivesKeys(ops: seq<KvOp>, key: string)
    requires Linearizable(STORE, ops)
    ensures KeyLinearizable(ops, key)
  {
    var rest :| Completion(STORE, ops, {}, STORE.init, rest);
    var ids := OfKey(ops, key, rest);
    OfKeyRange(ops, key, rest);
    OfKeyOrder(ops, key, rest);
    OfKeyRuns(ops, key, rest, map[]);
    forall id: nat | id < |ops| && ops[id].input.key == key
      ensures id in ids
    {
      OfKeyElements(ops, key, rest, id);
    }
    assert KeyOrder(ops, key, "", ids);
  }

  // ----- from the keys to the whole -----

  /** rests gives, for each key, a linearization of the operations still to be placed. */
  ghost predicate Pending(ops: seq<KvOp>, left: set<nat>, st: Store, rests: map<string, seq<nat>>) {
    && (forall id :: id in left ==> id < |ops| && ops[id].input.key in rests && id in rests[ops[id].input.key])
    && (forall key :: key in rests ==> KeyOrder(ops, key, Value(st, key), rests[key]))
    && (forall key, i :: key in rests && 0 <= i < |rests[key]| ==> rests[key][i] in left)
  }

  lemma {:induction false} FirstReturn(ops: seq<KvOp>, left: set<nat>) returns (r: nat)
    requires left != {} && forall id :: id in left ==> id < |ops|
    ensures r in left && forall id :: id in left ==> ops[r].ret <= ops[id].ret
    decreases left
  {
    r :| r in left;
    if left != {r} {
      var q := FirstReturn(ops, left - {r});
      assert forall id :: id in left ==> id == r || id in left - {r};
      if ops[q].ret < ops[r].ret {
        r := q;
      }
    } else {
      assert forall id :: id in left ==> id == r;
    }
  }

  /** The first operation of the key of the earliest return can go first: nothing
      left returned before it was called. */
  lemma NextToPlace(ops: seq<KvOp>, left: set<nat>, st: Store, rests: map<string, seq<nat>>) returns (key: string)
    requires Pending(ops, left, st, rests) && left != {}
    requires forall id :: 0 <= id < |ops| ==> ops[id].call <= ops[id].ret
    ensures key in rests && rests[key] != [] && rests[key][0] in left
    ensures forall id :: id in left ==> id < |ops| && !Precedes(ops[id], ops[rests[key][0]])
  {
    var r := FirstReturn(ops, left);
    key := ops[r].input.key;
    var ids := rests[key];
    var k :| 0 <= k < |ids| && ids[k] == r;
    assert KeyOrder(ops, key, Value(st, key), ids);
    assert !Precedes(ops[r], ops[ids[0]]);
  }

  lemma PlaceFirst(ops: seq<KvOp>, left: set<nat>, st: Store, rests: map<string, seq<nat>>, key: string)
    requires Pending(ops, left, st, rests) && key in rests && rests[key] != []
    ensures rests[key][0] < |ops|
    ensures var id := rests[key][0];
            var (ok, st') := MapStep(st, ops[id].input, ops[id].output);
            ok && Pending(ops, left - {id}, st', rests[key := rests[key][1..]])
  {
    var ids := rests[key];
    var id := ids[0];
    assert KeyOrder(ops, key, Value(st, key), ids);
    var (ok, st') := MapStep(st, ops[id].input, ops[id].output);
    var rests' := rests[key := ids[1..]];
    forall k | k in rests'
      ensures KeyOrder(ops, k, Value(st', k), rests'[k])
    {
      assert KeyOrder(ops, k, Value(st, k), rests[k]);
    }
    forall j | j in left - {id}
      ensures j < |ops| && ops[j].input.key in rests' && j in rests'[ops[j].input.key]
    {
      assert j in rests[ops[j].input.key];
      assert j in ids ==> j == ids[0] || j in ids[1..];
    }
    forall k, i | k in rests' && 0 <= i < |rests'[k]|
      ensures rests'[k][i] in left - {id}
    {
      assert KeyOrder(ops, k, Value(st, k), rests[k]);
      if k == key {
        assert rests'[k][i] == ids[i + 1];
      } else {
        assert rests'[k][i] == rests[k][i];
      }
    }
  }

  /** Putting id in front of a linearization of everything else that is left. */
  lemma Prepend(ops: seq<KvOp>, left: set<nat>, st: Store, id: nat, tail: seq<nat>)
    requires id < |ops| && id in left && forall j :: j in left ==> j < |ops| && !Precedes(ops[j], ops[id])
    requires InRange(|ops|, tail) && Distinct(tail) && RealTime(ops, tail)
    requires forall j: nat :: j in tail <==> j in left - {id}
    requires var (ok, st') := MapStep(st, ops[id].input, ops[id].output); ok && Run(STORE, ops, st', tail).Some?
    ensures var ids := [id] + tail;
            && InRange(|ops|, ids) && Distinct(ids) && RealTime(ops, ids)
            && (forall j: nat :: j in ids <==> j in left)
            && Run(STORE, ops, st, ids).Some?
  {
    var ids := [id] + tail;
    assert ids[1..] == tail;
    forall i | 0 <= i < |tail|
      ensures tail[i] != id && !Precedes(ops[tail[i]], ops[id])
    {
      assert tail[i] in tail;
    }
  }

  /** The per-key linearizations merge into one of everything left. */
  lemma {:induction false} MergeKeys(ops: seq<KvOp>, left: set<nat>, st: Store, rests: map<string, seq<nat>>)
    returns (ids: seq<nat>)
    requires Pending(ops, left, st, rests)
    requires forall id :: 0 <= id < |ops| ==> ops[id].call <= ops[id].ret
    ensures InRange(|ops|, ids) && Distinct(ids) && (forall id: nat :: id in ids <==> id in left)
    ensures Run(STORE, ops, st, ids).Some? && RealTime(ops, ids)
    decreases |left|
  {
    hide Pending, Run, RealTime;
    if left == {} {
      NothingToPlace(ops, st);
      ids := [];
    } else {
      var key := NextToPlace(ops, left, st, rests);
      PlaceFirst(ops, left, st, rests, key);
      var id := rests[key][0];
      var (ok, st') := MapStep(st, ops[id].input, ops[id].output);
      var tail := MergeKeys(ops, left - {id}, st', rests[key := rests[key][1..]]);
      Prepend(ops, left, st, id, tail);
      ids := [id] + tail;
    }
  }

  lemma NothingToPlace(ops: seq<KvOp>, st: Store)
    ensures Run(STORE, ops, st, []).Some? && RealTime(ops, [])
  {
  }

  ghost function Keys(ops: seq<KvOp>): set<string> {
    set i | 0 <= i < |ops| :: ops[i].input.key
  }

  ghost function OrderOf(ops: seq<KvOp>, key: string): (ids: seq<nat>)
    requires KeyLinearizable(ops, key)
    ensures KeyOrder(ops, key, "", ids) && forall id: nat :: id < |ops| && ops[id].input.key == key ==> id in ids
  {
    var ids :| KeyOrder(ops, key, "", ids) && forall id: nat :: id < |ops| && ops[id].input.key == key ==> id in ids;
    ids
  }

  lemma KeysGiveWhole(ops: seq<KvOp>)
    requires forall id :: 0 <= id < |ops| ==> ops[id].call <= ops[id].ret
    requires forall key :: key in Keys(ops) ==> KeyLinearizable(ops, key)
    ensures Linearizable(STORE, ops)
  {
    hide Run, RealTime, KeyLinearizable;
    var rests := map key | key in Keys(ops) :: OrderOf(ops, key);
    var left := Ids(|ops|);
    assert Pending(ops, left, map[], rests);
    hide Pending;
    var ids := MergeKeys(ops, left, map[], rests);
    assert Completion(STORE, ops, {}, STORE.init, ids);
  }

  /** Locality: the store is linearizable exactly when every key is. */
  lemma Locality(ops: seq<KvOp>)
    requires forall id :: 0 <= id < |ops| ==> ops[id].call <= ops[id].ret
    ensures Linearizable(STORE, ops) <==> forall key :: key in Keys(ops) ==> KeyLinearizable(ops, key)
  {
    hide KeyLinearizable, Linearizable;
    if Linearizable(STORE, ops) {
      forall key | key in Keys(ops)
        ensures KeyLinearizable(ops, key)
      {
        WholeGivesKeys(ops, key);
      }
    }
    if forall key :: key in Keys(ops) ==> KeyLinearizable(ops, key) {
      KeysGiveWhole(ops);
    }
  }

  // ----- the sub-history of a key -----

  /** The numbers of the operations on key, in order, and the operations. */
  function Part(ops: seq<KvOp>, key: string): (r: seq<nat>)
    ensures InRange(|ops|, r)
  {
    if ops == [] then []
    else
      var k := |ops| - 1;
      Part(ops[..k], key) + if ops[k].input.key == key then [k] else []
  }

  function Sub(ops: seq<KvOp>, key: string): (r: seq<KvOp>) {
    if ops == [] then []
    else
      var k := |ops| - 1;
      Sub(ops[..k], key) + if ops[k].input.key == key then [ops[k]] else []
  }

  lemma {:induction false} PartFacts(ops: seq<KvOp>, key: string)
    ensures |Sub(ops, key)| == |Part(ops, key)|
    ensures forall i :: 0 <= i < |Part(ops, key)| ==>
              Sub(ops, key)[i] == ops[Part(ops, key)[i]] && ops[Part(ops, key)[i]].input.key == key
    ensures Distinct(Part(ops, key))
    ensures forall id: nat :: id < |ops| && ops[id].input.key == key ==> id in Part(ops, key)
  {
    if ops != [] {
      var k := |ops| - 1;
      PartFacts(ops[..k], key);
      var r, p := Part(ops, key), Part(ops[..k], key);
      forall id: nat | id < |ops| && ops[id].input.key == key
        ensures id in r
      {
        if id < k {
          assert ops[..k][id] == ops[id];
          assert id in p;
        } else {
          assert r[|p|] == k;
        }
      }
    }
  }

  lemma {:induction false} RunSub(ops: seq<KvOp>, sub: seq<KvOp>, part: seq<nat>, st: string, ids: seq<nat>,
                                  orig: seq<nat>)
    requires InRange(|ops|, part) && |sub| == |part| && forall i :: 0 <= i < |part| ==> sub[i] == ops[part[i]]
    requires InRange(|sub|, ids) && InRange(|ops|, orig)
    requires |orig| == |ids| && forall i :: 0 <= i < |ids| ==> orig[i] == part[ids[i]]
    ensures Run(KV, sub, st, ids) == Run(KV, ops, st, orig)
    decreases |ids|
  {
    if ids != [] {
      var (ok, st') := KvStep(st, sub[ids[0]].input, sub[ids[0]].output);
      RunSub(ops, sub, part, st', ids[1..], orig[1..]);
    }
  }

  lemma SubOrder(ops: seq<KvOp>, sub: seq<KvOp>, part: seq<nat>, key: string, ids: seq<nat>, orig: seq<nat>)
    requires InRange(|ops|, part) && Distinct(part) && |sub| == |part|
    requires forall i :: 0 <= i < |part| ==> sub[i] == ops[part[i]] && ops[part[i]].input.key == key
    requires Completion(KV, sub, {}, "", ids)
    requires |orig| == |ids| && forall i :: 0 <= i < |ids| ==> orig[i] == part[ids[i]]
    ensures KeyOrder(ops, key, "", orig)
  {
    hide Run;
    RunSub(ops, sub, part, "", ids, orig);
    RealTimeSub(ops, sub, part, ids, orig);
  }

  lemma SubGivesKey(ops: seq<KvOp>, key: string)
    requires Linearizable(KV, Sub(ops, key))
    ensures KeyLinearizable(ops, key)
  {
    hide KeyOrder, Run, RealTime, Sub, Part;
    var sub, part := Sub(ops, key), Part(ops, key);
    PartFacts(ops, key);
    var ids :| Completion(KV, sub, {}, "", ids);
    var orig := seq(|ids|, i requires 0 <= i < |ids| => part[ids[i]]);
    SubOrder(ops, sub, part, key, ids, orig);
    forall id: nat | id < |ops| && ops[id].input.key == key
      ensures id in orig
    {
      Renamed(part, ids, orig, id);
    }
  }

  lemma Renamed(part: seq<nat>, ids: seq<nat>, orig: seq<nat>, id: nat)
    requires InRange(|part|, ids) && (forall j: nat :: j < |part| ==> j in ids) && id in part
    requires |orig| == |ids| && forall i :: 0 <= i < |ids| ==> orig[i] == part[ids[i]]
    ensures id in orig
  {
    var j: nat :| j < |part| && part[j] == id;
    assert j in ids;
    var i :| 0 <= i < |ids| && ids[i] == j;
    assert orig[i] == id;
  }

  lemma RealTimeSub(ops: seq<KvOp>, sub: seq<KvOp>, part: seq<nat>, ids: seq<nat>, orig: seq<nat>)
    requires InRange(|ops|, part) && |sub| == |part| && forall i :: 0 <= i < |part| ==> sub[i] == ops[part[i]]
    requires InRange(|sub|, ids) && InRange(|ops|, orig)
    requires |orig| == |ids| && forall i :: 0 <= i < |ids| ==> orig[i] == part[ids[i]]
    requires RealTime(sub, ids)
    ensures RealTime(ops, orig)
  {
  }

  ghost function IndexIn(part: seq<nat>, id: nat): (j: nat)
    requires id in part
    ensures j < |part| && part[j] == id
  {
    var j: nat :| j < |part| && part[j] == id;
    j
  }

  lemma KeyGivesSub(ops: seq<KvOp>, key: string)
    requires KeyLinearizable(ops, key)
    ensures Linearizable(KV, Sub(ops, key))
  {
    hide Run, Sub, Part;
    var sub, part := Sub(ops, key), Part(ops, key);
    PartFacts(ops, key);
    var orig := OrderOf(ops, key);
    var ids := seq(|orig|, i requires 0 <= i < |orig| => assert orig[i] in part; IndexIn(part, orig[i]));
    assert InRange(|sub|, ids);
    RunSub(ops, sub, part, "", ids, orig);
    forall j: nat | j < |sub|
      ensures j in ids
    {
      assert part[j] in orig;
      var i :| 0 <= i < |orig| && orig[i] == part[j];
      assert ids[i] == j;
    }
    assert RealTime(sub, ids);
    assert Completion(KV, sub, {}, "", ids);
  }

  /** The contract of Partition: a history is linearizable exactly when each of the
      per-key sub-histories is. */
  lemma PartitionContract(ops: seq<KvOp>)
    requires forall id :: 0 <= id < |ops| ==> ops[id].call <= ops[id].ret
    ensures Linearizable(STORE, ops) <==> forall key :: key in Keys(ops) ==> Linearizable(KV, Sub(ops, key))
  {
    hide KeyLinearizable, Linearizable, Sub, Keys;
    Locality(ops);
    forall key | key in Keys(ops)
      ensures KeyLinearizable(ops, key) <==> Linearizable(KV, Sub(ops, key))
    {
      if KeyLinearizable(ops, key) {
        KeyGivesSub(ops, key);
      }
      if Linearizable(KV, Sub(ops, key)) {
        SubGivesKey(ops, key);
      }
    }
  }
}
