/** The checker end to end: partition by key, make a history of each part, search. */
module CheckOperations {
  import opened Common
  import opened Linearizability
  import opened Trail
  import opened Entries
  import opened KvModel
  import opened KvMeaning
  import opened Checker
  import opened Counting
  import opened Porcupine
  import opened Strings

  ghost predicate Alphabetic(keys: seq<string>) {
    forall i, j :: 0 <= i < j < |keys| ==> keys[i] != keys[j] && AtMost(keys[i], keys[j])
  }

  /** The parts are the sub-histories of these keys, which are those of the history, in order. */
  ghost predicate PartsFor(history: seq<KvOp>, parts: seq<seq<KvOp>>, keys: seq<string>) {
    && |parts| == |keys| && Alphabetic(keys)
    && (forall key :: key in Keys(history) <==> key in keys)
    && (forall i :: 0 <= i < |parts| ==> parts[i] == Sub(history, keys[i]))
  }

  ghost predicate Partitioned(history: seq<KvOp>, parts: seq<seq<KvOp>>) {
    exists keys :: PartsFor(history, parts, keys)
  }

  method Partition(history: seq<KvOp>) returns (parts: seq<seq<KvOp>>)
    ensures Partitioned(history, parts)
  {
    var m: map<string, seq<KvOp>> := map[];
    for i := 0 to |history|
      invariant m.Keys == Keys(history[..i])
      invariant forall key :: key in m ==> m[key] == Sub(history[..i], key)
    {
      var v := history[i];
      var key := v.input.key;
      SubNext(history, i);
      m := m[key := (if key in m then m[key] else []) + [v]];
    }
    assert history[..|history|] == history;
    var keys := SortedKeys(m.Keys);
    parts := [];
    for i := 0 to |keys|
      invariant |parts| == i && forall j :: 0 <= j < i ==> parts[j] == Sub(history, keys[j])
    {
      assert keys[i] in keys;
      parts := parts + [m[keys[i]]];
    }
    assert PartsFor(history, parts, keys);
  }

  lemma InsertedKey(r: seq<string>, k: nat, x: string)
    requires Alphabetic(r) && k <= |r| && x !in r
    requires (forall j :: 0 <= j < k ==> AtMost(r[j], x)) && (k < |r| ==> AtMost(x, r[k]))
    ensures Alphabetic(r[..k] + [x] + r[k..])
    ensures forall y :: y in r[..k] + [x] + r[k..] <==> y in r || y == x
  {
    hide AtMost;
    var q := r[..k] + [x] + r[k..];
    forall j | k <= j < |r|
      ensures AtMost(x, r[j])
    {
      if k < j {
        AtMostTrans(x, r[k], r[j]);
      }
    }
    assert forall j :: 0 <= j < |q| ==> q[j] == if j < k then r[j] else if j == k then x else r[j - 1];
    assert r == r[..k] + r[k..];
    assert forall j :: 0 <= j < |r| ==> r[j] in r;
  }

  /** The keys of the map, walked in any order, in increasing order. */
  method SortedKeys(keys: set<string>) returns (r: seq<string>)
    ensures Alphabetic(r) && forall key :: key in r <==> key in keys
  {
    hide AtMost;
    r := [];
    var left := keys;
    while left != {}
      invariant left <= keys && Alphabetic(r) && forall key :: key in r <==> key in keys && key !in left
      decreases left
    {
      var key :| key in left;
      left := left - {key};
      var k := 0;
      while k < |r| && !AtMost(key, r[k])
        invariant k <= |r| && forall j :: 0 <= j < k ==> AtMost(r[j], key)
      {
        AtMostTotal(r[k], key);
        k := k + 1;
      }
      InsertedKey(r, k, key);
      r := r[..k] + [key] + r[k..];
    }
  }

  lemma SubNext(history: seq<KvOp>, i: nat)
    requires i < |history|
    ensures Keys(history[..i + 1]) == Keys(history[..i]) + {history[i].input.key}
    ensures forall key :: Sub(history[..i + 1], key)
                       == Sub(history[..i], key) + if history[i].input.key == key then [history[i]] else []
    ensures forall key :: key !in Keys(history[..i]) ==> Sub(history[..i], key) == []
  {
    assert history[..i + 1][..i] == history[..i];
    forall key | key !in Keys(history[..i])
      ensures Sub(history[..i], key) == []
    {
      NoSub(history[..i], key);
    }
    forall key
      ensures key in Keys(history[..i + 1]) <==> key in Keys(history[..i]) || key == history[i].input.key
    {
      if key in Keys(history[..i]) {
        var j :| 0 <= j < i && history[..i][j].input.key == key;
        assert history[..i + 1][j].input.key == key;
      }
      assert history[..i + 1][i] == history[i];
    }
  }

  lemma {:induction false} NoSub(ops: seq<KvOp>, key: string)
    requires key !in Keys(ops)
    ensures Sub(ops, key) == []
  {
    if ops != [] {
      var k := |ops| - 1;
      assert ops[k].input.key in Keys(ops);
      forall j | 0 <= j < k
        ensures ops[..k][j].input.key != key
      {
        assert ops[j].input.key in Keys(ops);
      }
      NoSub(ops[..k], key);
    }
  }

  lemma SubTimely(ops: seq<KvOp>, key: string)
    requires Timely(ops)
    ensures Timely(Sub(ops, key))
  {
    PartFacts(ops, key);
  }

  // ----- collecting the results -----

  datatype CheckResult = Ok | Illegal | Unknown

  /** The results that have arrived when the timeout goes off, or all. */
  function Seen(results: seq<bool>, timeout: Option<nat>): seq<bool> {
    if timeout.Some? && timeout.value < |results| then results[..timeout.value] else results
  }

  /** The collecting loop: results come in this order, and the timeout, if there is one,
      goes off after so many of them.  None means that the loop waits for ever. */
  method Collect(results: seq<bool>, computeInfo: bool, timeout: Option<nat>) returns (r: Option<CheckResult>)
    ensures r.None? <==> results == [] && timeout.None?
    ensures r == Some(Illegal) <==> false in Seen(results, timeout)
    ensures r == Some(Ok) <==> results != [] && Seen(results, timeout) == results && false !in results
  {
    var ok, timedOut, count := true, false, 0;
    while true
      invariant count <= |results| && (timeout.Some? ==> count <= timeout.value)
      invariant (count == |results| ==> count == 0) && !timedOut
      invariant ok <==> false !in results[..count]
      invariant !ok ==> computeInfo
      decreases |results| - count
    {
      if timeout == Some(count) || (count == |results| && timeout.Some?) {
        timedOut := true;
        break;
      }
      if count == |results| {
        return None;
      }
      assert results[..count + 1] == results[..count] + [results[count]];
      ok := ok && results[count];
      count := count + 1;
      if !ok && !computeInfo {
        break;
      }
      if count >= |results| {
        break;
      }
    }
    assert results[..|results|] == results;
    assert results == results[..count] + results[count..];
    assert forall j :: 0 <= j < |Seen(results, timeout)| ==> Seen(results, timeout)[j] == results[j];
    assert forall j :: 0 <= j < count ==> results[..count][j] == results[j];
    if !ok {
      return Some(Illegal);
    }
    return Some(if timedOut then Unknown else Ok);
  }

  /** One result per part, in the order in which the searches end: any order. */
  ghost predicate ResultsOf(history: seq<KvOp>, keys: seq<string>, order: seq<nat>, results: seq<bool>) {
    && |order| == |results| == |keys| && Distinct(order) && InRange(|keys|, order)
    && (forall i: nat :: i < |keys| ==> i in order)
    && (forall j :: 0 <= j < |order| ==> (results[j] <==> Linearizable(KV, Sub(history, keys[order[j]]))))
  }

  method CheckPart(ops: seq<KvOp>, computeInfo: bool) returns (ok: bool)
    requires Timely(ops)
    ensures ok <==> Linearizable(KV, ops)
  {
    hide Linearizable, WellFormed, OpsOf, EntriesOf, Sorted;
    var h := MakeEntries(ops);
    ghost var sorted: seq<Timed<KvInput, KvOutput>> :| EntriesOf(ops, sorted) && Sorted(sorted) && h == Events(sorted);
    HistoryFaithful(KV, ops, sorted);
    EntriesSize(ops, sorted);
    var result, longest := CheckSingle(KV, h, computeInfo);
    ok := result;
  }

  method CheckParts(parts: seq<seq<KvOp>>, computeInfo: bool, ghost history: seq<KvOp>, ghost keys: seq<string>)
    returns (results: seq<bool>, ghost order: seq<nat>)
    requires Timely(history) && PartsFor(history, parts, keys)
    ensures ResultsOf(history, keys, order, results)
  {
    hide Linearizable, Sub, Keys, Alphabetic;
    var left: set<nat> := Ids(|parts|);
    results, order := [], [];
    while left != {}
      invariant forall i :: i in left ==> i < |parts|
      invariant |order| == |results| && Distinct(order) && InRange(|keys|, order)
      invariant forall i: nat :: i < |parts| ==> (i in left <==> i !in order)
      invariant forall j :: 0 <= j < |order| ==> (results[j] <==> Linearizable(KV, Sub(history, keys[order[j]])))
      decreases left
    {
      var i :| i in left;
      SubTimely(history, keys[i]);
      var ok := CheckPart(parts[i], computeInfo);
      results, order := results + [ok], order + [i];
      left := left - {i};
    }
    OrderSize(order, |keys|);
  }

  lemma OrderSize(order: seq<nat>, n: nat)
    requires Distinct(order) && InRange(n, order) && forall i: nat :: i < n ==> i in order
    ensures |order| == n
  {
    PathSize(n, order);
    IdsSize(n);
    assert ToSet(order) == Ids(n);
  }

  /** A part is not linearizable exactly if the history is not. */
  lemma SomeFails(history: seq<KvOp>, parts: seq<seq<KvOp>>, keys: seq<string>, order: seq<nat>, results: seq<bool>)
    requires Timely(history) && PartsFor(history, parts, keys) && ResultsOf(history, keys, order, results)
    ensures false in results <==> !Linearizable(STORE, history)
    ensures results == [] <==> history == []
  {
    hide Linearizable, Sub, Alphabetic;
    PartitionContract(history);
    if !Linearizable(STORE, history) {
      var key :| key in Keys(history) && !Linearizable(KV, Sub(history, key));
      var i: nat :| i < |keys| && keys[i] == key;
      assert i in order;
      var j :| 0 <= j < |order| && order[j] == i;
      assert !results[j];
    }
    if false in results {
      var j :| 0 <= j < |results| && !results[j];
      assert keys[order[j]] in keys;
    }
    if history != [] {
      assert history[0].input.key in Keys(history);
    }
    if results != [] {
      assert keys[0] in keys;
    }
  }

  lemma CallRange(history: seq<KvOp>, ids: seq<nat>)
    requires CallOrder(history, ids)
    ensures InRange(|history|, ids)
  {
  }

  /** Without a timeout, the check of a history that is not empty ends with Ok exactly if
      the history is linearizable against the whole store, and with Illegal otherwise; on
      the empty history it never ends.  With a timeout Ok and Illegal are still right.  On a
      history without overlap that means that every read is right in the order of calls. */
  method CheckOperations(history: seq<KvOp>, computeInfo: bool, timeout: Option<nat>) returns (r: Option<CheckResult>)
    requires Timely(history)
    ensures timeout.None? ==> (r == Some(Ok) <==> history != [] && Linearizable(STORE, history))
    ensures timeout.None? ==> (r == Some(Illegal) <==> !Linearizable(STORE, history))
    ensures r.None? <==> history == [] && timeout.None?
    ensures r == Some(Ok) ==> Linearizable(STORE, history)
    ensures r == Some(Illegal) ==> !Linearizable(STORE, history)
    ensures forall ids :: CallOrder(history, ids) && timeout.None? ==>
              (r == Some(Ok) <==> history != [] && ReadsRight(history, ids))
  {
    hide Linearizable, PartsFor, ResultsOf, CallOrder, ReadsRight;
    forall ids | CallOrder(history, ids)
      ensures InRange(|history|, ids) && (Linearizable(STORE, history) <==> ReadsRight(history, ids))
    {
      CallRange(history, ids);
      SequentialIff(history, ids);
    }
    var parts := Partition(history);
    ghost var keys :| PartsFor(history, parts, keys);
    var results;
    ghost var order;
    results, order := CheckParts(parts, computeInfo, history, keys);
    SomeFails(history, parts, keys, order, results);
    r := Collect(results, computeInfo, timeout);
    assert false in Seen(results, timeout) ==> false in results;
  }

  lemma EntriesSize(ops: seq<KvOp>, s: seq<Timed<KvInput, KvOutput>>)
    requires EntriesOf(ops, s)
    ensures |s| == 2 * |ops| && |s| / 2 == |ops|
  {
  }
}
