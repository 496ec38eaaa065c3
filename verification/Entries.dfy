/** makeEntries: from operations with call and return times to a history. */
module Entries {
  import opened Common
  import opened Linearizability
  import opened EntryList
  import opened Trail

  datatype Timed<+I, +O> = Timed(event: Event<I, O>, time: int)

  /** The sort order: by time, calls before returns at the same time. */
  predicate Less<I, O>(a: Timed<I, O>, b: Timed<I, O>) {
    if a.time != b.time then a.time < b.time else a.event.Call? && b.event.Return?
  }

  ghost predicate Sorted<I, O>(s: seq<Timed<I, O>>) {
    forall i, j :: 0 <= i < j < |s| ==> !Less(s[j], s[i])
  }

  /** A sort; any other that orders by Less does as well below. */
  function Insert<I, O>(x: Timed<I, O>, s: seq<Timed<I, O>>): (r: seq<Timed<I, O>>)
    ensures |r| == |s| + 1
  {
    if s == [] then [x]
    else if Less(s[0], x) then [s[0]] + Insert(x, s[1..])
    else [x] + s
  }

  function Sort<I, O>(s: seq<Timed<I, O>>): (r: seq<Timed<I, O>>)
    ensures |r| == |s|
  {
    if s == [] then [] else Insert(s[0], Sort(s[1..]))
  }

  lemma {:induction false} InsertElements<I, O>(x: Timed<I, O>, s: seq<Timed<I, O>>, y: Timed<I, O>)
    ensures y in Insert(x, s) <==> y == x || y in s
  {
    if s != [] && Less(s[0], x) {
      InsertElements(x, s[1..], y);
      assert y in s <==> y == s[0] || y in s[1..];
    }
  }

  lemma {:induction false} SortElements<I, O>(s: seq<Timed<I, O>>, y: Timed<I, O>)
    ensures y in Sort(s) <==> y in s
  {
    if s != [] {
      SortElements(s[1..], y);
      InsertElements(s[0], Sort(s[1..]), y);
      assert y in s <==> y == s[0] || y in s[1..];
    }
  }

  lemma {:induction false} InsertSorted<I, O>(x: Timed<I, O>, s: seq<Timed<I, O>>)
    requires Sorted(s)
    ensures Sorted(Insert(x, s))
  {
    if s != [] && Less(s[0], x) {
      InsertSorted(x, s[1..]);
      var r := Insert(x, s[1..]);
      forall j | 0 <= j < |r|
        ensures !Less(r[j], s[0])
      {
        InsertElements(x, s[1..], r[j]);
        if r[j] != x {
          var k :| 0 <= k < |s[1..]| && s[1..][k] == r[j];
          assert s[k + 1] == r[j];
        }
      }
    } else if s != [] {
      forall j | 0 <= j < |s|
        ensures !Less(s[j], x)
      {
        assert !Less(s[0], x);
        assert j > 0 ==> !Less(s[j], s[0]);
      }
    }
  }

  lemma {:induction false} SortSorted<I, O>(s: seq<Timed<I, O>>)
    ensures Sorted(Sort(s))
  {
    if s != [] {
      SortSorted(s[1..]);
      InsertSorted(s[0], Sort(s[1..]));
    }
  }

  lemma {:induction false} InsertDistinct<I(!new), O(!new)>(x: Timed<I, O>, s: seq<Timed<I, O>>)
    requires Distinct(s) && x !in s
    ensures Distinct(Insert(x, s))
  {
    if s != [] && Less(s[0], x) {
      InsertDistinct(x, s[1..]);
      InsertElements(x, s[1..], s[0]);
      assert s[0] !in s[1..];
      assert s[0] !in Insert(x, s[1..]);
    }
  }

  lemma {:induction false} SortDistinct<I(!new), O(!new)>(s: seq<Timed<I, O>>)
    requires Distinct(s)
    ensures Distinct(Sort(s))
  {
    if s != [] {
      SortDistinct(s[1..]);
      SortElements(s[1..], s[0]);
      assert s[0] !in s[1..];
      InsertDistinct(s[0], Sort(s[1..]));
    }
  }

  // ----- the entries of a list of operations -----

  function CallEntry<I, O>(ops: seq<Op<I, O>>, id: nat): Timed<I, O>
    requires id < |ops|
  {
    Timed(Call(id, ops[id].input), ops[id].call)
  }

  function ReturnEntry<I, O>(ops: seq<Op<I, O>>, id: nat): Timed<I, O>
    requires id < |ops|
  {
    Timed(Return(id, ops[id].output), ops[id].ret)
  }

  /** s holds exactly the entries of the operations, each once. */
  ghost predicate EntriesOf<I(!new), O(!new)>(ops: seq<Op<I, O>>, s: seq<Timed<I, O>>) {
    && |s| == 2 * |ops|
    && Distinct(s)
    && (forall id: nat :: id < |ops| ==> CallEntry(ops, id) in s && ReturnEntry(ops, id) in s)
    && (forall k :: 0 <= k < |s| ==>
          s[k].event.id < |ops| && (s[k] == CallEntry(ops, s[k].event.id) || s[k] == ReturnEntry(ops, s[k].event.id)))
  }

  function Events<I, O>(s: seq<Timed<I, O>>): (h: seq<Event<I, O>>)
    ensures |h| == |s| && forall k :: 0 <= k < |h| ==> h[k] == s[k].event
  {
    seq(|s|, k requires 0 <= k < |s| => s[k].event)
  }

  /** An operation is not called after it returned. */
  predicate Timely<I, O>(ops: seq<Op<I, O>>) {
    forall id :: 0 <= id < |ops| ==> ops[id].call <= ops[id].ret
  }

  /** Sorted entries are a well-formed history. */
  lemma SortedWellFormed<I(!new), O(!new)>(ops: seq<Op<I, O>>, s: seq<Timed<I, O>>)
    requires Timely(ops) && EntriesOf(ops, s) && Sorted(s)
    ensures WellFormed(Events(s), |ops|)
  {
    var h := Events(s);
    forall id: nat | id < |ops|
      ensures HasPair(h, id)
    {
      assert CallEntry(ops, id) in s && ReturnEntry(ops, id) in s;
      var c :| 0 <= c < |s| && s[c] == CallEntry(ops, id);
      var r :| 0 <= r < |s| && s[r] == ReturnEntry(ops, id);
      assert Less(s[c], s[r]);
      assert IsPair(h, id, c, r);
    }
    forall j, k | 0 <= j < k < |h| && h[j].id == h[k].id
      ensures h[j].Call? && h[k].Return?
    {
      assert s[j] != s[k];
      assert !Less(s[k], s[j]);
    }
  }

  /** Positions in the history order operations exactly as their times do. */
  lemma SamePrecedence<I(!new), O(!new)>(ops: seq<Op<I, O>>, s: seq<Timed<I, O>>, a: nat, b: nat)
    requires Timely(ops) && EntriesOf(ops, s) && Sorted(s) && WellFormed(Events(s), |ops|)
    requires a < |ops| && b < |ops|
    ensures OpsOf(Events(s), |ops|)[a].input == ops[a].input && OpsOf(Events(s), |ops|)[a].output == ops[a].output
    ensures Precedes(OpsOf(Events(s), |ops|)[a], OpsOf(Events(s), |ops|)[b]) <==> Precedes(ops[a], ops[b])
  {
    hide WellFormed;
    var h := Events(s);
    var (ca, ra) := PairAt(h, |ops|, a);
    var (cb, rb) := PairAt(h, |ops|, b);
    assert s[ca] == CallEntry(ops, a) && s[ra] == ReturnEntry(ops, a);
    assert s[cb] == CallEntry(ops, b) && s[rb] == ReturnEntry(ops, b);
    if ra < cb {
      assert !Less(s[cb], s[ra]);
    } else {
      assert cb < ra;
      assert !Less(s[ra], s[cb]);
    }
  }

  /** Lists of operations with the same inputs, outputs and precedence are
      linearizable together. */
  lemma {:induction false} SameRun<S, I, O>(m: Model<S, I, O>, A: seq<Op<I, O>>, C: seq<Op<I, O>>, st: S, ids: seq<nat>)
    requires |A| == |C| && InRange(|A|, ids)
    requires forall i :: 0 <= i < |A| ==> A[i].input == C[i].input && A[i].output == C[i].output
    ensures Run(m, A, st, ids) == Run(m, C, st, ids)
    decreases |ids|
  {
    if ids != [] {
      var (ok, st') := m.step(st, A[ids[0]].input, A[ids[0]].output);
      SameRun(m, A, C, st', ids[1..]);
    }
  }

  lemma SameCompletion<S, I, O>(m: Model<S, I, O>, A: seq<Op<I, O>>, C: seq<Op<I, O>>)
    requires |A| == |C|
    requires forall i :: 0 <= i < |A| ==> A[i].input == C[i].input && A[i].output == C[i].output
    requires forall i, j :: 0 <= i < |A| && 0 <= j < |A| ==> (Precedes(A[i], A[j]) <==> Precedes(C[i], C[j]))
    ensures Linearizable(m, A) ==> Linearizable(m, C)
  {
    if Linearizable(m, A) {
      var rest :| Completion(m, A, {}, m.init, rest);
      SameRun(m, A, C, m.init, rest);
      assert Completion(m, C, {}, m.init, rest);
    }
  }

  lemma HistoryFaithful<S, I(!new), O(!new)>(m: Model<S, I, O>, ops: seq<Op<I, O>>, s: seq<Timed<I, O>>)
    requires Timely(ops) && EntriesOf(ops, s) && Sorted(s)
    ensures WellFormed(Events(s), |ops|)
    ensures Linearizable(m, OpsOf(Events(s), |ops|)) <==> Linearizable(m, ops)
  {
    hide WellFormed, Linearizable, EntriesOf, Sorted, Events;
    SortedWellFormed(ops, s);
    var A := OpsOf(Events(s), |ops|);
    forall a: nat, b: nat | a < |ops| && b < |ops|
      ensures A[a].input == ops[a].input && A[a].output == ops[a].output
      ensures Precedes(A[a], A[b]) <==> Precedes(ops[a], ops[b])
    {
      SamePrecedence(ops, s, a, b);
    }
    forall a | 0 <= a < |ops|
      ensures A[a].input == ops[a].input && A[a].output == ops[a].output
    {
      SamePrecedence(ops, s, a, a);
    }
    SameCompletion(m, A, ops);
    SameCompletion(m, ops, A);
  }

  lemma AddEntries<I(!new), O(!new)>(ops: seq<Op<I, O>>, id: nat, s: seq<Timed<I, O>>)
    requires id < |ops| && EntriesOf(ops[..id], s)
    ensures EntriesOf(ops[..id + 1], s + [CallEntry(ops, id)] + [ReturnEntry(ops, id)])
  {
    var A, C := ops[..id], ops[..id + 1];
    var s' := s + [CallEntry(ops, id)] + [ReturnEntry(ops, id)];
    forall j: nat | j < |C|
      ensures CallEntry(C, j) in s' && ReturnEntry(C, j) in s'
    {
      if j < id {
        assert CallEntry(A, j) in s && ReturnEntry(A, j) in s;
      } else {
        assert s'[|s|] == CallEntry(C, j) && s'[|s| + 1] == ReturnEntry(C, j);
      }
    }
    forall k | 0 <= k < |s'|
      ensures s'[k].event.id < |C|
      ensures s'[k] == CallEntry(C, s'[k].event.id) || s'[k] == ReturnEntry(C, s'[k].event.id)
    {
      if k < |s| {
        assert s[k] == CallEntry(A, s[k].event.id) || s[k] == ReturnEntry(A, s[k].event.id);
      }
    }
  }

  lemma SortedEntries<I(!new), O(!new)>(ops: seq<Op<I, O>>, s: seq<Timed<I, O>>)
    requires EntriesOf(ops, s)
    ensures EntriesOf(ops, Sort(s)) && Sorted(Sort(s))
  {
    SortSorted(s);
    SortDistinct(s);
    forall x
      ensures x in Sort(s) <==> x in s
    {
      SortElements(s, x);
    }
    assert forall k :: 0 <= k < |Sort(s)| ==> Sort(s)[k] in s;
  }

  /** h has a call and a return per operation, sorted by time. */
  ghost predicate Renders<I(!new), O(!new)>(ops: seq<Op<I, O>>, h: seq<Event<I, O>>) {
    exists s: seq<Timed<I, O>> :: EntriesOf(ops, s) && Sorted(s) && h == Events(s)
  }

  method MakeEntries<I(!new), O(!new)>(ops: seq<Op<I, O>>) returns (h: seq<Event<I, O>>)
    ensures Renders(ops, h)
  {
    hide EntriesOf, Sorted;
    var entries: seq<Timed<I, O>> := [];
    NoEntries(ops);
    for id := 0 to |ops|
      invariant EntriesOf(ops[..id], entries)
    {
      AddEntries(ops, id, entries);
      entries := entries + [CallEntry(ops, id)];
      entries := entries + [ReturnEntry(ops, id)];
    }
    assert ops[..|ops|] == ops;
    SortedEntries(ops, entries);
    entries := Sort(entries);
    h := Events(entries);
  }

  lemma NoEntries<I(!new), O(!new)>(ops: seq<Op<I, O>>)
    ensures EntriesOf(ops[..0], [])
  {
  }
}
