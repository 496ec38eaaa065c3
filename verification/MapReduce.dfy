/** What a MapReduce job computes, and why splitting the keys over reduce tasks does
    not change it. */
module MapReduce {
  import opened Common

  datatype KeyValue = KeyValue(key: string, value: string)

  /** The user's functions, the input files as (name, content), the hash that spreads
      the keys, and the number of reduce tasks. */
  datatype Job = Job(
    mapf: (string, string) -> seq<KeyValue>,
    reducef: (string, seq<string>) -> string,
    ihash: string -> nat,
    files: seq<(string, string)>,
    nReduce: nat)

  /** Reduce does not depend on the order of the values. */
  ghost predicate OrderFree(reducef: (string, seq<string>) -> string) {
    forall k, a, b :: multiset(a) == multiset(b) ==> reducef(k, a) == reducef(k, b)
  }

  // ----- pairs by key -----

  /** The values of one key, in order. */
  function Values(kva: seq<KeyValue>, k: string): seq<string> {
    if kva == [] then []
    else
      var rest, last := Values(kva[..|kva| - 1], k), kva[|kva| - 1];
      if last.key == k then rest + [last.value] else rest
  }

  predicate HasKey(kva: seq<KeyValue>, k: string) {
    exists i :: 0 <= i < |kva| && kva[i].key == k
  }

  lemma {:induction false} ValuesAppend(a: seq<KeyValue>, b: seq<KeyValue>, k: string)
    ensures Values(a + b, k) == Values(a, k) + Values(b, k)
    decreases |b|
  {
    if b == [] {
      assert a + b == a;
    } else {
      ValuesAppend(a, b[..|b| - 1], k);
      assert (a + b)[..|a + b| - 1] == a + b[..|b| - 1];
    }
  }

  lemma {:induction false} ValuesCount(kva: seq<KeyValue>, k: string, v: string)
    ensures multiset(Values(kva, k))[v] == multiset(kva)[KeyValue(k, v)]
    decreases |kva|
  {
    if kva != [] {
      ValuesCount(kva[..|kva| - 1], k, v);
      assert kva == kva[..|kva| - 1] + [kva[|kva| - 1]];
    }
  }

  /** Reordering the pairs reorders the values of each key. */
  lemma ValuesPermuted(a: seq<KeyValue>, b: seq<KeyValue>, k: string)
    requires multiset(a) == multiset(b)
    ensures multiset(Values(a, k)) == multiset(Values(b, k)) && (HasKey(a, k) <==> HasKey(b, k))
  {
    forall v
      ensures multiset(Values(a, k))[v] == multiset(Values(b, k))[v]
    {
      ValuesCount(a, k, v);
      ValuesCount(b, k, v);
    }
    KeyMoves(a, b, k);
    KeyMoves(b, a, k);
  }

  lemma KeyMoves(a: seq<KeyValue>, b: seq<KeyValue>, k: string)
    requires multiset(a) == multiset(b)
    ensures HasKey(a, k) ==> HasKey(b, k)
  {
    if HasKey(a, k) {
      var i :| 0 <= i < |a| && a[i].key == k;
      assert a[i] in multiset(a);
      assert a[i] in b;
    }
  }

  // ----- output -----

  datatype Line = Line(key: string, output: string)

  /** The lines are what reduce gives for every key of kva, each key once, whatever the
      order in which its values came. */
  ghost predicate LinesFor(reducef: (string, seq<string>) -> string, kva: seq<KeyValue>, lines: seq<Line>) {
    && (forall i, j :: 0 <= i < j < |lines| ==> lines[i].key != lines[j].key)
    && (forall i :: 0 <= i < |lines| ==> HasKey(kva, lines[i].key) && Reduces(reducef, kva, lines[i]))
    && (forall k :: HasKey(kva, k) ==> exists i :: 0 <= i < |lines| && lines[i].key == k)
  }

  ghost predicate Reduces(reducef: (string, seq<string>) -> string, kva: seq<KeyValue>, line: Line) {
    exists vs :: multiset(vs) == multiset(Values(kva, line.key)) && line.output == reducef(line.key, vs)
  }

  // ----- the two ways to run a job -----

  function Emitted(job: Job, m: nat): seq<KeyValue>
    requires m < |job.files|
  {
    job.mapf(job.files[m].0, job.files[m].1)
  }

  /** Everything the first n map tasks emit. */
  function Intermediate(job: Job, n: nat): seq<KeyValue>
    requires n <= |job.files|
  {
    if n == 0 then [] else Intermediate(job, n - 1) + Emitted(job, n - 1)
  }

  function Slot(job: Job, k: string): (r: nat)
    requires job.nReduce > 0
    ensures r < job.nReduce
  {
    job.ihash(k) % job.nReduce
  }

  /** The pairs that go to reduce task r. */
  function Bucket(job: Job, kva: seq<KeyValue>, r: nat): seq<KeyValue>
    requires job.nReduce > 0
  {
    if kva == [] then []
    else
      var rest, last := Bucket(job, kva[..|kva| - 1], r), kva[|kva| - 1];
      if Slot(job, last.key) == r then rest + [last] else rest
  }

  /** What reduce task r reads from the first n map tasks. */
  function Gathered(job: Job, r: nat, n: nat): seq<KeyValue>
    requires job.nReduce > 0 && n <= |job.files|
  {
    if n == 0 then [] else Gathered(job, r, n - 1) + Bucket(job, Emitted(job, n - 1), r)
  }

  lemma {:induction false} BucketAppend(job: Job, a: seq<KeyValue>, b: seq<KeyValue>, r: nat)
    requires job.nReduce > 0
    ensures Bucket(job, a + b, r) == Bucket(job, a, r) + Bucket(job, b, r)
    decreases |b|
  {
    if b == [] {
      assert a + b == a;
    } else {
      BucketAppend(job, a, b[..|b| - 1], r);
      assert (a + b)[..|a + b| - 1] == a + b[..|b| - 1];
    }
  }

  /** Splitting first and gathering later is splitting the whole. */
  lemma {:induction false} GatheredIsBucket(job: Job, r: nat, n: nat)
    requires job.nReduce > 0 && n <= |job.files|
    ensures Gathered(job, r, n) == Bucket(job, Intermediate(job, n), r)
    decreases n
  {
    if n > 0 {
      GatheredIsBucket(job, r, n - 1);
      BucketAppend(job, Intermediate(job, n - 1), Emitted(job, n - 1), r);
    }
  }

  /** A key is whole in its own bucket and absent from the others. */
  lemma {:induction false} KeyInOneBucket(job: Job, kva: seq<KeyValue>, r: nat, k: string)
    requires job.nReduce > 0
    ensures Values(Bucket(job, kva, r), k) == if Slot(job, k) == r then Values(kva, k) else []
    ensures HasKey(Bucket(job, kva, r), k) <==> HasKey(kva, k) && Slot(job, k) == r
    decreases |kva|
  {
    if kva != [] {
      var front, last := kva[..|kva| - 1], kva[|kva| - 1];
      KeyInOneBucket(job, front, r, k);
      var b := Bucket(job, front, r);
      ValuesAppend(b, [last], k);
      KeyAppend(front, last, k);
      KeyAppend(b, last, k);
      assert kva == front + [last];
      assert [last][..0] == [];
    }
  }

  lemma KeyAppend(kva: seq<KeyValue>, last: KeyValue, k: string)
    ensures HasKey(kva + [last], k) <==> HasKey(kva, k) || last.key == k
  {
    var l := kva + [last];
    if HasKey(kva, k) {
      var i :| 0 <= i < |kva| && kva[i].key == k;
      assert l[i].key == k;
    }
    if last.key == k {
      assert l[|kva|].key == k;
    }
    if HasKey(l, k) {
      var i :| 0 <= i < |l| && l[i].key == k;
      assert i < |kva| ==> kva[i].key == k;
    }
  }

  // ----- both give the same lines -----

  function Concat(outs: seq<seq<Line>>): seq<Line> {
    if outs == [] then [] else Concat(outs[..|outs| - 1]) + outs[|outs| - 1]
  }

  /** The line for x's key is x. */
  ghost predicate Expected(reducef: (string, seq<string>) -> string, kva: seq<KeyValue>, x: Line) {
    HasKey(kva, x.key) && x.output == reducef(x.key, Values(kva, x.key))
  }

  lemma {:induction false} DistinctTimes<T>(s: seq<T>, x: T)
    requires Distinct(s)
    ensures multiset(s)[x] == if x in s then 1 else 0
    decreases |s|
  {
    if s != [] {
      DistinctTimes(s[..|s| - 1], x);
      assert s == s[..|s| - 1] + [s[|s| - 1]];
    }
  }

  lemma LineTimes(reducef: (string, seq<string>) -> string, kva: seq<KeyValue>, lines: seq<Line>, x: Line)
    requires OrderFree(reducef) && LinesFor(reducef, kva, lines)
    ensures multiset(lines)[x] == if Expected(reducef, kva, x) then 1 else 0
  {
    DistinctTimes(lines, x);
    forall i | 0 <= i < |lines|
      ensures Expected(reducef, kva, lines[i])
    {
      assert Reduces(reducef, kva, lines[i]);
    }
    if Expected(reducef, kva, x) {
      var i :| 0 <= i < |lines| && lines[i].key == x.key;
      assert Expected(reducef, kva, lines[i]);
    }
  }

  lemma {:induction false} ConcatTimes(job: Job, outs: seq<seq<Line>>, n: nat, x: Line)
    requires job.nReduce > 0 && OrderFree(job.reducef) && n <= |outs|
    requires forall r :: 0 <= r < n ==> LinesFor(job.reducef, Gathered(job, r, |job.files|), outs[r])
    ensures multiset(Concat(outs[..n]))[x] ==
              if Expected(job.reducef, Intermediate(job, |job.files|), x) && Slot(job, x.key) < n then 1 else 0
    decreases n
  {
    hide LinesFor, Gathered, Intermediate, Values, HasKey, OrderFree;
    if n > 0 {
      var all := Intermediate(job, |job.files|);
      ConcatTimes(job, outs, n - 1, x);
      GatheredIsBucket(job, n - 1, |job.files|);
      LineTimes(job.reducef, Gathered(job, n - 1, |job.files|), outs[n - 1], x);
      KeyInOneBucket(job, all, n - 1, x.key);
      assert outs[..n][..n - 1] == outs[..n - 1];
      assert Concat(outs[..n]) == Concat(outs[..n - 1]) + outs[n - 1];
    }
  }

  /** The outputs of the reduce tasks together are the lines of the sequential program. */
  lemma SameLines(job: Job, outs: seq<seq<Line>>, lines: seq<Line>)
    requires job.nReduce > 0 && OrderFree(job.reducef) && |outs| == job.nReduce
    requires forall r :: 0 <= r < job.nReduce ==> LinesFor(job.reducef, Gathered(job, r, |job.files|), outs[r])
    requires LinesFor(job.reducef, Intermediate(job, |job.files|), lines)
    ensures multiset(Concat(outs)) == multiset(lines)
  {
    hide LinesFor, OrderFree;
    forall x: Line
      ensures multiset(Concat(outs))[x] == multiset(lines)[x]
    {
      ConcatTimes(job, outs, job.nReduce, x);
      LineTimes(job.reducef, Intermediate(job, |job.files|), lines, x);
      assert outs[..job.nReduce] == outs;
    }
  }

  function Tagged(k: string, vs: seq<string>): seq<KeyValue> {
    seq(|vs|, i requires 0 <= i < |vs| => KeyValue(k, vs[i]))
  }

  lemma {:induction false} TaggedValues(k: string, vs: seq<string>)
    ensures Values(Tagged(k, vs), k) == vs
    decreases |vs|
  {
    if vs != [] {
      TaggedValues(k, vs[..|vs| - 1]);
      assert Tagged(k, vs)[..|vs| - 1] == Tagged(k, vs[..|vs| - 1]);
    }
  }

  lemma OneLine(reducef: (string, seq<string>) -> string, k: string, a: seq<string>, b: seq<string>)
    requires |a| > 0 && multiset(a) == multiset(b)
    ensures LinesFor(reducef, Tagged(k, a), [Line(k, reducef(k, b))])
  {
    TaggedValues(k, a);
    var lines := [Line(k, reducef(k, b))];
    assert Tagged(k, a)[0].key == k && lines[0].key == k;
    assert forall x :: HasKey(Tagged(k, a), x) ==> x == k;
    assert Reduces(reducef, Tagged(k, a), Line(k, reducef(k, b)));
  }

  lemma SameOutcome(reducef: (string, seq<string>) -> string, kva: seq<KeyValue>, x: seq<Line>, y: seq<Line>)
    requires OrderFree(reducef) && LinesFor(reducef, kva, x) && LinesFor(reducef, kva, y)
    ensures multiset(x) == multiset(y)
  {
    hide OrderFree, LinesFor;
    forall l: Line
      ensures multiset(x)[l] == multiset(y)[l]
    {
      LineTimes(reducef, kva, x, l);
      LineTimes(reducef, kva, y, l);
    }
  }

  /** Any two orders of the same pairs print the same lines if and only if reduce does not
      depend on the order of values. */
  lemma OrderFreeIff(reducef: (string, seq<string>) -> string)
    ensures OrderFree(reducef) <==>
              forall kva, x, y :: LinesFor(reducef, kva, x) && LinesFor(reducef, kva, y) ==> multiset(x) == multiset(y)
  {
    hide LinesFor;
    if OrderFree(reducef) {
      forall kva, x, y | LinesFor(reducef, kva, x) && LinesFor(reducef, kva, y)
        ensures multiset(x) == multiset(y)
      {
        SameOutcome(reducef, kva, x, y);
      }
    }
    if forall kva, x, y :: LinesFor(reducef, kva, x) && LinesFor(reducef, kva, y) ==> multiset(x) == multiset(y) {
      forall k, a, b | multiset(a) == multiset(b)
        ensures reducef(k, a) == reducef(k, b)
      {
        SameSize(a, b);
        if a == [] {
          assert b == [];
        } else {
          var x, y := [Line(k, reducef(k, a))], [Line(k, reducef(k, b))];
          OneLine(reducef, k, a, a);
          OneLine(reducef, k, a, b);
          assert x[0] in multiset(x);
          assert x[0] in multiset(y);
        }
      }
    }
  }

  lemma SameSize<T>(a: seq<T>, b: seq<T>)
    requires multiset(a) == multiset(b)
    ensures |a| == |b|
  {
    assert |multiset(a)| == |a| && |multiset(b)| == |b|;
  }
}
