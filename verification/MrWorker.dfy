/** The worker's tasks and the sequential program, as loops over pairs. */
module MrWorker {
  import opened MapReduce
  import opened Strings

  // ----- sorting by key -----

  ghost predicate Ordered(kva: seq<KeyValue>) {
    forall i, j :: 0 <= i < j < |kva| ==> AtMost(kva[i].key, kva[j].key)
  }

  lemma InsertOrdered(p: seq<KeyValue>, k: nat, x: KeyValue)
    requires Ordered(p) && k <= |p|
    requires forall j :: 0 <= j < k ==> AtMost(p[j].key, x.key)
    requires k < |p| ==> AtMost(x.key, p[k].key)
    ensures Ordered(p[..k] + [x] + p[k..])
  {
    hide AtMost;
    var q := p[..k] + [x] + p[k..];
    forall j | k <= j < |p|
      ensures AtMost(x.key, p[j].key)
    {
      if k < j {
        AtMostTrans(x.key, p[k].key, p[j].key);
      }
    }
    assert forall j :: 0 <= j < |q| ==> q[j] == if j < k then p[j] else if j == k then x else p[j - 1];
  }

  method SortByKey(kva: seq<KeyValue>) returns (p: seq<KeyValue>)
    ensures Ordered(p) && multiset(p) == multiset(kva)
  {
    p := [];
    for i := 0 to |kva|
      invariant Ordered(p) && multiset(p) == multiset(kva[..i])
    {
      var x, k := kva[i], 0;
      while k < |p| && !AtMost(x.key, p[k].key)
        invariant k <= |p| && forall j :: 0 <= j < k ==> AtMost(p[j].key, x.key)
      {
        AtMostTotal(p[k].key, x.key);
        k := k + 1;
      }
      InsertOrdered(p, k, x);
      assert kva[..i + 1] == kva[..i] + [x];
      assert p == p[..k] + p[k..];
      p := p[..k] + [x] + p[k..];
    }
    assert kva[..|kva|] == kva;
  }

  // ----- map -----

  /** Run map on one file and sort what it emits into buckets. */
  method DoMap(job: Job, m: nat) returns (buckets: seq<seq<KeyValue>>)
    requires job.nReduce > 0 && m < |job.files|
    ensures |buckets| == job.nReduce
    ensures forall r :: 0 <= r < job.nReduce ==> buckets[r] == Bucket(job, Emitted(job, m), r)
  {
    var kva := job.mapf(job.files[m].0, job.files[m].1);
    buckets := seq(job.nReduce, _ => []);
    for i := 0 to |kva|
      invariant |buckets| == job.nReduce
      invariant forall r :: 0 <= r < job.nReduce ==> buckets[r] == Bucket(job, kva[..i], r)
    {
      var kv := kva[i];
      assert kva[..i + 1][..i] == kva[..i];
      var r := job.ihash(kv.key) % job.nReduce;
      buckets := buckets[r := buckets[r] + [kv]];
    }
    assert kva[..|kva|] == kva;
  }

  // ----- grouping -----

  lemma {:induction false} BlockValues(kva: seq<KeyValue>, k: string)
    requires forall i :: 0 <= i < |kva| ==> kva[i].key == k
    ensures |Values(kva, k)| == |kva| && (forall i :: 0 <= i < |kva| ==> Values(kva, k)[i] == kva[i].value)
    ensures forall k' :: k' != k ==> Values(kva, k') == []
    decreases |kva|
  {
    if kva != [] {
      BlockValues(kva[..|kva| - 1], k);
    }
  }

  lemma NoValues(kva: seq<KeyValue>, k: string)
    requires !HasKey(kva, k)
    ensures Values(kva, k) == []
    decreases |kva|
  {
    if kva != [] {
      assert kva[|kva| - 1].key != k;
      assert forall i :: 0 <= i < |kva| - 1 ==> kva[..|kva| - 1][i] == kva[i];
      NoValues(kva[..|kva| - 1], k);
    }
  }

  lemma BlockKeys(a: seq<KeyValue>, block: seq<KeyValue>, k: string, x: string)
    requires |block| > 0 && forall i :: 0 <= i < |block| ==> block[i].key == k
    ensures HasKey(a + block, x) <==> HasKey(a, x) || x == k
  {
    var l := a + block;
    if HasKey(a, x) {
      var i :| 0 <= i < |a| && a[i].key == x;
      assert l[i].key == x;
    }
    assert l[|a|] == block[0];
    if HasKey(l, x) {
      var i :| 0 <= i < |l| && l[i].key == x;
      assert if i < |a| then l[i] == a[i] else l[i] == block[i - |a|];
    }
  }

  /** Each line reduces the values of its key in the order in which they stand. */
  ghost predicate InPlace(reducef: (string, seq<string>) -> string, kva: seq<KeyValue>, lines: seq<Line>) {
    forall i :: 0 <= i < |lines| ==> lines[i].output == reducef(lines[i].key, Values(kva, lines[i].key))
  }

  /** A block of pairs with a new key adds the line of that key. */
  lemma AddLine(reducef: (string, seq<string>) -> string, a: seq<KeyValue>, lines: seq<Line>, block: seq<KeyValue>,
                k: string, vs: seq<string>)
    requires LinesFor(reducef, a, lines) && !HasKey(a, k)
    requires |block| == |vs| > 0 && forall i :: 0 <= i < |block| ==> block[i] == KeyValue(k, vs[i])
    ensures LinesFor(reducef, a + block, lines + [Line(k, reducef(k, vs))])
    ensures InPlace(reducef, a, lines) ==> InPlace(reducef, a + block, lines + [Line(k, reducef(k, vs))])
  {
    hide Values, HasKey;
    var l, line := a + block, Line(k, reducef(k, vs));
    BlockValues(block, k);
    NoValues(a, k);
    forall x
      ensures Values(l, x) == Values(a, x) + Values(block, x)
      ensures HasKey(l, x) <==> HasKey(a, x) || x == k
    {
      ValuesAppend(a, block, x);
      BlockKeys(a, block, k, x);
    }
    assert Values(l, k) == vs;
    var all := lines + [line];
    forall i | 0 <= i < |all|
      ensures HasKey(l, all[i].key) && Reduces(reducef, l, all[i])
      ensures i < |lines| ==> Values(l, all[i].key) == Values(a, all[i].key)
    {
      if i < |lines| {
        assert all[i] == lines[i] && Reduces(reducef, a, lines[i]);
        assert Values(l, lines[i].key) == Values(a, lines[i].key);
      }
    }
    forall x | HasKey(l, x)
      ensures exists i :: 0 <= i < |all| && all[i].key == x
    {
      if x == k {
        assert all[|lines|].key == x;
      } else {
        var i :| 0 <= i < |lines| && lines[i].key == x;
        assert all[i].key == x;
      }
    }
  }

  lemma NewKey(p: seq<KeyValue>, i: nat)
    requires Ordered(p) && i < |p| && (i > 0 ==> p[i - 1].key != p[i].key)
    ensures !HasKey(p[..i], p[i].key)
  {
    hide AtMost;
    if HasKey(p[..i], p[i].key) {
      var t :| 0 <= t < i && p[..i][t].key == p[i].key;
      if t < i - 1 {
        AtMostTotal(p[i - 1].key, p[i].key);
      }
    }
  }

  /** Call reduce on each run of equal keys. */
  method Group(reducef: (string, seq<string>) -> string, p: seq<KeyValue>) returns (lines: seq<Line>)
    requires Ordered(p)
    ensures LinesFor(reducef, p, lines) && InPlace(reducef, p, lines)
    ensures forall i, j :: 0 <= i < j < |lines| ==> AtMost(lines[i].key, lines[j].key)
  {
    hide LinesFor, Ordered, Values, HasKey, InPlace, AtMost;
    lines := [];
    NoLines(reducef);
    var i := 0;
    assert p[..0] == [];
    while i < |p|
      invariant i <= |p| && LinesFor(reducef, p[..i], lines) && InPlace(reducef, p[..i], lines)
      invariant i < |p| ==> forall t :: 0 <= t < |lines| ==> AtMost(lines[t].key, p[i].key)
      invariant forall t, u :: 0 <= t < u < |lines| ==> AtMost(lines[t].key, lines[u].key)
      invariant 0 < i < |p| ==> p[i - 1].key != p[i].key
    {
      var key := p[i].key;
      var j := i + 1;
      while j < |p| && p[j].key == key
        invariant i < j <= |p| && forall t :: i <= t < j ==> p[t].key == key
      {
        j := j + 1;
      }
      var values: seq<string> := [];
      for k := i to j
        invariant |values| == k - i && forall t :: 0 <= t < k - i ==> values[t] == p[i + t].value
      {
        values := values + [p[k].value];
      }
      var output := reducef(key, values);
      NewKey(p, i);
      AddLine(reducef, p[..i], lines, p[i..j], key, values);
      assert p[..i] + p[i..j] == p[..j];
      if j < |p| {
        KeysRise(p, i, j, lines);
      }
      lines := lines + [Line(key, output)];
      i := j;
    }
    assert p[..|p|] == p;
  }

  lemma NoLines(reducef: (string, seq<string>) -> string)
    ensures LinesFor(reducef, [], []) && InPlace(reducef, [], [])
  {
  }

  lemma KeysRise(p: seq<KeyValue>, i: nat, j: nat, lines: seq<Line>)
    requires Ordered(p) && i < j < |p| && forall t :: 0 <= t < |lines| ==> AtMost(lines[t].key, p[i].key)
    ensures AtMost(p[i].key, p[j].key) && forall t :: 0 <= t < |lines| ==> AtMost(lines[t].key, p[j].key)
  {
    forall t | 0 <= t < |lines|
      ensures AtMost(lines[t].key, p[j].key)
    {
      AtMostTrans(lines[t].key, p[i].key, p[j].key);
    }
  }

  lemma LinesPermuted(reducef: (string, seq<string>) -> string, p: seq<KeyValue>, kva: seq<KeyValue>, lines: seq<Line>)
    requires multiset(p) == multiset(kva) && LinesFor(reducef, p, lines)
    ensures LinesFor(reducef, kva, lines)
  {
    hide Values, HasKey;
    forall k
      ensures multiset(Values(p, k)) == multiset(Values(kva, k)) && (HasKey(p, k) <==> HasKey(kva, k))
    {
      ValuesPermuted(p, kva, k);
    }
    forall i | 0 <= i < |lines|
      ensures Reduces(reducef, kva, lines[i])
    {
      assert Reduces(reducef, p, lines[i]);
    }
  }

  // ----- reduce, and the sequential program -----

  /** The intermediate files, by map and reduce task. */
  type Files = map<(nat, nat), seq<KeyValue>>

  /** The pairs in the files of the first n map tasks for reduce task r; missing files
      are skipped. */
  function ReadFiles(fs: Files, r: nat, n: nat): seq<KeyValue> {
    if n == 0 then [] else ReadFiles(fs, r, n - 1) + if (n - 1, r) in fs then fs[(n - 1, r)] else []
  }

  method DoReduce(reducef: (string, seq<string>) -> string, fs: Files, r: nat, nMap: nat) returns (lines: seq<Line>)
    ensures LinesFor(reducef, ReadFiles(fs, r, nMap), lines)
  {
    hide LinesFor;
    var intermediate: seq<KeyValue> := [];
    for m := 0 to nMap
      invariant intermediate == ReadFiles(fs, r, m)
    {
      if (m, r) in fs {
        intermediate := intermediate + fs[(m, r)];
      }
    }
    var sorted := SortByKey(intermediate);
    lines := Group(reducef, sorted);
    LinesPermuted(reducef, sorted, intermediate, lines);
  }

  method Sequential(job: Job) returns (lines: seq<Line>)
    ensures LinesFor(job.reducef, Intermediate(job, |job.files|), lines)
  {
    hide LinesFor;
    var intermediate: seq<KeyValue> := [];
    for m := 0 to |job.files|
      invariant intermediate == Intermediate(job, m)
    {
      intermediate := intermediate + job.mapf(job.files[m].0, job.files[m].1);
    }
    var sorted := SortByKey(intermediate);
    lines := Group(job.reducef, sorted);
    LinesPermuted(job.reducef, sorted, intermediate, lines);
  }
}
