/** The linearizability checker: a depth-first search over the linked list of
    entries, with a memo of the (set of operations, state) pairs already reached. */
module Porcupine {
  import opened Common
  import opened Counting
  import opened Linearizability
  import opened EntryList
  import opened Trail
  import B = Bitset

  // ----- the bitset along a trail -----

  function WordsOf(n: nat, path: seq<nat>): (b: B.Words)
    requires InRange(n, path)
    ensures |b| == B.Chunks(n)
  {
    if path == [] then B.Empty(n)
    else
      var last := path[|path| - 1];
      assert last / 64 < B.Chunks(n);
      B.Set(WordsOf(n, path[..|path| - 1]), last)
  }

  lemma {:induction false} WordsMembers(n: nat, path: seq<nat>)
    requires InRange(n, path)
    ensures B.Members(WordsOf(n, path)) == ToSet(path)
  {
    if path == [] {
      B.EmptyHasNone(n);
    } else {
      var k := |path| - 1;
      WordsMembers(n, path[..k]);
      B.SetAdds(WordsOf(n, path[..k]), path[k]);
      assert path == path[..k] + [path[k]];
    }
  }

  lemma SetPushes(n: nat, path: seq<nat>, id: nat)
    requires InRange(n, path) && id < n
    ensures InRange(n, path + [id]) && id / 64 < B.Chunks(n)
    ensures B.Set(WordsOf(n, path), id) == WordsOf(n, path + [id])
  {
    hide B.Set;
    assert (path + [id])[..|path|] == path;
  }

  lemma {:induction false} PathSize(n: nat, path: seq<nat>)
    requires InRange(n, path) && Distinct(path)
    ensures |ToSet(path)| == |path| <= n
  {
    if path == [] {
      assert ToSet(path) == {};
    } else {
      var k := |path| - 1;
      PathSize(n, path[..k]);
      assert ToSet(path) == ToSet(path[..k]) + {path[k]};
    }
    SubsetSize(ToSet(path), Ids(n));
    IdsSize(n);
  }

  // ----- the pairs a search can ever reach -----

  ghost function Moved<S, I, O>(m: Model<S, I, O>, ops: seq<Op<I, O>>, x: (B.Words, S), id: nat): (B.Words, S)
    requires id < |ops| && id / 64 < |x.0|
  {
    (B.Set(x.0, id), m.step(x.1, ops[id].input, ops[id].output).1)
  }

  ghost function Reach<S, I, O>(m: Model<S, I, O>, ops: seq<Op<I, O>>, k: nat): set<(B.Words, S)> {
    if k == 0 then {(B.Empty(|ops|), m.init)}
    else
      (set x, id | x in Reach(m, ops, k - 1) && id in Ids(|ops|) && id / 64 < |x.0| :: Moved(m, ops, x, id))
  }

  ghost function Universe<S, I, O>(m: Model<S, I, O>, ops: seq<Op<I, O>>, k: nat): set<(B.Words, S)> {
    if k == 0 then Reach(m, ops, 0) else Universe(m, ops, k - 1) + Reach(m, ops, k)
  }

  lemma {:induction false} ReachInUniverse<S, I, O>(m: Model<S, I, O>, ops: seq<Op<I, O>>, j: nat, k: nat)
    requires j <= k
    ensures Reach(m, ops, j) <= Universe(m, ops, k)
    decreases k
  {
    hide Reach;
    if j < k {
      ReachInUniverse(m, ops, j, k - 1);
    }
  }

  /** The pair of bitset and state at level k of a trail. */
  ghost function PairOf<S>(n: nat, t: Trail<S>, k: nat): (B.Words, S)
    requires Sized(t) && InRange(n, t.path) && k <= |t.path|
  {
    (WordsOf(n, t.path[..k]), t.states[k])
  }

  lemma {:induction false} TrailReaches<S, I, O>(m: Model<S, I, O>, h: seq<Event<I, O>>, n: nat, t: Trail<S>, k: nat)
    requires TrailOk(m, h, n, t) && InRange(n, t.path) && k <= |t.path|
    ensures PairOf(n, t, k) in Reach(m, OpsOf(h, n), k)
  {
    hide LevelOk, Live, Reach, Moved, WordsOf, B.Empty;
    if k == 0 {
      ReachStart(m, OpsOf(h, n));
      WordsStart(n);
      assert t.path[..0] == [];
    } else {
      TrailReaches(m, h, n, t, k - 1);
      TrailSteps(m, h, n, t, k - 1);
      assert t.path[..k][..k - 1] == t.path[..k - 1];
      MovedPair(m, h, n, t, k);
      ReachStep(m, OpsOf(h, n), k, PairOf(n, t, k - 1), t.path[k - 1]);
    }
  }

  lemma ReachStart<S, I, O>(m: Model<S, I, O>, ops: seq<Op<I, O>>)
    ensures (B.Empty(|ops|), m.init) in Reach(m, ops, 0)
  {
  }

  lemma WordsStart(n: nat)
    ensures WordsOf(n, []) == B.Empty(n)
  {
  }

  lemma ReachStep<S, I, O>(m: Model<S, I, O>, ops: seq<Op<I, O>>, k: nat, x: (B.Words, S), id: nat)
    requires k > 0 && x in Reach(m, ops, k - 1) && id < |ops| && id / 64 < |x.0|
    ensures Moved(m, ops, x, id) in Reach(m, ops, k)
  {
    hide Moved;
    assert id in Ids(|ops|);
  }

  lemma MovedPair<S, I, O>(m: Model<S, I, O>, h: seq<Event<I, O>>, n: nat, t: Trail<S>, k: nat)
    requires WellFormed(h, n) && Sized(t) && InRange(n, t.path) && 0 < k <= |t.path|
    requires m.step(t.states[k - 1], OpsOf(h, n)[t.path[k - 1]].input, OpsOf(h, n)[t.path[k - 1]].output) ==
               (true, t.states[k])
    ensures t.path[k - 1] / 64 < |PairOf(n, t, k - 1).0|
    ensures PairOf(n, t, k) == Moved(m, OpsOf(h, n), PairOf(n, t, k - 1), t.path[k - 1])
  {
    hide WellFormed, B.Set;
    assert t.path[..k][..k - 1] == t.path[..k - 1];
    assert t.path[k - 1] / 64 < B.Chunks(n);
  }

  lemma TrailSteps<S, I, O>(m: Model<S, I, O>, h: seq<Event<I, O>>, n: nat, t: Trail<S>, k: nat)
    requires TrailOk(m, h, n, t) && k < |t.path|
    ensures t.path[k] < n
    ensures m.step(t.states[k], OpsOf(h, n)[t.path[k]].input, OpsOf(h, n)[t.path[k]].output) == (true, t.states[k + 1])
  {
    assert LevelOk(m, h, n, t, k);
  }

  // ----- the memo -----

  datatype CacheEntry<S> = CacheEntry(linearized: B.Words, state: S)

  type Cache<S> = map<B.HashValue, seq<CacheEntry<S>>>

  ghost predicate Holds<S(!new)>(cache: Cache<S>, seen: set<(B.Words, S)>) {
    forall w, s :: (w, s) in seen <==> B.Hash(w) in cache && CacheEntry(w, s) in cache[B.Hash(w)]
  }

  method CacheContains<S(==, !new)>(cache: Cache<S>, hash: B.HashValue, entry: CacheEntry<S>,
                                    ghost seen: set<(B.Words, S)>)
    returns (found: bool)
    requires Holds(cache, seen) && hash == B.Hash(entry.linearized)
    ensures found <==> (entry.linearized, entry.state) in seen
  {
    var bucket := if hash in cache then cache[hash] else [];
    for i := 0 to |bucket|
      invariant forall k :: 0 <= k < i ==> bucket[k] != entry
    {
      var same := B.Equals(entry.linearized, bucket[i].linearized);
      if |entry.linearized| == |bucket[i].linearized| {
        B.EqualIffSameMembers(entry.linearized, bucket[i].linearized);
      }
      if same && entry.state == bucket[i].state {
        return true;
      }
    }
    return false;
  }

  function Add<S>(cache: Cache<S>, hash: B.HashValue, entry: CacheEntry<S>): Cache<S> {
    cache[hash := (if hash in cache then cache[hash] else []) + [entry]]
  }

  lemma AddHolds<S(!new)>(cache: Cache<S>, entry: CacheEntry<S>, seen: set<(B.Words, S)>)
    requires Holds(cache, seen)
    ensures Holds(Add(cache, B.Hash(entry.linearized), entry), seen + {(entry.linearized, entry.state)})
  {
    hide B.Hash;
    var hash := B.Hash(entry.linearized);
    var cache' := Add(cache, hash, entry);
    var seen' := seen + {(entry.linearized, entry.state)};
    forall w, s
      ensures (w, s) in seen' <==> B.Hash(w) in cache' && CacheEntry(w, s) in cache'[B.Hash(w)]
    {
      assert (w, s) in seen <==> B.Hash(w) in cache && CacheEntry(w, s) in cache[B.Hash(w)];
      if B.Hash(w) == hash {
        var bucket := if hash in cache then cache[hash] else [];
        assert cache'[hash] == bucket + [entry];
        assert CacheEntry(w, s) in cache'[hash] <==> CacheEntry(w, s) in bucket || CacheEntry(w, s) == entry;
        assert CacheEntry(w, s) == entry <==> (w, s) == (entry.linearized, entry.state);
      } else {
        assert w != entry.linearized;
      }
    }
  }

  /** Every pair in the memo is on the current trail or cannot be completed. */
  ghost predicate SeenOk<S, I, O>(m: Model<S, I, O>, h: seq<Event<I, O>>, n: nat, t: Trail<S>, seen: set<(B.Words, S)>)
    requires WellFormed(h, n) && Sized(t) && InRange(n, t.path)
  {
    && seen <= Universe(m, OpsOf(h, n), n)
    && forall x :: x in seen ==> OnTrail(n, t, x) || Dead(m, OpsOf(h, n), B.Members(x.0), x.1)
  }

  ghost predicate OnTrail<S>(n: nat, t: Trail<S>, x: (B.Words, S))
    requires Sized(t) && InRange(n, t.path)
  {
    exists k :: 1 <= k <= |t.path| && PairOf(n, t, k) == x
  }

  /** A pair met again one level deeper than the trail is dead. */
  lemma SeenAgainIsDead<S, I, O>(m: Model<S, I, O>, h: seq<Event<I, O>>, n: nat, t: Trail<S>, seen: set<(B.Words, S)>,
                                 id: nat, st: S)
    requires TrailOk(m, h, n, t) && InRange(n, t.path) && SeenOk(m, h, n, t, seen)
    requires id < n && id !in t.path
    requires InRange(n, t.path + [id]) && (WordsOf(n, t.path + [id]), st) in seen
    ensures Dead(m, OpsOf(h, n), Done(t) + {id}, st)
  {
    hide LevelOk, Live, Universe, WordsOf, B.Members, Completion;
    var path := t.path + [id];
    var x := (WordsOf(n, path), st);
    TrailRange(m, h, n, t);
    WordsMembers(n, path);
    assert ToSet(path) == Done(t) + {id};
    PathSize(n, path);
    forall k | 1 <= k <= |t.path|
      ensures PairOf(n, t, k) != x
    {
      WordsMembers(n, t.path[..k]);
      PathSize(n, t.path[..k]);
    }
  }

  /** The pair of bitset and state a search is at lies in one finite set. */
  lemma PairInUniverse<S, I, O>(m: Model<S, I, O>, h: seq<Event<I, O>>, n: nat, t: Trail<S>)
    requires TrailOk(m, h, n, t) && InRange(n, t.path)
    ensures PairOf(n, t, |t.path|) in Universe(m, OpsOf(h, n), n)
  {
    hide LevelOk, Live, Universe, Reach, WordsOf;
    TrailRange(m, h, n, t);
    PathSize(n, t.path);
    TrailReaches(m, h, n, t, |t.path|);
    ReachInUniverse(m, OpsOf(h, n), |t.path|, n);
  }

  lemma PushSeen<S, I, O>(m: Model<S, I, O>, h: seq<Event<I, O>>, n: nat, t: Trail<S>, u: Trail<S>,
                          seen: set<(B.Words, S)>)
    requires TrailOk(m, h, n, t) && TrailOk(m, h, n, u) && InRange(n, t.path) && InRange(n, u.path)
    requires SeenOk(m, h, n, t, seen)
    requires |u.path| == |t.path| + 1 && u.path[..|t.path|] == t.path && u.states[..|t.states|] == t.states
    ensures SeenOk(m, h, n, u, seen + {PairOf(n, u, |u.path|)})
  {
    hide LevelOk, Live, Universe, Reach, WordsOf;
    var added := PairOf(n, u, |u.path|);
    PairInUniverse(m, h, n, u);
    forall x | x in seen && OnTrail(n, t, x)
      ensures OnTrail(n, u, x)
    {
      var k :| 1 <= k <= |t.path| && PairOf(n, t, k) == x;
      assert u.path[..k] == u.path[..|t.path|][..k] == t.path[..k];
      assert u.states[k] == u.states[..|t.states|][k] == t.states[k];
      assert PairOf(n, u, k) == x;
    }
    assert OnTrail(n, u, added);
  }

  lemma PopSeen<S, I, O>(m: Model<S, I, O>, h: seq<Event<I, O>>, n: nat, t: Trail<S>, seen: set<(B.Words, S)>)
    requires TrailOk(m, h, n, t) && InRange(n, t.path) && |t.path| > 0 && SeenOk(m, h, n, t, seen)
    requires Dead(m, OpsOf(h, n), Done(t), State(t))
    ensures InRange(n, Pop(t).path) && SeenOk(m, h, n, Pop(t), seen)
  {
    hide LevelOk, Live, Universe, WordsOf, B.Members;
    var u := Pop(t);
    forall x | x in seen && OnTrail(n, t, x)
      ensures OnTrail(n, u, x) || Dead(m, OpsOf(h, n), B.Members(x.0), x.1)
    {
      var k :| 1 <= k <= |t.path| && PairOf(n, t, k) == x;
      if k == |t.path| {
        assert t.path[..k] == t.path;
        WordsMembers(n, t.path);
      } else {
        assert u.path[..k] == t.path[..k];
        assert PairOf(n, u, k) == x;
      }
    }
  }
}
