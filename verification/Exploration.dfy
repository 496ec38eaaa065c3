/** What a search that fails has seen: every pair of operations and state that a legal
    partial linearization reaches, each recorded when it was given up. */
module Exploration {
  import opened Common
  import opened Linearizability
  import opened EntryList
  import opened Trail
  import opened Porcupine
  import B = Bitset

  /** If the model allows operation id at x, the pair it leads to was seen. */
  ghost predicate StepSeen<S, I, O>(m: Model<S, I, O>, ops: seq<Op<I, O>>, x: (B.Words, S), id: nat,
                                    seen: set<(B.Words, S)>)
  {
    && id < |ops| && id / 64 < |x.0|
    && var (ok, st) := m.step(x.1, ops[id].input, ops[id].output);
    ok ==> (B.Set(x.0, id), st) in seen
  }

  /** So it is for all operations that may come next. */
  ghost predicate Closed<S, I, O>(m: Model<S, I, O>, ops: seq<Op<I, O>>, x: (B.Words, S), seen: set<(B.Words, S)>) {
    forall id: nat :: Eligible(ops, B.Members(x.0), id) ==> StepSeen(m, ops, x, id, seen)
  }

  /** Something at least as long is known for each of these operations. */
  ghost predicate Recorded(longest: seq<Option<seq<nat>>>, done: set<nat>) {
    forall id: nat :: id in done ==>
      id < |longest| && longest[id].Some? && |longest[id].value| >= |done|
  }

  /** So it is for the first e entries left at level k. */
  ghost predicate SeenBefore<S, I, O>(m: Model<S, I, O>, h: seq<Event<I, O>>, n: nat, t: Trail<S>, k: nat, e: nat,
                                      seen: set<(B.Words, S)>)
    requires WellFormed(h, n) && Sized(t) && InRange(n, t.path) && k <= |t.path|
  {
    forall i :: 0 <= i < e && i < |t.idxs[k]| && t.idxs[k][i] < |h| ==>
      StepSeen(m, OpsOf(h, n), PairOf(n, t, k), h[t.idxs[k][i]].id, seen)
  }

  /** What has been given up is closed and recorded; the rest is on the trail. */
  ghost predicate Explored<S, I, O>(m: Model<S, I, O>, h: seq<Event<I, O>>, n: nat, t: Trail<S>, e: nat,
                                    seen: set<(B.Words, S)>, left: set<(B.Words, S)>, longest: seq<Option<seq<nat>>>)
    requires WellFormed(h, n) && Sized(t) && InRange(n, t.path)
  {
    && left <= seen
    && (forall x :: x in seen ==> x in left || OnTrail(n, t, x))
    && (forall x :: x in left ==> Closed(m, OpsOf(h, n), x, seen) && Recorded(longest, B.Members(x.0)))
    && (forall k :: 1 <= k <= |t.path| ==> PairOf(n, t, k) in seen)
    && (forall k :: 0 <= k < |t.path| ==> |t.ps| == |t.path| && SeenBefore(m, h, n, t, k, t.ps[k], seen))
    && SeenBefore(m, h, n, t, |t.path|, e, seen)
  }

  lemma StartExplored<S, I, O>(m: Model<S, I, O>, h: seq<Event<I, O>>, n: nat, t: Trail<S>,
                               longest: seq<Option<seq<nat>>>)
    requires WellFormed(h, n) && Sized(t) && t.path == []
    ensures Explored(m, h, n, t, 0, {}, {}, longest)
  {
  }

  // ----- more is seen, more is known -----

  lemma ClosedMore<S, I, O>(m: Model<S, I, O>, ops: seq<Op<I, O>>, x: (B.Words, S), seen: set<(B.Words, S)>,
                            seen': set<(B.Words, S)>)
    requires seen <= seen' && Closed(m, ops, x, seen)
    ensures Closed(m, ops, x, seen')
  {
    forall id: nat | Eligible(ops, B.Members(x.0), id)
      ensures StepSeen(m, ops, x, id, seen')
    {
      assert StepSeen(m, ops, x, id, seen);
    }
  }

  lemma SeenBeforeMore<S, I, O>(m: Model<S, I, O>, h: seq<Event<I, O>>, n: nat, t: Trail<S>, u: Trail<S>, k: nat,
                                e: nat, seen: set<(B.Words, S)>, seen': set<(B.Words, S)>)
    requires WellFormed(h, n) && Sized(t) && Sized(u) && InRange(n, t.path) && InRange(n, u.path)
    requires k <= |t.path| && k <= |u.path| && u.idxs[k] == t.idxs[k] && PairOf(n, u, k) == PairOf(n, t, k)
    requires seen <= seen' && SeenBefore(m, h, n, t, k, e, seen)
    ensures SeenBefore(m, h, n, u, k, e, seen')
  {
    hide WellFormed, OpsOf, WordsOf, PairOf;
    forall i | 0 <= i < e && i < |u.idxs[k]| && u.idxs[k][i] < |h|
      ensures StepSeen(m, OpsOf(h, n), PairOf(n, u, k), h[u.idxs[k][i]].id, seen')
    {
      assert StepSeen(m, OpsOf(h, n), PairOf(n, t, k), h[t.idxs[k][i]].id, seen);
    }
  }

  /** Every recorded list only gives way to a longer one. */
  ghost predicate Lengthens(a: seq<Option<seq<nat>>>, b: seq<Option<seq<nat>>>) {
    && |b| == |a|
    && forall id :: 0 <= id < |a| && a[id].Some? ==> b[id].Some? && |b[id].value| >= |a[id].value|
  }

  lemma RecordedMore(a: seq<Option<seq<nat>>>, b: seq<Option<seq<nat>>>, done: set<nat>)
    requires Lengthens(a, b) && Recorded(a, done)
    ensures Recorded(b, done)
  {
  }

  // ----- steps of the search -----

  /** u is t with one more operation on it. */
  ghost predicate Extends<S>(t: Trail<S>, u: Trail<S>, e: nat) {
    && Sized(t) && Sized(u) && |u.path| == |t.path| + 1 && u.path[..|t.path|] == t.path
    && u.states[..|t.states|] == t.states && u.idxs[..|t.idxs|] == t.idxs && u.ps == t.ps + [e]
  }

  lemma SameLevel<S>(n: nat, t: Trail<S>, u: Trail<S>, e: nat, k: nat)
    requires Extends(t, u, e) && InRange(n, t.path) && InRange(n, u.path) && k <= |t.path|
    ensures u.idxs[k] == t.idxs[k] && PairOf(n, u, k) == PairOf(n, t, k)
    ensures k < |t.path| ==> u.ps[k] == t.ps[k]
  {
    assert u.path[..k] == u.path[..|t.path|][..k] == t.path[..k];
    assert u.states[k] == u.states[..|t.states|][k] == t.states[k];
    assert u.idxs[k] == u.idxs[..|t.idxs|][k] == t.idxs[k];
  }

  lemma PushExplored<S, I, O>(m: Model<S, I, O>, h: seq<Event<I, O>>, n: nat, t: Trail<S>, u: Trail<S>, e: nat,
                              seen: set<(B.Words, S)>, left: set<(B.Words, S)>, longest: seq<Option<seq<nat>>>)
    requires WellFormed(h, n) && Extends(t, u, e) && InRange(n, t.path) && InRange(n, u.path)
    requires Explored(m, h, n, t, e, seen, left, longest)
    ensures Explored(m, h, n, u, 0, seen + {PairOf(n, u, |u.path|)}, left, longest)
  {
    hide WellFormed, OpsOf, PairOf, Closed, Recorded, SeenBefore, Extends;
    Extended(t, u, e);
    var seen' := seen + {PairOf(n, u, |u.path|)};
    forall k: nat | k <= |t.path|
      ensures u.idxs[k] == t.idxs[k] && PairOf(n, u, k) == PairOf(n, t, k) && (k < |t.path| ==> u.ps[k] == t.ps[k])
    {
      SameLevel(n, t, u, e, k);
    }
    forall x | x in seen'
      ensures x in left || OnTrail(n, u, x)
    {
      if x in seen && x !in left {
        var k :| 1 <= k <= |t.path| && PairOf(n, t, k) == x;
        assert PairOf(n, u, k) == x;
      }
    }
    forall x | x in left
      ensures Closed(m, OpsOf(h, n), x, seen')
    {
      ClosedMore(m, OpsOf(h, n), x, seen, seen');
    }
    forall k: nat | k < |u.path|
      ensures SeenBefore(m, h, n, u, k, u.ps[k], seen')
    {
      SeenBeforeMore(m, h, n, t, u, k, u.ps[k], seen, seen');
    }
    NoneBefore(m, h, n, u, seen');
  }

  lemma Extended<S>(t: Trail<S>, u: Trail<S>, e: nat)
    requires Extends(t, u, e)
    ensures Sized(t) && Sized(u) && |u.path| == |t.path| + 1 && u.ps[|t.path|] == e
  {
  }

  lemma NoneBefore<S, I, O>(m: Model<S, I, O>, h: seq<Event<I, O>>, n: nat, t: Trail<S>, seen: set<(B.Words, S)>)
    requires WellFormed(h, n) && Sized(t) && InRange(n, t.path)
    ensures SeenBefore(m, h, n, t, |t.path|, 0, seen)
  {
  }

  lemma SkipExplored<S, I, O>(m: Model<S, I, O>, h: seq<Event<I, O>>, n: nat, t: Trail<S>, e: nat,
                              seen: set<(B.Words, S)>, left: set<(B.Words, S)>, longest: seq<Option<seq<nat>>>)
    requires WellFormed(h, n) && Sized(t) && InRange(n, t.path) && e < |Left(t)| && Left(t)[e] < |h|
    requires Explored(m, h, n, t, e, seen, left, longest)
    requires StepSeen(m, OpsOf(h, n), PairOf(n, t, |t.path|), h[Left(t)[e]].id, seen)
    ensures Explored(m, h, n, t, e + 1, seen, left, longest)
  {
    hide WellFormed, OpsOf, PairOf, Closed, Recorded, StepSeen;
  }

  /** At a return, everything that may come next was seen. */
  lemma ReturnClosed<S, I, O>(m: Model<S, I, O>, h: seq<Event<I, O>>, n: nat, t: Trail<S>, e: nat,
                              seen: set<(B.Words, S)>)
    requires TrailOk(m, h, n, t) && InRange(n, t.path) && e < |Left(t)| && h[Left(t)[e]].Return?
    requires SeenBefore(m, h, n, t, |t.path|, e, seen)
    ensures Closed(m, OpsOf(h, n), PairOf(n, t, |t.path|), seen)
  {
    hide LevelOk, WellFormed, OpsOf, WordsOf, StepSeen, B.Members;
    var x, ops := PairOf(n, t, |t.path|), OpsOf(h, n);
    assert t.path[..|t.path|] == t.path;
    WordsMembers(n, t.path);
    forall id: nat | Eligible(ops, B.Members(x.0), id)
      ensures StepSeen(m, ops, x, id, seen)
    {
      var i := EligibleBefore(m, h, n, t, e, id);
    }
  }

  lemma PopExplored<S, I, O>(m: Model<S, I, O>, h: seq<Event<I, O>>, n: nat, t: Trail<S>, e: nat,
                             seen: set<(B.Words, S)>, left: set<(B.Words, S)>, longest: seq<Option<seq<nat>>>,
                             longest': seq<Option<seq<nat>>>)
    requires TrailOk(m, h, n, t) && InRange(n, t.path) && e < |Left(t)| && h[Left(t)[e]].Return? && |t.path| > 0
    requires Explored(m, h, n, t, e, seen, left, longest)
    requires Lengthens(longest, longest') && Recorded(longest', ToSet(t.path))
    ensures InRange(n, Pop(t).path)
    ensures Explored(m, h, n, Pop(t), t.ps[|t.path| - 1] + 1, seen, left + {PairOf(n, t, |t.path|)}, longest')
  {
    hide LevelOk, Live, WellFormed, OpsOf, WordsOf, Closed, Recorded, SeenBefore, StepSeen, Lengthens, B.Members;
    var u, k, x := Pop(t), |t.path| - 1, PairOf(n, t, |t.path|);
    assert t.path[..|t.path|] == t.path;
    WordsMembers(n, t.path);
    ReturnClosed(m, h, n, t, e, seen);
    forall y | y in left
      ensures Recorded(longest', B.Members(y.0))
    {
      RecordedMore(longest, longest', B.Members(y.0));
    }
    forall j: nat | j <= k
      ensures u.idxs[j] == t.idxs[j] && PairOf(n, u, j) == PairOf(n, t, j)
    {
      assert u.path[..j] == t.path[..j];
    }
    forall y | y in seen
      ensures y in left + {x} || OnTrail(n, u, y)
    {
      if y !in left {
        var j :| 1 <= j <= |t.path| && PairOf(n, t, j) == y;
        assert j <= k ==> PairOf(n, u, j) == y;
      }
    }
    forall j: nat | j < k
      ensures SeenBefore(m, h, n, u, j, u.ps[j], seen)
    {
      SeenBeforeMore(m, h, n, t, u, j, t.ps[j], seen, seen);
    }
    SeenBeforeMore(m, h, n, t, u, k, t.ps[k], seen, seen);
    TakenSeen(m, h, n, t, k, seen);
    OneMore(m, h, n, u, t.ps[k], seen);
  }

  lemma OneMore<S, I, O>(m: Model<S, I, O>, h: seq<Event<I, O>>, n: nat, t: Trail<S>, e: nat, seen: set<(B.Words, S)>)
    requires WellFormed(h, n) && Sized(t) && InRange(n, t.path) && e < |Left(t)| && Left(t)[e] < |h|
    requires SeenBefore(m, h, n, t, |t.path|, e, seen)
    requires StepSeen(m, OpsOf(h, n), PairOf(n, t, |t.path|), h[Left(t)[e]].id, seen)
    ensures SeenBefore(m, h, n, t, |t.path|, e + 1, seen)
  {
    hide WellFormed, OpsOf, PairOf, StepSeen;
  }

  /** The operation taken at level k led to a pair that was seen. */
  lemma TakenSeen<S, I, O>(m: Model<S, I, O>, h: seq<Event<I, O>>, n: nat, t: Trail<S>, k: nat, seen: set<(B.Words, S)>)
    requires TrailOk(m, h, n, t) && InRange(n, t.path) && k < |t.path| && PairOf(n, t, k + 1) in seen
    ensures t.ps[k] < |t.idxs[k]| && t.idxs[k][t.ps[k]] < |h| && h[t.idxs[k][t.ps[k]]].id == t.path[k]
    ensures StepSeen(m, OpsOf(h, n), PairOf(n, t, k), t.path[k], seen)
  {
    hide Live, OpsOf, B.Set;
    assert LevelOk(m, h, n, t, k);
    assert t.path[..k + 1] == t.path[..k] + [t.path[k]];
    SetPushes(n, t.path[..k], t.path[k]);
  }

  // ----- when the search has failed -----

  ghost predicate AreLongest<S, I, O>(m: Model<S, I, O>, h: seq<Event<I, O>>, n: nat, longest: seq<Option<seq<nat>>>)
    requires WellFormed(h, n)
  {
    && |longest| == n
    && forall p, id: nat :: Partial(m, OpsOf(h, n), p) && id in p ==>
         id < n && longest[id].Some? && |longest[id].value| >= |p|
  }

  /** Every pair a partial linearization reaches was seen. */
  lemma {:induction false} PartialSeen<S, I, O>(m: Model<S, I, O>, h: seq<Event<I, O>>, n: nat, p: seq<nat>, k: nat,
                                                seen: set<(B.Words, S)>)
    requires WellFormed(h, n) && Partial(m, OpsOf(h, n), p) && k <= |p|
    requires Closed(m, OpsOf(h, n), (B.Empty(n), m.init), seen)
    requires forall x :: x in seen ==> Closed(m, OpsOf(h, n), x, seen)
    ensures InRange(n, p[..k]) && Run(m, OpsOf(h, n), m.init, p[..k]).Some?
    ensures k > 0 ==> (WordsOf(n, p[..k]), Run(m, OpsOf(h, n), m.init, p[..k]).value) in seen
    decreases k
  {
    hide WellFormed, OpsOf, WordsOf, Closed, B.Members, B.Set, B.Empty;
    var ops := OpsOf(h, n);
    if k > 0 {
      PartialSeen(m, h, n, p, k - 1, seen);
      var q, id := p[..k - 1], p[k - 1];
      assert p[..k] == q + [id];
      var x := (WordsOf(n, q), Run(m, ops, m.init, q).value);
      if k == 1 {
        WordsStart(n);
      }
      WordsMembers(n, q);
      ClosedAt(m, ops, x, id, seen);
      RunPrefix(m, ops, m.init, p, k);
      RunAppend(m, ops, m.init, q, id);
      SetPushes(n, q, id);
    }
  }

  lemma ClosedAt<S, I, O>(m: Model<S, I, O>, ops: seq<Op<I, O>>, x: (B.Words, S), id: nat, seen: set<(B.Words, S)>)
    requires Closed(m, ops, x, seen) && Eligible(ops, B.Members(x.0), id)
    ensures StepSeen(m, ops, x, id, seen)
  {
  }

  /** A run that is legal to the end is legal to any point. */
  lemma {:induction false} RunPrefix<S, I, O>(m: Model<S, I, O>, ops: seq<Op<I, O>>, st: S, ids: seq<nat>, k: nat)
    requires InRange(|ops|, ids) && k <= |ids| && Run(m, ops, st, ids).Some?
    ensures InRange(|ops|, ids[..k]) && Run(m, ops, st, ids[..k]).Some?
    decreases k
  {
    if k > 0 {
      var (ok, st') := m.step(st, ops[ids[0]].input, ops[ids[0]].output);
      RunPrefix(m, ops, st', ids[1..], k - 1);
      assert ids[..k][1..] == ids[1..][..k - 1];
    }
  }

  lemma FailedLongest<S, I, O>(m: Model<S, I, O>, h: seq<Event<I, O>>, n: nat, t: Trail<S>, e: nat,
                               seen: set<(B.Words, S)>, left: set<(B.Words, S)>, longest: seq<Option<seq<nat>>>)
    requires TrailOk(m, h, n, t) && InRange(n, t.path) && e < |Left(t)| && h[Left(t)[e]].Return? && t.path == []
    requires Explored(m, h, n, t, e, seen, left, longest) && |longest| == n
    ensures AreLongest(m, h, n, longest)
  {
    hide LevelOk, Live, WellFormed, OpsOf, WordsOf, Closed, Recorded, SeenBefore, B.Members, B.Empty, Partial;
    ReturnClosed(m, h, n, t, e, seen);
    WordsStart(n);
    assert forall x :: x in seen ==> !OnTrail(n, t, x);
    forall p, id: nat | Partial(m, OpsOf(h, n), p) && id in p
      ensures id < n && longest[id].Some? && |longest[id].value| >= |p|
    {
      PartialSeen(m, h, n, p, |p|, seen);
      assert p[..|p|] == p;
      PartialDistinct(m, OpsOf(h, n), p);
      WordsMembers(n, p);
      PathSize(n, p);
      RecordedAt(longest, ToSet(p), id);
    }
  }

  lemma RecordedAt(longest: seq<Option<seq<nat>>>, done: set<nat>, id: nat)
    requires Recorded(longest, done) && id in done
    ensures id < |longest| && longest[id].Some? && |longest[id].value| >= |done|
  {
  }

  /** Nothing is longer than a linearization of everything. */
  lemma WholeLongest<S, I, O>(m: Model<S, I, O>, h: seq<Event<I, O>>, n: nat, whole: seq<nat>)
    requires WellFormed(h, n) && |whole| == n
    ensures AreLongest(m, h, n, seq(n, i => Some(whole)))
  {
    hide WellFormed, OpsOf, Partial;
    forall p, id: nat | Partial(m, OpsOf(h, n), p) && id in p
      ensures id < n && n >= |p|
    {
      PartialDistinct(m, OpsOf(h, n), p);
      PartialIds(m, h, n, p);
      PathSize(n, p);
    }
  }

  lemma PartialIds<S, I, O>(m: Model<S, I, O>, h: seq<Event<I, O>>, n: nat, p: seq<nat>)
    requires WellFormed(h, n) && Partial(m, OpsOf(h, n), p)
    ensures InRange(n, p)
  {
  }
}
