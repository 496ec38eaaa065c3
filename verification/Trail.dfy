/** The state of the search for a linearization, without the linked list: the
    operations taken so far and, at each level, what has been tried there. */
module Trail {
  import opened Common
  import opened Linearizability
  import opened EntryList

  // ----- histories -----

  ghost predicate IsPair<I, O>(h: seq<Event<I, O>>, id: nat, c: nat, r: nat) {
    && c < r < |h|
    && h[c].Call? && h[c].id == id
    && h[r].Return? && h[r].id == id
  }

  ghost predicate HasPair<I, O>(h: seq<Event<I, O>>, id: nat) {
    exists c: nat, r: nat :: IsPair(h, id, c, r)
  }

  /** Each of the operations 0..n-1 is called once and returns once, later. */
  ghost predicate WellFormed<I, O>(h: seq<Event<I, O>>, n: nat) {
    && |h| == 2 * n
    && (forall k :: 0 <= k < |h| ==> h[k].id < n)
    && (forall id: nat :: id < n ==> HasPair(h, id))
    && (forall j, k :: 0 <= j < k < |h| && h[j].id == h[k].id ==> h[j].Call? && h[k].Return?)
  }

  ghost function PairAt<I, O>(h: seq<Event<I, O>>, n: nat, id: nat): (p: (nat, nat))
    requires WellFormed(h, n) && id < n
    ensures IsPair(h, id, p.0, p.1)
  {
    assert HasPair(h, id);
    var c: nat, r: nat :| IsPair(h, id, c, r);
    (c, r)
  }

  lemma OnlyPair<I, O>(h: seq<Event<I, O>>, n: nat, k: nat)
    requires WellFormed(h, n) && k < |h|
    ensures k == if h[k].Call? then PairAt(h, n, h[k].id).0 else PairAt(h, n, h[k].id).1
  {
    var (c, r) := PairAt(h, n, h[k].id);
    assert h[c].id == h[k].id == h[r].id;
  }

  /** The operations of a history; a position in it serves as the time. */
  ghost function OpsOf<I, O>(h: seq<Event<I, O>>, n: nat): (ops: seq<Op<I, O>>)
    requires WellFormed(h, n)
    ensures |ops| == n
  {
    seq(n, id requires 0 <= id < n =>
      var (c, r) := PairAt(h, n, id);
      Op(h[c].input, c, h[r].output, r))
  }

  // ----- what is left of a history -----

  /** idx lists, in order, the positions of h whose operations are not in done. */
  ghost predicate Live<I, O>(h: seq<Event<I, O>>, done: set<nat>, idx: seq<nat>) {
    && Ascending(idx)
    && (forall i :: 0 <= i < |idx| ==> idx[i] < |h| && h[idx[i]].id !in done)
    && (forall k: nat :: k < |h| && h[k].id !in done ==> k in idx)
  }

  lemma RemoveAscending(idx: seq<nat>, p: nat, q: nat)
    requires Ascending(idx) && p < q < |idx|
    ensures Ascending(RemoveTwo(idx, p, q))
    ensures forall k :: 0 <= k < |idx| && k != p && k != q ==> idx[k] != idx[p] && idx[k] != idx[q]
  {
    hide RemoveTwo;
  }

  lemma RemovePairLive<I, O>(h: seq<Event<I, O>>, n: nat, done: set<nat>, idx: seq<nat>, id: nat, p: nat, q: nat)
    requires WellFormed(h, n) && id < n && Live(h, done, idx)
    requires p < q < |idx| && idx[p] == PairAt(h, n, id).0 && idx[q] == PairAt(h, n, id).1
    ensures Live(h, done + {id}, RemoveTwo(idx, p, q))
  {
    hide WellFormed, RemoveTwo, Ascending;
    var r := RemoveTwo(idx, p, q);
    RemoveAscending(idx, p, q);
    forall i | 0 <= i < |r|
      ensures r[i] < |h| && h[r[i]].id !in done + {id}
    {
      var k := if i < p then i else if i < q - 1 then i + 1 else i + 2;
      assert r[i] == idx[k] && k != p && k != q;
      assert idx[k] != idx[p] && idx[k] != idx[q];
      OnlyPair(h, n, r[i]);
    }
    forall k: nat | k < |h| && h[k].id !in done + {id}
      ensures k in r
    {
      assert k in idx;
      var i :| 0 <= i < |idx| && idx[i] == k;
      assert i != p && i != q;
      var j := if i < p then i else if i < q then i - 1 else i - 2;
      assert r[j] == k;
    }
  }

  // ----- the search -----

  /** Everything listed before position e is a call that has been tried. */
  ghost predicate TriedBefore<S, I, O>(m: Model<S, I, O>, h: seq<Event<I, O>>, n: nat, done: set<nat>, st: S,
                                       idx: seq<nat>, e: nat)
    requires WellFormed(h, n) && e <= |idx|
    requires forall i :: 0 <= i < |idx| ==> idx[i] < |h|
  {
    forall i :: 0 <= i < e ==> h[idx[i]].Call? && Tried(m, OpsOf(h, n), done, st, h[idx[i]].id)
  }

  /** path: operations taken; states[k]: state before taking path[k]; idxs[k]: what
      was left then; ps[k], qs[k]: where path[k]'s call and return were in it. */
  datatype Trail<S> = Trail(path: seq<nat>, states: seq<S>, idxs: seq<seq<nat>>, ps: seq<nat>, qs: seq<nat>)

  ghost predicate Sized<S>(t: Trail<S>) {
    |t.states| == |t.idxs| == |t.path| + 1 && |t.ps| == |t.qs| == |t.path|
  }

  ghost predicate LevelOk<S, I, O>(m: Model<S, I, O>, h: seq<Event<I, O>>, n: nat, t: Trail<S>, k: nat)
    requires WellFormed(h, n) && Sized(t) && k < |t.path|
  {
    var id, idx, p, q, done := t.path[k], t.idxs[k], t.ps[k], t.qs[k], ToSet(t.path[..k]);
    && id < n && id !in done
    && p < q < |idx| && Live(h, done, idx)
    && idx[p] == PairAt(h, n, id).0 && idx[q] == PairAt(h, n, id).1
    && t.idxs[k + 1] == RemoveTwo(idx, p, q)
    && m.step(t.states[k], OpsOf(h, n)[id].input, OpsOf(h, n)[id].output) == (true, t.states[k + 1])
    && TriedBefore(m, h, n, done, t.states[k], idx, p)
  }

  ghost predicate TrailOk<S, I, O>(m: Model<S, I, O>, h: seq<Event<I, O>>, n: nat, t: Trail<S>) {
    && WellFormed(h, n) && Sized(t)
    && t.states[0] == m.init
    && (forall k :: 0 <= k < |t.path| ==> LevelOk(m, h, n, t, k))
    && Live(h, ToSet(t.path), t.idxs[|t.path|])
  }

  ghost function Done<S>(t: Trail<S>): set<nat> {
    ToSet(t.path)
  }

  ghost function State<S>(t: Trail<S>): S
    requires Sized(t)
  {
    t.states[|t.path|]
  }

  ghost function Left<S>(t: Trail<S>): seq<nat>
    requires Sized(t)
  {
    t.idxs[|t.path|]
  }

  /** The search stands at position e of what is left. */
  ghost predicate At<S, I, O>(m: Model<S, I, O>, h: seq<Event<I, O>>, n: nat, t: Trail<S>, e: nat) {
    && TrailOk(m, h, n, t)
    && e < |Left(t)|
    && TriedBefore(m, h, n, Done(t), State(t), Left(t), e)
  }

  lemma StartOk<S, I, O>(m: Model<S, I, O>, h: seq<Event<I, O>>, n: nat)
    requires WellFormed(h, n)
    ensures TrailOk(m, h, n, Trail([], [m.init], [seq(|h|, i => i)], [], []))
  {
    var idx := seq(|h|, i => i);
    forall k: nat | k < |h|
      ensures k in idx
    {
      assert idx[k] == k;
    }
    assert ToSet([]) == {};
    assert Live(h, {}, idx);
  }

  /** With only calls in front of it, a call is eligible. */
  lemma CallEligible<S, I, O>(m: Model<S, I, O>, h: seq<Event<I, O>>, n: nat, t: Trail<S>, e: nat)
    requires At(m, h, n, t, e) && h[Left(t)[e]].Call?
    ensures Eligible(OpsOf(h, n), Done(t), h[Left(t)[e]].id)
  {
    var idx, ops := Left(t), OpsOf(h, n);
    var id := h[idx[e]].id;
    OnlyPair(h, n, idx[e]);
    forall j: nat | j < n && j !in Done(t) && j != id
      ensures !Precedes(ops[j], ops[id])
    {
      var r := PairAt(h, n, j).1;
      assert h[r].id == j;
      var i :| 0 <= i < |idx| && idx[i] == r;
    }
  }

  /** When the search stands at a return, the call of everything eligible comes before it. */
  lemma EligibleBefore<S, I, O>(m: Model<S, I, O>, h: seq<Event<I, O>>, n: nat, t: Trail<S>, e: nat, id: nat)
    returns (i: nat)
    requires TrailOk(m, h, n, t) && e < |Left(t)| && h[Left(t)[e]].Return? && Eligible(OpsOf(h, n), Done(t), id)
    ensures i < e && h[Left(t)[i]].id == id
  {
    var idx, ops := Left(t), OpsOf(h, n);
    OnlyPair(h, n, idx[e]);
    var c := PairAt(h, n, id).0;
    assert h[c].id == id;
    i :| 0 <= i < |idx| && idx[i] == c;
    assert i > e ==> Precedes(ops[h[idx[e]].id], ops[id]);
  }

  /** At a return, everything eligible has been tried: this way is dead. */
  lemma ReturnIsDead<S, I, O>(m: Model<S, I, O>, h: seq<Event<I, O>>, n: nat, t: Trail<S>, e: nat)
    requires At(m, h, n, t, e) && h[Left(t)[e]].Return?
    ensures Dead(m, OpsOf(h, n), Done(t), State(t))
  {
    var ops := OpsOf(h, n);
    forall id: nat | Eligible(ops, Done(t), id)
      ensures Tried(m, ops, Done(t), State(t), id)
    {
      var i := EligibleBefore(m, h, n, t, e, id);
    }
    AllTriedIsDead(m, ops, Done(t), State(t), h[Left(t)[e]].id);
  }

  lemma SkipOk<S, I, O>(m: Model<S, I, O>, h: seq<Event<I, O>>, n: nat, t: Trail<S>, e: nat)
    requires At(m, h, n, t, e) && h[Left(t)[e]].Call?
    requires Tried(m, OpsOf(h, n), Done(t), State(t), h[Left(t)[e]].id)
    ensures At(m, h, n, t, e + 1)
  {
    var q := ReturnAfter(m, h, n, t, e);
  }

  /** The return of a call that is left is left too, further on. */
  lemma ReturnAfter<S, I, O>(m: Model<S, I, O>, h: seq<Event<I, O>>, n: nat, t: Trail<S>, e: nat) returns (q: nat)
    requires TrailOk(m, h, n, t) && e < |Left(t)| && h[Left(t)[e]].Call?
    ensures e < q < |Left(t)| && Left(t)[q] == PairAt(h, n, h[Left(t)[e]].id).1
    ensures Left(t)[e] == PairAt(h, n, h[Left(t)[e]].id).0
  {
    var idx := Left(t);
    var (c, r) := PairAt(h, n, h[idx[e]].id);
    OnlyPair(h, n, idx[e]);
    assert r in idx;
    q :| 0 <= q < |idx| && idx[q] == r;
  }

  ghost function Push<S>(t: Trail<S>, id: nat, st: S, p: nat, q: nat): Trail<S>
    requires Sized(t) && p < q < |Left(t)|
  {
    Trail(t.path + [id], t.states + [st], t.idxs + [RemoveTwo(Left(t), p, q)], t.ps + [p], t.qs + [q])
  }

  ghost function Pop<S>(t: Trail<S>): Trail<S>
    requires Sized(t) && |t.path| > 0
  {
    var k := |t.path| - 1;
    Trail(t.path[..k], t.states[..k + 1], t.idxs[..k + 1], t.ps[..k], t.qs[..k])
  }

  /** A level only depends on the part of the trail up to it. */
  lemma LevelSame<S, I, O>(m: Model<S, I, O>, h: seq<Event<I, O>>, n: nat, t: Trail<S>, u: Trail<S>, k: nat)
    requires WellFormed(h, n) && Sized(t) && Sized(u) && k < |t.path| && k < |u.path|
    requires t.path[..k + 1] == u.path[..k + 1] && t.states[..k + 2] == u.states[..k + 2]
    requires t.idxs[..k + 2] == u.idxs[..k + 2] && t.ps[..k + 1] == u.ps[..k + 1] && t.qs[..k + 1] == u.qs[..k + 1]
    requires LevelOk(m, h, n, t, k)
    ensures LevelOk(m, h, n, u, k)
  {
    assert t.path[..k] == t.path[..k + 1][..k] == u.path[..k];
    assert t.path[k] == t.path[..k + 1][k] && t.ps[k] == t.ps[..k + 1][k] && t.qs[k] == t.qs[..k + 1][k];
    assert t.states[k] == t.states[..k + 2][k] && t.states[k + 1] == t.states[..k + 2][k + 1];
    assert t.idxs[k] == t.idxs[..k + 2][k] && t.idxs[k + 1] == t.idxs[..k + 2][k + 1];
  }

  lemma PushOk<S, I, O>(m: Model<S, I, O>, h: seq<Event<I, O>>, n: nat, t: Trail<S>, e: nat, q: nat, st: S)
    requires At(m, h, n, t, e) && h[Left(t)[e]].Call?
    requires e < q < |Left(t)| && Left(t)[q] == PairAt(h, n, h[Left(t)[e]].id).1
    requires var op := OpsOf(h, n)[h[Left(t)[e]].id]; m.step(State(t), op.input, op.output) == (true, st)
    ensures TrailOk(m, h, n, Push(t, h[Left(t)[e]].id, st, e, q))
  {
    var id := h[Left(t)[e]].id;
    var u := Push(t, id, st, e, q);
    OnlyPair(h, n, Left(t)[e]);
    assert ToSet(u.path) == Done(t) + {id};
    RemovePairLive(h, n, Done(t), Left(t), id, e, q);
    forall k | 0 <= k < |u.path|
      ensures LevelOk(m, h, n, u, k)
    {
      if k < |t.path| {
        LevelSame(m, h, n, t, u, k);
      } else {
        assert u.path[..k] == t.path;
      }
    }
  }

  lemma PopTrail<S, I, O>(m: Model<S, I, O>, h: seq<Event<I, O>>, n: nat, t: Trail<S>)
    requires TrailOk(m, h, n, t) && |t.path| > 0
    ensures TrailOk(m, h, n, Pop(t))
  {
    hide OpsOf, WellFormed, Live;
    var u := Pop(t);
    forall j | 0 <= j < |u.path|
      ensures LevelOk(m, h, n, u, j)
    {
      LevelSame(m, h, n, t, u, j);
    }
    assert LevelOk(m, h, n, t, |t.path| - 1);
  }

  lemma PopOk<S, I, O>(m: Model<S, I, O>, h: seq<Event<I, O>>, n: nat, t: Trail<S>)
    requires TrailOk(m, h, n, t) && |t.path| > 0
    requires Dead(m, OpsOf(h, n), Done(t), State(t))
    ensures var u, p := Pop(t), t.ps[|t.path| - 1];
            t.path[|t.path| - 1] < n && At(m, h, n, u, p + 1) && Left(u)[p] == PairAt(h, n, t.path[|t.path| - 1]).0
  {
    hide OpsOf, WellFormed, RemoveTwo, Completion;
    var k := |t.path| - 1;
    var u, p, id := Pop(t), t.ps[k], t.path[k];
    PopTrail(m, h, n, t);
    assert LevelOk(m, h, n, t, k);
    assert Done(u) + {id} == Done(t) by {
      assert t.path == t.path[..k] + [id];
    }
    assert Tried(m, OpsOf(h, n), Done(u), State(u), id);
    OnlyPair(h, n, Left(u)[p]);
  }

  // ----- what a trail amounts to -----

  lemma TrailRange<S, I, O>(m: Model<S, I, O>, h: seq<Event<I, O>>, n: nat, t: Trail<S>)
    requires TrailOk(m, h, n, t)
    ensures InRange(n, t.path) && Distinct(t.path)
  {
    forall k | 0 <= k < |t.path|
      ensures t.path[k] < n && t.path[k] !in t.path[..k]
    {
      assert LevelOk(m, h, n, t, k);
    }
    forall i, j | 0 <= i < j < |t.path|
      ensures t.path[i] != t.path[j]
    {
      assert t.path[i] in t.path[..j];
    }
  }

  lemma {:induction false} TrailRuns<S, I, O>(m: Model<S, I, O>, h: seq<Event<I, O>>, n: nat, t: Trail<S>, k: nat)
    requires TrailOk(m, h, n, t) && k <= |t.path|
    ensures InRange(n, t.path[..k]) && Run(m, OpsOf(h, n), m.init, t.path[..k]) == Some(t.states[k])
  {
    TrailRange(m, h, n, t);
    if k > 0 {
      TrailRuns(m, h, n, t, k - 1);
      assert LevelOk(m, h, n, t, k - 1);
      RunAppend(m, OpsOf(h, n), m.init, t.path[..k - 1], t.path[k - 1]);
      assert t.path[..k] == t.path[..k - 1] + [t.path[k - 1]];
    }
  }

  lemma TrailEligible<S, I, O>(m: Model<S, I, O>, h: seq<Event<I, O>>, n: nat, t: Trail<S>, k: nat)
    requires TrailOk(m, h, n, t) && k < |t.path|
    ensures Eligible(OpsOf(h, n), ToSet(t.path[..k]), t.path[k])
  {
    assert LevelOk(m, h, n, t, k);
    var u := Trail(t.path[..k], t.states[..k + 1], t.idxs[..k + 1], t.ps[..k], t.qs[..k]);
    forall j | 0 <= j < |u.path|
      ensures LevelOk(m, h, n, u, j)
    {
      assert LevelOk(m, h, n, t, j);
      LevelSame(m, h, n, t, u, j);
    }
    CallEligible(m, h, n, u, t.ps[k]);
  }

  /** The operations on the stack are a legal partial linearization. */
  lemma TrailIsPartial<S, I, O>(m: Model<S, I, O>, h: seq<Event<I, O>>, n: nat, t: Trail<S>)
    requires TrailOk(m, h, n, t)
    ensures Partial(m, OpsOf(h, n), t.path)
  {
    TrailRange(m, h, n, t);
    TrailRuns(m, h, n, t, |t.path|);
    assert t.path[..|t.path|] == t.path;
    forall k | 0 <= k < |t.path|
      ensures Eligible(OpsOf(h, n), ToSet(t.path[..k]), t.path[k])
    {
      TrailEligible(m, h, n, t, k);
    }
  }

  lemma NothingLeft<S, I, O>(m: Model<S, I, O>, h: seq<Event<I, O>>, n: nat, t: Trail<S>)
    requires TrailOk(m, h, n, t) && Left(t) == []
    ensures forall id: nat :: id < n ==> id in t.path
  {
    forall id: nat | id < n
      ensures id in t.path
    {
      var c := PairAt(h, n, id).0;
      assert h[c].id == id;
    }
  }
}
