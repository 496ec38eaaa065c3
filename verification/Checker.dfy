/** checkSingle: the search, run on the linked list in place. */
module Checker {
  import opened Common
  import opened Counting
  import opened Linearizability
  import opened EntryList
  import opened Trail
  import opened Porcupine
  import opened Exploration
  import B = Bitset

  // ----- building the list -----

  /** all[k] is the node of h[k], and calls know their returns. */
  ghost predicate MadeFrom<I, O>(h: seq<Event<I, O>>, n: nat, all: seq<Node<I, O>>)
    requires WellFormed(h, n)
  {
    && |all| == |h| && NoRepeat(all)
    && (forall k :: 0 <= k < |h| ==> all[k].event == Some(h[k]))
    && (forall k :: 0 <= k < |h| ==> all[k].mate == (if h[k].Call? then all[PairAt(h, n, h[k].id).1] else null))
  }

  /** The nodes of positions from.. are built, and match knows the returns among them. */
  ghost predicate Built<I, O>(h: seq<Event<I, O>>, n: nat, from: nat, tail: seq<Node<I, O>>,
                              mates: map<nat, Node<I, O>>)
    requires WellFormed(h, n)
  {
    && from <= |h| && |tail| == |h| - from
    && forall k :: from <= k < |h| ==> BuiltAt(h, n, from, tail, mates, k)
  }

  ghost predicate BuiltAt<I, O>(h: seq<Event<I, O>>, n: nat, from: nat, tail: seq<Node<I, O>>,
                                mates: map<nat, Node<I, O>>, k: nat)
    requires WellFormed(h, n) && from <= k < |h| && |tail| == |h| - from
  {
    var x := tail[k - from];
    && x.event == Some(h[k])
    && (h[k].Return? ==> x.mate == null && h[k].id in mates && mates[h[k].id] == x)
    && (h[k].Call? ==> var r := PairAt(h, n, h[k].id).1; r > k && x.mate == tail[r - from])
  }

  lemma BuiltReturn<I, O>(h: seq<Event<I, O>>, n: nat, i: nat, tail: seq<Node<I, O>>, mates: map<nat, Node<I, O>>,
                          x: Node<I, O>)
    requires WellFormed(h, n) && i < |h| && Built(h, n, i + 1, tail, mates)
    requires h[i].Return? && x.event == Some(h[i]) && x.mate == null
    ensures Built(h, n, i, [x] + tail, mates[h[i].id := x])
  {
    hide WellFormed;
    OnlyPair(h, n, i);
    var t, known := [x] + tail, mates[h[i].id := x];
    forall k | i < k < |h|
      ensures BuiltAt(h, n, i, t, known, k)
    {
      assert BuiltAt(h, n, i + 1, tail, mates, k);
      OnlyPair(h, n, k);
    }
    assert BuiltAt(h, n, i, t, known, i);
  }

  lemma BuiltCall<I, O>(h: seq<Event<I, O>>, n: nat, i: nat, tail: seq<Node<I, O>>, mates: map<nat, Node<I, O>>,
                        x: Node<I, O>)
    requires WellFormed(h, n) && i < |h| && Built(h, n, i + 1, tail, mates)
    requires h[i].Call? && h[i].id in mates && x.event == Some(h[i]) && x.mate == mates[h[i].id]
    ensures Built(h, n, i, [x] + tail, mates)
  {
    OnlyPair(h, n, i);
    var r := PairAt(h, n, h[i].id).1;
    hide WellFormed;
    var t := [x] + tail;
    forall k | i < k < |h|
      ensures BuiltAt(h, n, i, t, mates, k)
    {
      assert BuiltAt(h, n, i + 1, tail, mates, k);
    }
    assert BuiltAt(h, n, i + 1, tail, mates, r);
    assert BuiltAt(h, n, i, t, mates, i);
  }

  lemma BuiltMate<I, O>(h: seq<Event<I, O>>, n: nat, i: nat, tail: seq<Node<I, O>>, mates: map<nat, Node<I, O>>)
    requires WellFormed(h, n) && i < |h| && Built(h, n, i + 1, tail, mates) && h[i].Call?
    ensures h[i].id in mates
  {
    OnlyPair(h, n, i);
    assert BuiltAt(h, n, i + 1, tail, mates, PairAt(h, n, h[i].id).1);
  }

  lemma BuiltAll<I, O>(h: seq<Event<I, O>>, n: nat, all: seq<Node<I, O>>, mates: map<nat, Node<I, O>>)
    requires WellFormed(h, n) && Built(h, n, 0, all, mates) && NoRepeat(all)
    ensures MadeFrom(h, n, all)
  {
    forall k | 0 <= k < |h|
      ensures all[k].event == Some(h[k])
      ensures all[k].mate == if h[k].Call? then all[PairAt(h, n, h[k].id).1] else null
    {
      assert BuiltAt(h, n, 0, all, mates, k);
    }
  }

  method MakeLinkedEntries<I, O>(h: seq<Event<I, O>>) returns (root: Node?<I, O>, ghost all: seq<Node<I, O>>)
    requires WellFormed(h, |h| / 2)
    ensures fresh(all) && MadeFrom(h, |h| / 2, all) && Chain(all)
    ensures if h == [] then root == null else root == all[0] && root.prev == null
  {
    hide WellFormed, MadeFrom;
    ghost var n := |h| / 2;
    root, all := null, [];
    var mates: map<nat, Node<I, O>> := map[];
    var i := |h|;
    while i > 0
      invariant 0 <= i <= |h| && fresh(all) && Chain(all)
      invariant Built(h, n, i, all, mates)
      invariant if i == |h| then root == null else root == all[0] && root.prev == null
    {
      i := i - 1;
      var elem := h[i];
      var entry;
      if elem.Return? {
        entry := new Node(Some(elem), null);
        BuiltReturn(h, n, i, all, mates, entry);
        mates := mates[elem.id := entry];
      } else {
        BuiltMate(h, n, i, all, mates);
        entry := new Node(Some(elem), mates[elem.id]);
        BuiltCall(h, n, i, all, mates, entry);
      }
      InsertBefore(entry, root, all, 0);
      assert all[..0] + [entry] + all[0..] == [entry] + all;
      root := entry;
      all := [entry] + all;
    }
    BuiltAll(h, n, all, mates);
  }

  // ----- the list along a trail -----

  ghost function Nodes<I, O>(head: Node<I, O>, all: seq<Node<I, O>>, idx: seq<nat>): (c: seq<Node<I, O>>)
    requires forall i :: 0 <= i < |idx| ==> idx[i] < |all|
    ensures |c| == |idx| + 1 && c[0] == head
    ensures forall i :: 0 <= i < |idx| ==> c[i + 1] == all[idx[i]]
    ensures forall i :: 0 <= i < |c| ==> c[i] == head || c[i] in all
  {
    [head] + seq(|idx|, i requires 0 <= i < |idx| => all[idx[i]])
  }

  lemma NodesRemove<I, O>(head: Node<I, O>, all: seq<Node<I, O>>, idx: seq<nat>, p: nat, q: nat)
    requires forall i :: 0 <= i < |idx| ==> idx[i] < |all|
    requires p < q < |idx|
    ensures forall i :: 0 <= i < |RemoveTwo(idx, p, q)| ==> RemoveTwo(idx, p, q)[i] < |all|
    ensures RemoveTwo(Nodes(head, all, idx), p + 1, q + 1) == Nodes(head, all, RemoveTwo(idx, p, q))
  {
    hide RemoveTwo, Nodes;
    var r, c := RemoveTwo(idx, p, q), Nodes(head, all, idx);
    forall i | 0 <= i < |r|
      ensures r[i] == idx[if i < p then i else if i < q - 1 then i + 1 else i + 2] < |all|
    {
    }
    var x, y := RemoveTwo(c, p + 1, q + 1), Nodes(head, all, r);
    forall i | 0 <= i < |x|
      ensures x[i] == y[i]
    {
      if i > 0 {
        assert y[i] == all[r[i - 1]];
      }
    }
  }

  /** Every list of the trail is within the history, with the places of each level in it. */
  ghost predicate Bounded<S, I, O>(h: seq<Event<I, O>>, t: Trail<S>) {
    && Sized(t)
    && (forall k :: 0 <= k <= |t.path| ==> forall i :: 0 <= i < |t.idxs[k]| ==> t.idxs[k][i] < |h|)
    && (forall k :: 0 <= k < |t.path| ==> t.ps[k] < t.qs[k] < |t.idxs[k]|)
  }

  lemma TrailBounded<S, I, O>(m: Model<S, I, O>, h: seq<Event<I, O>>, n: nat, t: Trail<S>)
    requires TrailOk(m, h, n, t)
    ensures Bounded(h, t)
  {
    forall k | 0 <= k < |t.path|
      ensures t.ps[k] < t.qs[k] < |t.idxs[k]| && forall i :: 0 <= i < |t.idxs[k]| ==> t.idxs[k][i] < |h|
    {
      assert LevelOk(m, h, n, t, k);
    }
  }

  /** The list is the head and what is left of the history; the nodes taken out at
      each level still point to where they were. */
  ghost predicate Linked<S, I, O>(h: seq<Event<I, O>>, t: Trail<S>, head: Node<I, O>, all: seq<Node<I, O>>)
    requires Bounded(h, t) && |all| == |h|
    reads head, all
  {
    && Chain(Nodes(head, all, Left(t)))
    && ParkedBelow(h, t, head, all, |t.path|)
  }

  ghost predicate ParkedBelow<S, I, O>(h: seq<Event<I, O>>, t: Trail<S>, head: Node<I, O>, all: seq<Node<I, O>>, d: nat)
    requires Bounded(h, t) && |all| == |h| && d <= |t.path|
    reads head, all
  {
    forall k :: 0 <= k < d ==> Parked(Nodes(head, all, t.idxs[k]), t.ps[k] + 1, t.qs[k] + 1)
  }

  lemma ParkedPush<S, I, O>(h: seq<Event<I, O>>, t: Trail<S>, u: Trail<S>, head: Node<I, O>, all: seq<Node<I, O>>,
                            d: nat)
    requires Bounded(h, t) && Bounded(h, u) && |all| == |h| && d <= |t.path| && d <= |u.path|
    requires t.idxs[..d] == u.idxs[..d] && t.ps[..d] == u.ps[..d] && t.qs[..d] == u.qs[..d]
    requires ParkedBelow(h, t, head, all, d)
    ensures ParkedBelow(h, u, head, all, d)
  {
    hide Nodes;
    forall k | 0 <= k < d
      ensures Parked(Nodes(head, all, u.idxs[k]), u.ps[k] + 1, u.qs[k] + 1)
    {
      assert t.idxs[k] == t.idxs[..d][k] == u.idxs[k];
      assert t.ps[k] == t.ps[..d][k] == u.ps[k];
      assert t.qs[k] == t.qs[..d][k] == u.qs[k];
    }
  }

  lemma ParkedTop<S, I, O>(h: seq<Event<I, O>>, t: Trail<S>, head: Node<I, O>, all: seq<Node<I, O>>, d: nat)
    requires Bounded(h, t) && |all| == |h| && d < |t.path| && ParkedBelow(h, t, head, all, d)
    requires Parked(Nodes(head, all, t.idxs[d]), t.ps[d] + 1, t.qs[d] + 1)
    ensures ParkedBelow(h, t, head, all, d + 1)
  {
    hide Nodes, Parked;
  }

  lemma NextInList<S, I, O>(h: seq<Event<I, O>>, t: Trail<S>, head: Node<I, O>, all: seq<Node<I, O>>, e: nat)
    requires Bounded(h, t) && |all| == |h| && Linked(h, t, head, all)
    ensures head.next == null <==> Left(t) == []
    ensures Left(t) != [] ==> head.next == all[Left(t)[0]]
    ensures e < |Left(t)| ==> all[Left(t)[e]].next == if e + 1 < |Left(t)| then all[Left(t)[e + 1]] else null
  {
    var c := Nodes(head, all, Left(t));
    assert c[0].next == if 1 < |c| then c[1] else null;
    if e < |Left(t)| {
      assert c[e + 1].next == if e + 2 < |c| then c[e + 2] else null;
    }
  }

  /** The call and return taken at a level are in no list of that level's descendants. */
  lemma ParkedOutside<S, I, O>(m: Model<S, I, O>, h: seq<Event<I, O>>, n: nat, t: Trail<S>, head: Node<I, O>,
                               all: seq<Node<I, O>>, j: nat, k: nat)
    requires TrailOk(m, h, n, t) && Bounded(h, t) && MadeFrom(h, n, all) && head !in all
    requires j < k <= |t.path|
    ensures var c, d := Nodes(head, all, t.idxs[j]), Nodes(head, all, t.idxs[k]);
            c[t.ps[j] + 1] !in d && c[t.qs[j] + 1] !in d
  {
    hide TrailOk, Nodes, WellFormed;
    TakenIds(m, h, n, t, j, k);
    var d := Nodes(head, all, t.idxs[k]);
    var id := t.path[j];
    forall i | 0 <= i < |d|
      ensures d[i] != all[t.idxs[j][t.ps[j]]] && d[i] != all[t.idxs[j][t.qs[j]]]
    {
      if i > 0 {
        assert d[i] == all[t.idxs[k][i - 1]];
        assert h[t.idxs[k][i - 1]].id != id;
      }
    }
  }

  /** What is taken at a level belongs to that level's operation, and nothing left below does. */
  lemma TakenIds<S, I, O>(m: Model<S, I, O>, h: seq<Event<I, O>>, n: nat, t: Trail<S>, j: nat, k: nat)
    requires TrailOk(m, h, n, t) && Bounded(h, t) && j < k <= |t.path|
    ensures h[t.idxs[j][t.ps[j]]].id == h[t.idxs[j][t.qs[j]]].id == t.path[j]
    ensures forall i :: 0 <= i < |t.idxs[k]| ==> h[t.idxs[k][i]].id != t.path[j]
  {
    hide WellFormed, TriedBefore, RemoveTwo, OpsOf;
    assert LevelOk(m, h, n, t, j);
    assert t.path[..k][j] == t.path[j];
    assert t.path[j] in ToSet(t.path[..k]);
    assert t.path[..|t.path|] == t.path;
    assert k < |t.path| ==> LevelOk(m, h, n, t, k);
    assert Live(h, ToSet(t.path[..k]), t.idxs[k]);
  }

  /** Take the call at position e, and its return at q, out of the list. */
  method TakeOut<S, I, O>(entry: Node<I, O>, ghost head: Node<I, O>, ghost all: seq<Node<I, O>>,
                          ghost m: Model<S, I, O>, ghost h: seq<Event<I, O>>, ghost n: nat,
                          ghost t: Trail<S>, ghost u: Trail<S>, ghost e: nat, ghost q: nat)
    requires TrailOk(m, h, n, t) && Bounded(h, t) && Bounded(h, u)
    requires MadeFrom(h, n, all) && |all| == |h| && head !in all
    requires Linked(h, t, head, all)
    requires e < q < |Left(t)| && entry == all[Left(t)[e]] && entry.mate == all[Left(t)[q]]
    requires |u.path| == |t.path| + 1 && u.idxs[..|t.path| + 1] == t.idxs && u.ps == t.ps + [e] && u.qs == t.qs + [q]
    requires Left(u) == RemoveTwo(Left(t), e, q)
    modifies head, all
    ensures Linked(h, u, head, all)
  {
    hide TrailOk, MadeFrom, Nodes, RemoveTwo, Chain;
    ghost var c := Nodes(head, all, Left(t));
    forall j | 0 <= j < |t.path|
      ensures Nodes(head, all, t.idxs[j])[t.ps[j] + 1] !in c && Nodes(head, all, t.idxs[j])[t.qs[j] + 1] !in c
    {
      ParkedOutside(m, h, n, t, head, all, j, |t.path|);
    }
    NodesRemove(head, all, Left(t), e, q);
    assert t.idxs[..|t.path|] == u.idxs[..|t.path|];
    Lift(entry, c, e + 1, q + 1);
    assert ParkedBelow(h, t, head, all, |t.path|);
    ParkedPush(h, t, u, head, all, |t.path|);
    assert u.idxs[|t.path|] == u.idxs[..|t.path| + 1][|t.path|] == Left(t);
    ParkedTop(h, u, head, all, |t.path|);
  }

  /** Put the last call taken, and its return, back. */
  method PutBack<S, I, O>(entry: Node<I, O>, ghost head: Node<I, O>, ghost all: seq<Node<I, O>>,
                          ghost m: Model<S, I, O>, ghost h: seq<Event<I, O>>, ghost n: nat, ghost t: Trail<S>)
    requires TrailOk(m, h, n, t) && Bounded(h, t) && |t.path| > 0
    requires MadeFrom(h, n, all) && |all| == |h| && head !in all
    requires Bounded(h, Pop(t)) && Linked(h, t, head, all)
    requires var k := |t.path| - 1; entry == all[t.idxs[k][t.ps[k]]] && entry.mate == all[t.idxs[k][t.qs[k]]]
    requires var k := |t.path| - 1; t.idxs[k + 1] == RemoveTwo(t.idxs[k], t.ps[k], t.qs[k])
    requires var k := |t.path| - 1; NoRepeat(Nodes(head, all, t.idxs[k]))
    modifies head, all
    ensures Linked(h, Pop(t), head, all)
  {
    hide TrailOk, MadeFrom, Nodes, RemoveTwo, Chain;
    ghost var k := |t.path| - 1;
    ghost var c := Nodes(head, all, t.idxs[k]);
    forall j | 0 <= j < k
      ensures Nodes(head, all, t.idxs[j])[t.ps[j] + 1] !in c && Nodes(head, all, t.idxs[j])[t.qs[j] + 1] !in c
    {
      ParkedOutside(m, h, n, t, head, all, j, k);
    }
    NodesRemove(head, all, t.idxs[k], t.ps[k], t.qs[k]);
    Unlift(entry, c, t.ps[k] + 1, t.qs[k] + 1);
    assert ParkedBelow(h, t, head, all, k);
    ParkedPush(h, t, Pop(t), head, all, k);
  }

  // ----- the search -----

  ghost predicate Searching<S, I, O>(m: Model<S, I, O>, h: seq<Event<I, O>>, n: nat, t: Trail<S>,
                                     seen: set<(B.Words, S)>)
  {
    && TrailOk(m, h, n, t) && Bounded(h, t)
    && InRange(n, t.path)
    && SeenOk(m, h, n, t, seen)
  }

  /** The stack holds the call nodes of the path, each with the state before it. */
  ghost predicate StackOf<S, I, O>(h: seq<Event<I, O>>, t: Trail<S>, all: seq<Node<I, O>>, calls: seq<(Node<I, O>, S)>)
    requires Bounded(h, t) && |all| == |h|
  {
    && |calls| == |t.path|
    && forall k :: 0 <= k < |calls| ==> calls[k] == (all[t.idxs[k][t.ps[k]]], t.states[k])
  }

  /** Where the search stands: at entry, position e of what is left, if anything is. */
  ghost predicate Standing<S, I, O>(m: Model<S, I, O>, h: seq<Event<I, O>>, n: nat, t: Trail<S>, e: nat,
                                    all: seq<Node<I, O>>, entry: Node?<I, O>)
    requires Sized(t) && |all| == |h|
  {
    Left(t) != [] ==> At(m, h, n, t, e) && Left(t)[e] < |h| && entry == all[Left(t)[e]]
  }

  /** What an entry tells about the operation it belongs to. */
  lemma EntryFacts<S, I, O>(m: Model<S, I, O>, h: seq<Event<I, O>>, n: nat, t: Trail<S>, e: nat, all: seq<Node<I, O>>)
    returns (q: nat)
    requires At(m, h, n, t, e) && MadeFrom(h, n, all)
    ensures Sized(t) && e < |Left(t)| && Left(t)[e] < |h| == |all|
    ensures var k := Left(t)[e];
            && all[k].event == Some(h[k]) && h[k].id < n && h[k].id !in t.path
            && (h[k].Return? ==> all[k].mate == null)
            && (h[k].Call? ==>
                  && e < q < |Left(t)| && Left(t)[q] < |h|
                  && Left(t)[q] == PairAt(h, n, h[k].id).1
                  && all[k].mate == all[Left(t)[q]]
                  && h[Left(t)[q]].Return? && all[Left(t)[q]].event == Some(h[Left(t)[q]])
                  && OpsOf(h, n)[h[k].id].input == h[k].input
                  && OpsOf(h, n)[h[k].id].output == h[Left(t)[q]].output)
  {
    var k := Left(t)[e];
    q := 0;
    if h[k].Call? {
      q := ReturnAfter(m, h, n, t, e);
    }
  }

  lemma TakeFacts<S, I, O>(m: Model<S, I, O>, h: seq<Event<I, O>>, n: nat, t: Trail<S>, e: nat, q: nat, st: S,
                           seen: set<(B.Words, S)>)
    returns (u: Trail<S>)
    requires Searching(m, h, n, t, seen) && At(m, h, n, t, e) && h[Left(t)[e]].Call?
    requires h[Left(t)[e]].id !in t.path
    requires e < q < |Left(t)| && Left(t)[q] == PairAt(h, n, h[Left(t)[e]].id).1
    requires var op := OpsOf(h, n)[h[Left(t)[e]].id]; m.step(State(t), op.input, op.output) == (true, st)
    ensures var id := h[Left(t)[e]].id;
            && InRange(n, t.path + [id])
            && Searching(m, h, n, u, seen + {(WordsOf(n, t.path + [id]), st)})
            && u.path == t.path + [id] && State(u) == st && Extends(t, u, e)
            && u.idxs[..|t.path| + 1] == t.idxs && u.states[..|t.path| + 1] == t.states
            && u.ps == t.ps + [e] && u.qs == t.qs + [q]
            && Left(u) == RemoveTwo(Left(t), e, q)
    ensures Left(u) != [] ==> At(m, h, n, u, 0)
  {
    hide At, SeenOk, WellFormed, RemoveTwo, WordsOf, LevelOk, Live;
    var id := h[Left(t)[e]].id;
    u := Push(t, id, st, e, q);
    PushOk(m, h, n, t, e, q, st);
    TrailBounded(m, h, n, u);
    TrailRange(m, h, n, u);
    PushSeen(m, h, n, t, u, seen);
    assert u.path[..|u.path|] == u.path;
    FreshAt(m, h, n, u);
  }

  lemma FreshAt<S, I, O>(m: Model<S, I, O>, h: seq<Event<I, O>>, n: nat, t: Trail<S>)
    requires TrailOk(m, h, n, t)
    ensures Left(t) != [] ==> At(m, h, n, t, 0)
  {
  }

  /** Not taking the call here is right: the model refuses it, or it leads nowhere new. */
  lemma SkipFacts<S, I, O>(m: Model<S, I, O>, h: seq<Event<I, O>>, n: nat, t: Trail<S>, e: nat, seen: set<(B.Words, S)>,
                           ok: bool, st: S)
    requires Searching(m, h, n, t, seen) && At(m, h, n, t, e) && h[Left(t)[e]].Call?
    requires h[Left(t)[e]].id !in t.path
    requires var op := OpsOf(h, n)[h[Left(t)[e]].id]; m.step(State(t), op.input, op.output) == (ok, st)
    requires ok ==> InRange(n, t.path + [h[Left(t)[e]].id]) && (WordsOf(n, t.path + [h[Left(t)[e]].id]), st) in seen
    ensures At(m, h, n, t, e + 1)
  {
    hide LevelOk, Live, WordsOf, Completion, SeenOk;
    if ok {
      SeenAgainIsDead(m, h, n, t, seen, h[Left(t)[e]].id, st);
    }
    SkipOk(m, h, n, t, e);
  }

  /** What is known about the node taken at level k. */
  lemma TakenFacts<S, I, O>(m: Model<S, I, O>, h: seq<Event<I, O>>, n: nat, t: Trail<S>, k: nat, head: Node<I, O>,
                            all: seq<Node<I, O>>)
    requires TrailOk(m, h, n, t) && Bounded(h, t) && k < |t.path|
    requires MadeFrom(h, n, all) && head !in all
    ensures |all| == |h| && t.path[k] < n && t.path[k] !in t.path[..k]
    ensures t.idxs[k + 1] == RemoveTwo(t.idxs[k], t.ps[k], t.qs[k])
    ensures var i, j := t.idxs[k][t.ps[k]], t.idxs[k][t.qs[k]];
            all[i].mate == all[j] && all[i].event == Some(h[i]) && h[i].id == t.path[k]
    ensures NoRepeat(Nodes(head, all, t.idxs[k]))
  {
    hide WellFormed, TriedBefore, RemoveTwo;
    assert LevelOk(m, h, n, t, k);
    LiveNoRepeat(h, n, ToSet(t.path[..k]), t.idxs[k], head, all);
  }

  lemma LiveNoRepeat<I, O>(h: seq<Event<I, O>>, n: nat, done: set<nat>, idx: seq<nat>, head: Node<I, O>,
                           all: seq<Node<I, O>>)
    requires WellFormed(h, n) && Live(h, done, idx) && MadeFrom(h, n, all) && head !in all
    ensures NoRepeat(Nodes(head, all, idx))
  {
    hide WellFormed;
    var c := Nodes(head, all, idx);
    MadeDistinct(h, n, all);
    hide MadeFrom;
    forall i, j | 0 <= i < j < |c|
      ensures c[i] != c[j]
    {
      assert c[j] == all[idx[j - 1]];
      if i > 0 {
        assert c[i] == all[idx[i - 1]] && idx[i - 1] < idx[j - 1];
      }
    }
  }

  lemma MadeDistinct<I, O>(h: seq<Event<I, O>>, n: nat, all: seq<Node<I, O>>)
    requires WellFormed(h, n) && MadeFrom(h, n, all)
    ensures |all| == |h| && NoRepeat(all)
  {
  }

  lemma PopFacts<S, I, O>(m: Model<S, I, O>, h: seq<Event<I, O>>, n: nat, t: Trail<S>, e: nat, seen: set<(B.Words, S)>)
    requires Searching(m, h, n, t, seen) && At(m, h, n, t, e) && h[Left(t)[e]].Return? && |t.path| > 0
    ensures Searching(m, h, n, Pop(t), seen) && At(m, h, n, Pop(t), t.ps[|t.path| - 1] + 1)
  {
    hide LevelOk, Live, SeenOk, Completion, Dead;
    ReturnIsDead(m, h, n, t, e);
    PopOk(m, h, n, t);
    PopSeen(m, h, n, t, seen);
    TrailBounded(m, h, n, Pop(t));
  }

  // ----- partial linearizations -----

  ghost predicate LongestOk<S, I, O>(m: Model<S, I, O>, h: seq<Event<I, O>>, n: nat, longest: seq<Option<seq<nat>>>)
    requires WellFormed(h, n)
  {
    && |longest| == n
    && forall id :: 0 <= id < n && longest[id].Some? ==>
         Partial(m, OpsOf(h, n), longest[id].value) && id in longest[id].value
  }

  /** The path, unless something as long is known. */
  function Longer(known: Option<seq<nat>>, path: seq<nat>): Option<seq<nat>> {
    if known.None? || |path| > |known.value| then Some(path) else known
  }

  /** Record the stack for the operations on it for which nothing as long is known. */
  method RecordPartial<S, I, O>(ghost m: Model<S, I, O>, ghost h: seq<Event<I, O>>, ghost n: nat, path: seq<nat>,
                                longest0: seq<Option<seq<nat>>>) returns (longest: seq<Option<seq<nat>>>)
    requires WellFormed(h, n) && LongestOk(m, h, n, longest0) && Partial(m, OpsOf(h, n), path)
    ensures LongestOk(m, h, n, longest) && |longest0| == n
    ensures forall id: nat :: id < n ==> longest[id] == if id in path then Longer(longest0[id], path) else longest0[id]
  {
    hide WellFormed, OpsOf, LongestOk, Partial;
    PartialRange(m, h, n, path, longest0);
    longest := longest0;
    for i := 0 to |path|
      invariant LongestOk(m, h, n, longest) && |longest| == n == |longest0|
      invariant forall id: nat :: id < n ==>
        longest[id] == if id in path[..i] then Longer(longest0[id], path) else longest0[id]
    {
      var id := path[i];
      assert path[..i + 1] == path[..i] + [id];
      if longest[id].None? || |path| > |longest[id].value| {
        RecordOne(m, h, n, longest, path, id);
        longest := longest[id := Some(path)];
      }
    }
    assert path[..|path|] == path;
  }

  lemma PartialRange<S, I, O>(m: Model<S, I, O>, h: seq<Event<I, O>>, n: nat, path: seq<nat>,
                              longest: seq<Option<seq<nat>>>)
    requires WellFormed(h, n) && LongestOk(m, h, n, longest) && Partial(m, OpsOf(h, n), path)
    ensures InRange(n, path) && |longest| == n
  {
  }

  lemma RecordOne<S, I, O>(m: Model<S, I, O>, h: seq<Event<I, O>>, n: nat, longest: seq<Option<seq<nat>>>,
                           path: seq<nat>, id: nat)
    requires WellFormed(h, n) && LongestOk(m, h, n, longest) && Partial(m, OpsOf(h, n), path) && id in path && id < n
    ensures LongestOk(m, h, n, longest[id := Some(path)])
  {
    hide WellFormed, OpsOf, Partial;
  }

  lemma ClearPops(n: nat, path: seq<nat>)
    requires InRange(n, path) && |path| > 0 && path[|path| - 1] !in path[..|path| - 1]
    ensures path[|path| - 1] / 64 < B.Chunks(n)
    ensures B.Clear(WordsOf(n, path), path[|path| - 1]) == WordsOf(n, path[..|path| - 1])
  {
    hide B.Minor, B.WithBit, B.WithoutBit, B.Bit;
    var k := |path| - 1;
    var id, b := path[k], WordsOf(n, path[..k]);
    assert id / 64 < B.Chunks(n);
    WordsMembers(n, path[..k]);
    assert id !in B.Members(b);
    B.ClearUndoesSet(b[id / 64], B.Minor(id));
  }

  /** A dead root means there is no linearization. */
  lemma DeadRoot<S, I, O>(m: Model<S, I, O>, h: seq<Event<I, O>>, n: nat, t: Trail<S>, e: nat)
    requires At(m, h, n, t, e) && h[Left(t)[e]].Return? && t.path == []
    ensures !Linearizable(m, OpsOf(h, n))
  {
    ReturnIsDead(m, h, n, t, e);
    assert Done(t) == {};
  }

  lemma FullTrail<S, I, O>(m: Model<S, I, O>, h: seq<Event<I, O>>, n: nat, t: Trail<S>)
    requires TrailOk(m, h, n, t) && Left(t) == []
    ensures Completion(m, OpsOf(h, n), {}, m.init, t.path) && Linearizable(m, OpsOf(h, n))
  {
    hide LevelOk, Completion;
    TrailIsPartial(m, h, n, t);
    NothingLeft(m, h, n, t);
    FullPartial(m, OpsOf(h, n), t.path);
  }

  /** The ids on the stack. */
  function IdsOf<S, I, O>(calls: seq<(Node<I, O>, S)>): (r: seq<nat>)
    requires forall k :: 0 <= k < |calls| ==> calls[k].0.event.Some?
    ensures |r| == |calls| && forall k :: 0 <= k < |calls| ==> r[k] == calls[k].0.event.value.id
  {
    seq(|calls|, k requires 0 <= k < |calls| => calls[k].0.event.value.id)
  }

  lemma StackIds<S, I, O>(m: Model<S, I, O>, h: seq<Event<I, O>>, n: nat, t: Trail<S>, head: Node<I, O>,
                          all: seq<Node<I, O>>, calls: seq<(Node<I, O>, S)>)
    requires TrailOk(m, h, n, t) && Bounded(h, t) && MadeFrom(h, n, all) && head !in all && StackOf(h, t, all, calls)
    ensures forall k :: 0 <= k < |calls| ==> calls[k].0.event.Some?
    ensures IdsOf(calls) == t.path
  {
    hide TrailOk, MadeFrom;
    forall k | 0 <= k < |calls|
      ensures calls[k].0.event.Some? && calls[k].0.event.value.id == t.path[k]
    {
      TakenFacts(m, h, n, t, k, head, all);
    }
  }

  lemma StackPush<S, I, O>(h: seq<Event<I, O>>, t: Trail<S>, u: Trail<S>, e: nat, all: seq<Node<I, O>>,
                           calls: seq<(Node<I, O>, S)>)
    requires Bounded(h, t) && Bounded(h, u) && |all| == |h| && StackOf(h, t, all, calls) && e < |Left(t)|
    requires |u.path| == |t.path| + 1 && u.idxs[..|t.path| + 1] == t.idxs && u.states[..|t.path| + 1] == t.states
    requires u.ps == t.ps + [e]
    ensures StackOf(h, u, all, calls + [(all[Left(t)[e]], State(t))])
  {
    var calls' := calls + [(all[Left(t)[e]], State(t))];
    forall k | 0 <= k < |calls'|
      ensures calls'[k] == (all[u.idxs[k][u.ps[k]]], u.states[k])
    {
      assert u.idxs[k] == u.idxs[..|t.path| + 1][k] == t.idxs[k];
      assert u.states[k] == u.states[..|t.path| + 1][k] == t.states[k];
    }
  }

  lemma StackPop<S, I, O>(h: seq<Event<I, O>>, t: Trail<S>, all: seq<Node<I, O>>, calls: seq<(Node<I, O>, S)>)
    requires Bounded(h, t) && |t.path| > 0 && Bounded(h, Pop(t)) && |all| == |h| && StackOf(h, t, all, calls)
    ensures StackOf(h, Pop(t), all, calls[..|calls| - 1])
    ensures calls[|calls| - 1].1 == State(Pop(t))
  {
  }

  lemma StartFacts<S, I, O>(m: Model<S, I, O>, h: seq<Event<I, O>>, n: nat, t: Trail<S>, head: Node<I, O>,
                            all: seq<Node<I, O>>)
    requires WellFormed(h, n) && MadeFrom(h, n, all)
    requires t == Trail([], [m.init], [seq(|h|, i => i)], [], [])
    requires if h == [] then head.next == null else Chain([head] + all)
    ensures Searching(m, h, n, t, {}) && |all| == |h| && Linked(h, t, head, all)
    ensures StackOf(h, t, all, []) && WordsOf(n, t.path) == B.Empty(n)
    ensures Left(t) != [] ==> At(m, h, n, t, 0) && Left(t)[0] == 0
  {
    hide At, WellFormed, Live;
    StartOk(m, h, n);
    TrailBounded(m, h, n, t);
    FreshAt(m, h, n, t);
    var idx := Left(t);
    assert Nodes(head, all, idx) == [head] + all;
  }

  lemma SeenFits<S, I, O>(m: Model<S, I, O>, h: seq<Event<I, O>>, n: nat, t: Trail<S>, seen: set<(B.Words, S)>)
    requires Searching(m, h, n, t, seen)
    ensures |seen| <= |Universe(m, OpsOf(h, n), n)|
  {
    hide Universe, TrailOk;
    SeenWithin(m, h, n, t, seen);
    SubsetSize(seen, Universe(m, OpsOf(h, n), n));
  }

  lemma SeenWithin<S, I, O>(m: Model<S, I, O>, h: seq<Event<I, O>>, n: nat, t: Trail<S>, seen: set<(B.Words, S)>)
    requires Searching(m, h, n, t, seen)
    ensures WellFormed(h, n) && seen <= Universe(m, OpsOf(h, n), n)
  {
  }

  lemma Basics<S, I, O>(m: Model<S, I, O>, h: seq<Event<I, O>>, n: nat, t: Trail<S>, seen: set<(B.Words, S)>)
    requires Searching(m, h, n, t, seen)
    ensures WellFormed(h, n) && TrailOk(m, h, n, t) && Bounded(h, t) && Sized(t) && InRange(n, t.path)
  {
  }

  lemma MadeSize<I, O>(h: seq<Event<I, O>>, all: seq<Node<I, O>>)
    requires WellFormed(h, |h| / 2) && MadeFrom(h, |h| / 2, all)
    ensures |all| == |h| == 2 * (|h| / 2)
  {
  }

  lemma EmptyHolds<S(!new)>()
    ensures Holds<S>(map[], {})
  {
  }

  lemma NoneLongest<S, I, O>(m: Model<S, I, O>, h: seq<Event<I, O>>, n: nat)
    requires WellFormed(h, n)
    ensures LongestOk(m, h, n, seq(n, i => None))
  {
  }

  lemma AllLongest<S, I, O>(m: Model<S, I, O>, h: seq<Event<I, O>>, n: nat, path: seq<nat>,
                            longest: seq<Option<seq<nat>>>)
    requires WellFormed(h, n) && Partial(m, OpsOf(h, n), path) && forall id: nat :: id < n ==> id in path
    requires longest == seq(n, i => Some(path))
    ensures LongestOk(m, h, n, longest)
  {
    hide Partial;
  }

  lemma LongestSize<S, I, O>(m: Model<S, I, O>, h: seq<Event<I, O>>, n: nat, longest: seq<Option<seq<nat>>>)
    requires WellFormed(h, n) && LongestOk(m, h, n, longest)
    ensures |longest| == n
  {
  }

  lemma WholeSize<S, I, O>(m: Model<S, I, O>, h: seq<Event<I, O>>, n: nat, whole: seq<nat>)
    requires WellFormed(h, n) && Partial(m, OpsOf(h, n), whole) && forall id: nat :: id < n ==> id in whole
    ensures |whole| == n
  {
    hide WellFormed, OpsOf, Partial;
    PartialIds(m, h, n, whole);
    PartialDistinct(m, OpsOf(h, n), whole);
    PathSize(n, whole);
    IdsSize(n);
    SubsetSize(Ids(n), ToSet(whole));
  }

  /** After the stack was recorded, its operations are known to be in something as long. */
  lemma StackKnown<S, I, O>(m: Model<S, I, O>, h: seq<Event<I, O>>, n: nat, t: Trail<S>,
                            longest0: seq<Option<seq<nat>>>, longest: seq<Option<seq<nat>>>)
    requires TrailOk(m, h, n, t) && |longest0| == |longest| == n
    requires forall id: nat :: id < n ==>
               longest[id] == if id in t.path then Longer(longest0[id], t.path) else longest0[id]
    ensures Lengthens(longest0, longest) && Recorded(longest, ToSet(t.path))
  {
    hide TrailOk;
    TrailRange(m, h, n, t);
    PathSize(n, t.path);
  }

  lemma StackSize<S, I, O>(h: seq<Event<I, O>>, t: Trail<S>, all: seq<Node<I, O>>, calls: seq<(Node<I, O>, S)>)
    requires Bounded(h, t) && |all| == |h| && StackOf(h, t, all, calls)
    ensures |calls| == |t.path|
    ensures forall k :: 0 <= k < |calls| ==> calls[k] == (all[t.idxs[k][t.ps[k]]], t.states[k])
  {
  }

  /** Everything that holds at the head of the loop. */
  ghost predicate Good<S(!new), I, O>(m: Model<S, I, O>, h: seq<Event<I, O>>, n: nat, all: seq<Node<I, O>>,
                                      head: Node<I, O>, t: Trail<S>, e: nat, seen: set<(B.Words, S)>,
                                      entry: Node?<I, O>, state: S,
                                      linearized: array<bv64>, calls: seq<(Node<I, O>, S)>, cache: Cache<S>)
    reads head, all, linearized
  {
    && WellFormed(h, n) && MadeFrom(h, n, all) && |all| == |h| && head !in all
    && Searching(m, h, n, t, seen) && Sized(t) && Bounded(h, t) && InRange(n, t.path)
    && Linked(h, t, head, all)
    && state == State(t) && linearized[..] == WordsOf(n, t.path)
    && StackOf(h, t, all, calls) && Standing(m, h, n, t, e, all, entry)
    && Holds(cache, seen)
  }

  /** What happens at a call: it is taken, with a pair not seen before, or it is left because
      the model refuses it or the pair was seen before. */
  ghost predicate Advances<S, I, O>(m: Model<S, I, O>, h: seq<Event<I, O>>, n: nat, t0: Trail<S>, e0: nat,
                                    seen0: set<(B.Words, S)>, t: Trail<S>, e: nat, seen: set<(B.Words, S)>)
    requires WellFormed(h, n) && Sized(t0) && Sized(t) && InRange(n, t0.path) && InRange(n, t.path)
    requires e0 < |Left(t0)| && Left(t0)[e0] < |h|
  {
    if t == t0 then
      && e == e0 + 1 && seen == seen0
      && StepSeen(m, OpsOf(h, n), PairOf(n, t0, |t0.path|), h[Left(t0)[e0]].id, seen0)
    else
      Extends(t0, t, e0) && e == 0 && seen == seen0 + {PairOf(n, t, |t.path|)}
  }

  lemma Stayed<S, I, O>(m: Model<S, I, O>, h: seq<Event<I, O>>, n: nat, t: Trail<S>, e: nat, seen: set<(B.Words, S)>,
                        ok: bool, st: S)
    requires WellFormed(h, n) && Sized(t) && InRange(n, t.path) && e < |Left(t)| && Left(t)[e] < |h|
    requires var id := h[Left(t)[e]].id;
             && id < n && var op := OpsOf(h, n)[id];
             && m.step(State(t), op.input, op.output) == (ok, st)
             && (ok ==> InRange(n, t.path + [id]) && (WordsOf(n, t.path + [id]), st) in seen)
    ensures Advances(m, h, n, t, e, seen, t, e + 1, seen)
  {
    hide WellFormed, OpsOf, B.Set;
    assert t.path[..|t.path|] == t.path;
    SetPushes(n, t.path, h[Left(t)[e]].id);
  }

  lemma WentOn<S, I, O>(m: Model<S, I, O>, h: seq<Event<I, O>>, n: nat, t: Trail<S>, e: nat, seen: set<(B.Words, S)>,
                        u: Trail<S>)
    requires WellFormed(h, n) && Sized(t) && InRange(n, t.path) && e < |Left(t)| && Left(t)[e] < |h|
    requires Extends(t, u, e) && InRange(n, u.path)
    ensures Advances(m, h, n, t, e, seen, u, 0, seen + {(WordsOf(n, u.path), State(u))})
  {
    hide WellFormed, OpsOf, WordsOf, StepSeen;
    assert u.path[..|u.path|] == u.path;
  }

  lemma AdvancesExplored<S, I, O>(m: Model<S, I, O>, h: seq<Event<I, O>>, n: nat, t0: Trail<S>, e0: nat,
                                  seen0: set<(B.Words, S)>, t: Trail<S>, e: nat, seen: set<(B.Words, S)>,
                                  left: set<(B.Words, S)>, longest: seq<Option<seq<nat>>>)
    requires WellFormed(h, n) && Sized(t0) && Sized(t) && InRange(n, t0.path) && InRange(n, t.path)
    requires e0 < |Left(t0)| && Left(t0)[e0] < |h| && Advances(m, h, n, t0, e0, seen0, t, e, seen)
    requires Explored(m, h, n, t0, e0, seen0, left, longest)
    ensures Explored(m, h, n, t, e, seen, left, longest)
  {
    hide WellFormed, Explored, StepSeen, Extends, PairOf;
    if t == t0 {
      SkipExplored(m, h, n, t, e0, seen, left, longest);
    } else {
      PushExplored(m, h, n, t0, t, e0, seen0, left, longest);
    }
  }

  lemma GoodParts<S(!new), I, O>(m: Model<S, I, O>, h: seq<Event<I, O>>, n: nat, all: seq<Node<I, O>>,
                                 head: Node<I, O>, t: Trail<S>, e: nat, seen: set<(B.Words, S)>,
                                 entry: Node?<I, O>, state: S,
                                 linearized: array<bv64>, calls: seq<(Node<I, O>, S)>, cache: Cache<S>)
    requires Good(m, h, n, all, head, t, e, seen, entry, state, linearized, calls, cache)
    ensures WellFormed(h, n) && MadeFrom(h, n, all) && |all| == |h| && head !in all
    ensures Searching(m, h, n, t, seen) && TrailOk(m, h, n, t) && Sized(t) && Bounded(h, t) && InRange(n, t.path)
    ensures Linked(h, t, head, all) && StackOf(h, t, all, calls) && |calls| == |t.path|
    ensures Left(t) != [] ==> At(m, h, n, t, e) && e < |Left(t)| && Left(t)[e] < |h| && entry == all[Left(t)[e]]
  {
    hide WellFormed, TrailOk, MadeFrom, SeenOk, StackOf, Linked, Holds, WordsOf;
    StackSize(h, t, all, calls);
  }

  /** The entry is a call: take it, or leave it and go on. */
  method OnCall<S(==, !new), I, O>(m: Model<S, I, O>, ghost h: seq<Event<I, O>>, ghost n: nat,
                                   ghost all: seq<Node<I, O>>, head: Node<I, O>, ghost t0: Trail<S>, ghost e0: nat,
                                   ghost seen0: set<(B.Words, S)>, entry0: Node<I, O>, state0: S,
                                   linearized: array<bv64>, calls0: seq<(Node<I, O>, S)>, cache0: Cache<S>)
    returns (entry: Node?<I, O>, state: S, calls: seq<(Node<I, O>, S)>, cache: Cache<S>,
             ghost t: Trail<S>, ghost e: nat, ghost seen: set<(B.Words, S)>)
    requires Good(m, h, n, all, head, t0, e0, seen0, entry0, state0, linearized, calls0, cache0)
    requires Left(t0) != [] && entry0.mate != null
    modifies head, all, linearized
    ensures Good(m, h, n, all, head, t, e, seen, entry, state, linearized, calls, cache)
    ensures |seen| > |seen0| || (seen == seen0 && t == t0 && e == e0 + 1 && e < |Left(t)|)
    ensures e0 < |Left(t0)| && Left(t0)[e0] < |h| && Advances(m, h, n, t0, e0, seen0, t, e, seen)
  {
    hide Advances, Extends, WellFormed, TrailOk, Linked, SeenOk, WordsOf, Universe, Holds, B.Set, B.Clear, B.Hash,
         B.Empty, At, MadeFrom, Chain, StackOf, Nodes, Completion, OpsOf, Bounded, RemoveTwo, Searching;
    entry, state, calls, cache := entry0, state0, calls0, cache0;
    t, e, seen := t0, e0, seen0;
    ghost var q := EntryFacts(m, h, n, t, e, all);
    Basics(m, h, n, t, seen);
    NextInList(h, t, head, all, e);
    var matching := entry.mate;
    var id := entry.event.value.id;
    var (legal, newState) := m.step(state, entry.event.value.input, matching.event.value.output);
    if legal {
      SetPushes(n, t.path, id);
      var newLinearized := B.Clone(linearized);
      B.SetBitAt(newLinearized, id);
      var newEntry := CacheEntry(newLinearized[..], newState);
      var hash := B.HashOf(newLinearized);
      var found := CacheContains(cache, hash, newEntry, seen);
      if !found {
        ghost var u := TakeFacts(m, h, n, t, e, q, newState, seen);
        seen := seen + {(newEntry.linearized, newState)};
        Basics(m, h, n, u, seen);
        AddHolds(cache, newEntry, seen0);
        StackPush(h, t, u, e, all, calls);
        cache := Add(cache, hash, newEntry);
        calls := calls + [(entry, state)];
        state := newState;
        B.SetBitAt(linearized, id);
        WentOn(m, h, n, t, e, seen0, u);
        TakeOut(entry, head, all, m, h, n, t, u, e, q);
        NextInList(h, u, head, all, 0);
        entry := head.next;
        t, e := u, 0;
        return;
      }
    }
    SkipFacts(m, h, n, t, e, seen, legal, newState);
    Stayed(m, h, n, t, e, seen, legal, newState);
    entry := entry.next;
    e := e + 1;
  }

  /** The entry is a return and the stack is not empty: undo the last call taken. */
  method OnReturn<S(==, !new), I, O>(ghost m: Model<S, I, O>, ghost h: seq<Event<I, O>>, ghost n: nat,
                                     ghost all: seq<Node<I, O>>, ghost head: Node<I, O>, ghost t0: Trail<S>,
                                     ghost e0: nat, ghost seen: set<(B.Words, S)>,
                                     ghost entry0: Node<I, O>, ghost state0: S, linearized: array<bv64>,
                                     calls0: seq<(Node<I, O>, S)>, ghost cache: Cache<S>)
    returns (entry: Node?<I, O>, state: S, calls: seq<(Node<I, O>, S)>, ghost t: Trail<S>, ghost e: nat)
    requires Good(m, h, n, all, head, t0, e0, seen, entry0, state0, linearized, calls0, cache)
    requires Left(t0) != [] && entry0.mate == null && |calls0| > 0
    modifies head, all, linearized
    ensures Good(m, h, n, all, head, t, e, seen, entry, state, linearized, calls, cache)
    ensures |t0.path| > 0 && t == Pop(t0) && e == t0.ps[|t0.path| - 1] + 1
  {
    hide WellFormed, TrailOk, Linked, SeenOk, WordsOf, Universe, Holds, B.Set, B.Clear, B.Hash, B.Empty,
         At, MadeFrom, Chain, StackOf, Nodes, Completion, OpsOf, Bounded, RemoveTwo, Searching;
    ghost var q := EntryFacts(m, h, n, t0, e0, all);
    Basics(m, h, n, t0, seen);
    StackSize(h, t0, all, calls0);
    ghost var k := |t0.path| - 1;
    t := Pop(t0);
    PopFacts(m, h, n, t0, e0, seen);
    Basics(m, h, n, t, seen);
    TakenFacts(m, h, n, t0, k, head, all);
    StackPop(h, t0, all, calls0);
    ClearPops(n, t0.path);
    var callsTop := calls0[|calls0| - 1];
    entry, state := callsTop.0, callsTop.1;
    B.ClearBitAt(linearized, entry.event.value.id);
    calls := calls0[..|calls0| - 1];
    PutBack(entry, head, all, m, h, n, t0);
    NextInList(h, t, head, all, t0.ps[k]);
    entry := entry.next;
    e := t0.ps[k] + 1;
  }

  lemma StartGood<S(!new), I, O>(m: Model<S, I, O>, h: seq<Event<I, O>>, n: nat, all: seq<Node<I, O>>,
                                 head: Node<I, O>, t: Trail<S>, entry: Node?<I, O>, linearized: array<bv64>)
    requires WellFormed(h, n) && MadeFrom(h, n, all) && |all| == |h| && head !in all
    requires Searching(m, h, n, t, {}) && Linked(h, t, head, all)
    requires StackOf(h, t, all, []) && t == Trail([], [m.init], [seq(|h|, i => i)], [], [])
    requires linearized[..] == WordsOf(n, []) && (Left(t) != [] ==> At(m, h, n, t, 0) && entry == all[Left(t)[0]])
    ensures Good<S, I, O>(m, h, n, all, head, t, 0, {}, entry, m.init, linearized, [], map[])
  {
    hide WellFormed, MadeFrom, SeenOk, StackOf, Linked, WordsOf;
    EmptyHolds<S>();
  }

  /** Before the last call taken is undone, the stack is recorded. */
  method Record<S(==, !new), I, O>(ghost m: Model<S, I, O>, ghost h: seq<Event<I, O>>, ghost n: nat,
                                   ghost all: seq<Node<I, O>>, ghost head: Node<I, O>, ghost t: Trail<S>,
                                   ghost e: nat, ghost seen: set<(B.Words, S)>, ghost given0: set<(B.Words, S)>,
                                   calls: seq<(Node<I, O>, S)>, longest0: seq<Option<seq<nat>>>)
    returns (longest: seq<Option<seq<nat>>>, ghost given: set<(B.Words, S)>)
    requires WellFormed(h, n) && TrailOk(m, h, n, t) && Sized(t) && Bounded(h, t) && InRange(n, t.path)
    requires MadeFrom(h, n, all) && head !in all && |all| == |h| && StackOf(h, t, all, calls) && |t.path| > 0
    requires e < |Left(t)| && Left(t)[e] < |h| && h[Left(t)[e]].Return?
    requires LongestOk(m, h, n, longest0) && Explored(m, h, n, t, e, seen, given0, longest0)
    ensures LongestOk(m, h, n, longest) && InRange(n, Pop(t).path)
    ensures Explored(m, h, n, Pop(t), t.ps[|t.path| - 1] + 1, seen, given, longest)
  {
    hide Explored, Lengthens, Recorded, TrailOk, MadeFrom, StackOf, OpsOf, Bounded, Partial, LongestOk, Searching,
         Longer, WordsOf;
    StackIds(m, h, n, t, head, all, calls);
    TrailIsPartial(m, h, n, t);
    longest := RecordPartial(m, h, n, IdsOf(calls), longest0);
    LongestSize(m, h, n, longest);
    StackKnown(m, h, n, t, longest0, longest);
    PopExplored(m, h, n, t, e, seen, given0, longest0, longest);
    given := given0 + {PairOf(n, t, |t.path|)};
  }

  method CheckSingle<S(==, !new), I, O>(m: Model<S, I, O>, h: seq<Event<I, O>>, computePartial: bool)
    returns (ok: bool, longest: seq<Option<seq<nat>>>)
    requires WellFormed(h, |h| / 2)
    ensures ok <==> Linearizable(m, OpsOf(h, |h| / 2))
    ensures LongestOk(m, h, |h| / 2, longest)
    ensures ok ==> forall id: nat :: id < |h| / 2 ==>
              longest[id].Some? && Completion(m, OpsOf(h, |h| / 2), {}, m.init, longest[id].value)
    ensures ok || computePartial ==> AreLongest(m, h, |h| / 2, longest)
  {
    hide Good, Explored, AreLongest, Advances, WellFormed, TrailOk, Linked, SeenOk, WordsOf, Universe, Holds,
         B.Empty, At, MadeFrom, Chain, StackOf, Nodes, Completion, OpsOf, Linearizable, Bounded, Partial, LongestOk,
         Searching;
    var root, all := MakeLinkedEntries(h);
    MadeSize(h, all);
    var len := Length(root, all);
    var n := len / 2;
    var linearized := B.NewBitset(n);
    var cache: Cache<S> := map[];
    var calls: seq<(Node<I, O>, S)> := [];
    longest := seq(n, i => None);
    var state := m.init;
    var headEntry := new Node<I, O>(None, null);
    InsertBefore(headEntry, root, all, 0);
    assert all[..0] + [headEntry] + all[0..] == [headEntry] + all;
    var entry := root;
    ghost var t := Trail([], [m.init], [seq(|h|, i => i)], [], []);
    ghost var e: nat := 0;
    ghost var seen: set<(B.Words, S)>, given: set<(B.Words, S)> := {}, {};
    StartFacts(m, h, n, t, headEntry, all);
    Basics(m, h, n, t, seen);
    EmptyHolds<S>();
    NoneLongest(m, h, n);
    StartExplored(m, h, n, t, longest);
    StartGood(m, h, n, all, headEntry, t, entry, linearized);

    while headEntry.next != null
      invariant Good(m, h, n, all, headEntry, t, e, seen, entry, state, linearized, calls, cache)
      invariant WellFormed(h, n) && Sized(t) && InRange(n, t.path)
      invariant LongestOk(m, h, n, longest)
      invariant computePartial ==> Explored(m, h, n, t, e, seen, given, longest)
      decreases |Universe(m, OpsOf(h, n), n)| - |seen|, |t.path|, |Left(t)| - e
    {
      GoodParts(m, h, n, all, headEntry, t, e, seen, entry, state, linearized, calls, cache);
      NextInList(h, t, headEntry, all, e);
      SeenFits(m, h, n, t, seen);
      ghost var q := EntryFacts(m, h, n, t, e, all);
      if entry.mate != null {
        ghost var t0, e0, seen0 := t, e, seen;
        entry, state, calls, cache, t, e, seen :=
          OnCall(m, h, n, all, headEntry, t, e, seen, entry, state, linearized, calls, cache);
        GoodParts(m, h, n, all, headEntry, t, e, seen, entry, state, linearized, calls, cache);
        if computePartial {
          AdvancesExplored(m, h, n, t0, e0, seen0, t, e, seen, given, longest);
        }
        SeenFits(m, h, n, t, seen);
      } else {
        if |calls| == 0 {
          DeadRoot(m, h, n, t, e);
          if computePartial {
            LongestSize(m, h, n, longest);
            FailedLongest(m, h, n, t, e, seen, given, longest);
          }
          return false, longest;
        }
        if computePartial {
          longest, given := Record(m, h, n, all, headEntry, t, e, seen, given, calls, longest);
        }
        entry, state, calls, t, e :=
          OnReturn(m, h, n, all, headEntry, t, e, seen, entry, state, linearized, calls, cache);
        GoodParts(m, h, n, all, headEntry, t, e, seen, entry, state, linearized, calls, cache);
      }
    }
    GoodParts(m, h, n, all, headEntry, t, e, seen, entry, state, linearized, calls, cache);
    NextInList(h, t, headEntry, all, e);
    FullTrail(m, h, n, t);
    StackIds(m, h, n, t, headEntry, all, calls);
    TrailIsPartial(m, h, n, t);
    NothingLeft(m, h, n, t);
    var whole := IdsOf(calls);
    longest := seq(n, i => Some(whole));
    AllLongest(m, h, n, whole, longest);
    WholeSize(m, h, n, whole);
    WholeLongest(m, h, n, whole);
    return true, longest;
  }
}
