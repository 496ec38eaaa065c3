/** Rebalancing as the controller does it: in place, in passes over the sorted groups. */
module Rebalancing {
  import opened Common
  import opened Counting
  import opened Counts
  import opened Assignment

  lemma Inserted(r: seq<int>, k: nat, x: int)
    requires Ascending(r) && k <= |r| && x !in r
    requires (forall j :: 0 <= j < k ==> r[j] < x) && (k < |r| ==> x <= r[k])
    ensures Ascending(r[..k] + [x] + r[k..])
    ensures forall y :: y in r[..k] + [x] + r[k..] <==> y in r || y == x
  {
    var q := r[..k] + [x] + r[k..];
    forall i, j | 0 <= i < j < |q|
      ensures q[i] < q[j]
    {
      if k < |r| && i == k {
        assert r[k] in r && (j == k + 1 || r[k] < r[j - 1]);
      }
    }
    forall y
      ensures y in q <==> y in r || y == x
    {
      assert y in q <==> y in r[..k] || y == x || y in r[k..];
      assert y in r <==> y in r[..k] || y in r[k..] by {
        assert r == r[..k] + r[k..];
      }
    }
  }

  /** Sorting distinct numbers. */
  method SortInts(a: seq<int>) returns (r: seq<int>)
    requires Distinct(a)
    ensures Ascending(r) && |r| == |a| && forall x :: x in r <==> x in a
  {
    r := [];
    for i := 0 to |a|
      invariant Ascending(r) && |r| == i && forall x :: x in r <==> x in a[..i]
    {
      var x, k := a[i], 0;
      assert a[..i + 1] == a[..i] + [x];
      assert x !in r by {
        assert x !in a[..i];
      }
      while k < |r| && r[k] < x
        invariant k <= |r| && forall j :: 0 <= j < k ==> r[j] < x
      {
        k := k + 1;
      }
      Inserted(r, k, x);
      r := r[..k] + [x] + r[k..];
    }
    assert a[..|a|] == a;
  }

  /** The group ids, from a walk over the map in any order. */
  method SortedGids(groups: map<int, seq<string>>) returns (gids: seq<int>)
    ensures Lists(gids, groups.Keys)
  {
    var left := groups.Keys;
    gids := [];
    while exists g :: g in left
      invariant left <= groups.Keys && Distinct(gids)
      invariant forall g :: g in gids <==> g in groups.Keys && g !in left
      decreases left
    {
      var g :| g in left;
      gids := gids + [g];
      left := left - {g};
    }
    gids := SortInts(gids);
    assert forall i :: 0 <= i < |gids| ==> gids[i] in gids;
  }

  /** The load each group is to have. */
  method TargetLoads(gids: seq<int>, ghost groups: set<int>) returns (target: map<int, nat>)
    requires groups != {} && Lists(gids, groups)
    ensures target.Keys == groups && forall g :: g in groups ==> target[g] == Target(NSHARDS, groups, g)
  {
    ListsSize(gids, groups);
    var n := |gids|;
    var base, extra := NSHARDS / n, NSHARDS % n;
    target := map[];
    for i := 0 to n
      invariant forall g :: g in target <==> g in gids[..i]
      invariant forall g :: g in target ==> target[g] == Target(NSHARDS, groups, g)
    {
      var gid := gids[i];
      Position(gids, groups, i);
      assert gids[..i + 1] == gids[..i] + [gid];
      target := target[gid := if i < extra then base + 1 else base];
    }
    assert gids[..n] == gids;
    forall g
      ensures g in target.Keys <==> g in groups
    {
      if g in groups {
        InList(groups, gids, g);
      }
    }
    SameSet(target.Keys, groups);
  }

  function At(count: map<int, nat>, g: int): nat {
    if g in count then count[g] else 0
  }

  /** Who holds each shard when every group has count shards of those it had: the ones
      with the lowest numbers. */
  ghost function Held(groups: set<int>, was: seq<int>, count: map<int, nat>): (held: seq<Option<int>>)
    ensures |held| == |was|
  {
    seq(|was|, s requires 0 <= s < |was| =>
      if was[s] != 0 && was[s] in groups && Rank(was, s) < At(count, was[s]) then Some(was[s]) else None)
  }

  ghost predicate Free(unassigned: seq<int>, held: seq<Option<int>>) {
    && Distinct(unassigned)
    && forall s :: s in unassigned <==> 0 <= s < |held| && held[s].None?
  }

  /** The array says who holds what; a shard without a holder is nobody's. */
  ghost predicate Written(groups: set<int>, a: seq<int>, held: seq<Option<int>>) {
    && |a| == |held|
    && forall s :: 0 <= s < |a| ==> if held[s].Some? then a[s] == held[s].value else a[s] == 0 || a[s] !in groups
  }

  /** Count the current loads; shards of group 0 or of unknown groups need a home. */
  method CountLoads(shards: array<int>, gids: seq<int>, ghost groups: set<int>)
    returns (count: map<int, nat>, unassigned: seq<int>)
    requires Lists(gids, groups)
    ensures forall g :: At(count, g) == if g != 0 && g in groups then Count(shards[..], g) else 0
    ensures Free(unassigned, Held(groups, shards[..], count))
    ensures Written(groups, shards[..], Held(groups, shards[..], count))
  {
    ghost var was := shards[..];
    count, unassigned := map[], [];
    for s := 0 to shards.Length
      invariant forall g :: At(count, g) == if g != 0 && g in groups then Count(was[..s], g) else 0
      invariant Distinct(unassigned)
      invariant forall t :: t in unassigned <==> 0 <= t < s && (was[t] == 0 || was[t] !in groups)
    {
      var g := shards[s];
      assert was[..s + 1] == was[..s] + [g];
      forall x
        ensures Count(was[..s + 1], x) == Count(was[..s], x) + if g == x then 1 else 0
      {
        CountPush(was[..s], g, x);
      }
      assert g in gids <==> g in groups by {
        if g in groups {
          InList(groups, gids, g);
        }
      }
      if g != 0 && g in gids {
        count := count[g := At(count, g) + 1];
      } else {
        unassigned := unassigned + [s];
      }
    }
    assert was[..shards.Length] == was;
    forall s | 0 <= s < |was|
      ensures Held(groups, was, count)[s].None? <==> was[s] == 0 || was[s] !in groups
    {
      RankBelow(was, s);
    }
  }

  lemma HeldOne(groups: set<int>, was: seq<int>, count: map<int, nat>, g: int, s: nat)
    requires g in groups && g != 0 && s < |was| && was[s] == g && g in count && count[g] == Rank(was, s) + 1
    ensures Held(groups, was, count[g := count[g] - 1]) == Held(groups, was, count)[s := None]
  {
    var less := count[g := count[g] - 1];
    forall t | 0 <= t < |was|
      ensures Held(groups, was, less)[t] == Held(groups, was, count)[s := None][t]
    {
      if was[t] == g && t < s {
        RankOrder(was, t, s);
      } else if was[t] == g && s < t {
        RankOrder(was, s, t);
      }
    }
  }

  /** Take one shard away from a group: the highest-numbered one. */
  method ReleaseOne(shards: array<int>, gid: int, count: map<int, nat>, ghost groups: set<int>, ghost was: seq<int>)
    returns (s: int)
    requires gid in groups && gid != 0 && gid in count && 0 < count[gid] <= Count(was, gid)
    requires Written(groups, shards[..], Held(groups, was, count))
    modifies shards
    ensures 0 <= s < |was| && Held(groups, was, count)[s].Some?
    ensures Held(groups, was, count[gid := count[gid] - 1]) == Held(groups, was, count)[s := None]
    ensures Written(groups, shards[..], Held(groups, was, count[gid := count[gid] - 1]))
  {
    ghost var held := Held(groups, was, count);
    ghost var top := Nth(was, gid, count[gid] - 1);
    assert held[top] == Some(gid) && shards[..][top] == gid;
    s := shards.Length - 1;
    while s >= 0 && shards[s] != gid
      invariant top <= s < shards.Length
    {
      s := s - 1;
    }
    assert shards[..][s] == gid;
    assert held[s] == Some(gid);
    if top < s {
      RankOrder(was, top, s);
      assert false;
    }
    HeldOne(groups, was, count, gid, s);
    ghost var a := shards[..];
    shards[s] := 0;
    assert shards[..] == a[s := 0];
  }

  lemma FreeMore(unassigned: seq<int>, held: seq<Option<int>>, s: int)
    requires Free(unassigned, held) && 0 <= s < |held| && held[s].Some?
    ensures Free(unassigned + [s], held[s := None])
  {
  }

  /** What is left of a load when it is cut down to its target. */
  ghost function Cut(was: seq<int>, groups: set<int>, done: seq<int>, g: int): nat
    requires groups != {}
  {
    if g == 0 || g !in groups then 0
    else if g in done && Target(|was|, groups, g) < Count(was, g) then Target(|was|, groups, g)
    else Count(was, g)
  }

  /** Take shards away from over-loaded groups. */
  method Release(shards: array<int>, gids: seq<int>, target: map<int, nat>, count0: map<int, nat>,
                 unassigned0: seq<int>, ghost groups: set<int>, ghost was: seq<int>)
    returns (count: map<int, nat>, unassigned: seq<int>)
    requires groups != {} && Lists(gids, groups)
    requires target.Keys == groups && forall g :: g in groups ==> target[g] == Target(|was|, groups, g)
    requires forall g :: At(count0, g) == Cut(was, groups, [], g)
    requires Free(unassigned0, Held(groups, was, count0)) && Written(groups, shards[..], Held(groups, was, count0))
    modifies shards
    ensures forall g :: At(count, g) == Cut(was, groups, gids, g)
    ensures Free(unassigned, Held(groups, was, count)) && Written(groups, shards[..], Held(groups, was, count))
  {
    hide Held, Written, Free, Target, Distinct;
    count, unassigned := count0, unassigned0;
    for i := 0 to |gids|
      invariant forall g :: At(count, g) == Cut(was, groups, gids[..i], g)
      invariant Free(unassigned, Held(groups, was, count)) && Written(groups, shards[..], Held(groups, was, count))
    {
      var gid := gids[i];
      assert gids[..i + 1] == gids[..i] + [gid];
      assert gid !in gids[..i];
      while At(count, gid) > target[gid]
        invariant forall g :: g != gid ==> At(count, g) == Cut(was, groups, gids[..i], g)
        invariant At(count, gid) <= Cut(was, groups, [], gid)
        invariant At(count, gid) == Cut(was, groups, [], gid) || At(count, gid) >= target[gid]
        invariant Free(unassigned, Held(groups, was, count)) && Written(groups, shards[..], Held(groups, was, count))
        decreases At(count, gid)
      {
        var s := ReleaseOne(shards, gid, count, groups, was);
        FreeMore(unassigned, Held(groups, was, count), s);
        unassigned := unassigned + [s];
        count := count[gid := count[gid] - 1];
      }
    }
    assert gids[..|gids|] == gids;
  }

  /** The counts are the loads. */
  lemma HeldCount(groups: set<int>, was: seq<int>, count: map<int, nat>, g: int)
    requires g in groups && At(count, g) <= if g == 0 then 0 else Count(was, g)
    ensures Count(Held(groups, was, count), Some(g)) == At(count, g)
  {
    var held := Held(groups, was, count);
    if g == 0 {
      CountNone(held, Some(g));
    } else {
      Capped(was, g, At(count, g), held, Some(g), true);
    }
  }

  ghost function Somes(gids: seq<int>): seq<Option<int>> {
    seq(|gids|, i requires 0 <= i < |gids| => Some(gids[i]))
  }

  ghost predicate Within(groups: set<int>, held: seq<Option<int>>) {
    forall s :: 0 <= s < |held| && held[s].Some? ==> held[s].value in groups
  }

  lemma SomeListed(groups: set<int>, gids: seq<int>, g: int) returns (i: nat)
    requires Lists(gids, groups) && g in groups
    ensures i < |gids| && gids[i] == g && Somes(gids)[i] == Some(g)
  {
    InList(groups, gids, g);
    i :| 0 <= i < |gids| && gids[i] == g;
  }

  /** Counting the holders group by group reaches every shard exactly if all are held. */
  lemma LoadsTotal(groups: set<int>, gids: seq<int>, held: seq<Option<int>>)
    requires Lists(gids, groups) && Within(groups, held)
    ensures Sum(Tally(held, Somes(gids))) == |held| <==> None !in held
  {
    ListsSize(gids, groups);
    TallySum(held, Somes(gids));
    if None !in held {
      forall s | 0 <= s < |held|
        ensures held[s] in Somes(gids)
      {
        assert held[s] in held;
        var i := SomeListed(groups, gids, held[s].value);
      }
    }
  }

  /** The targets add up to the number of shards, so either reason to stop handing out
      means that every shard has a home and every group its load. */
  lemma AllHome(groups: set<int>, gids: seq<int>, held: seq<Option<int>>)
    requires groups != {} && Lists(gids, groups) && Within(groups, held)
    requires forall g :: g in groups ==> Count(held, Some(g)) <= Target(|held|, groups, g)
    requires None !in held || forall g :: g in groups ==> Count(held, Some(g)) == Target(|held|, groups, g)
    ensures None !in held && forall g :: g in groups ==> Count(held, Some(g)) == Target(|held|, groups, g)
  {
    hide Sum, Count, Target, Within;
    LoadsTotal(groups, gids, held);
    TargetsSum(|held|, groups, gids);
    var f, t := Tally(held, Somes(gids)), Targets(|held|, groups, gids);
    assert forall i :: 0 <= i < |gids| ==>
             f[i] == Count(held, Some(gids[i])) && t[i] == Target(|held|, groups, gids[i]);
    SumMono(f, t);
    assert (forall g :: g in groups ==> Count(held, Some(g)) == Target(|held|, groups, g)) ==> f == t;
    if None !in held {
      forall g | g in groups
        ensures Count(held, Some(g)) == Target(|held|, groups, g)
      {
        var i := SomeListed(groups, gids, g);
        assert f[i] == t[i];
      }
    }
  }

  /** The unassigned shards up to ui have been given out, in increasing order, to groups up to last. */
  ghost predicate Given(unassigned: seq<int>, ui: nat, from: seq<Option<int>>, held: seq<Option<int>>, last: int)
    requires Free(unassigned, from) && ui <= |unassigned| && |held| == |from|
  {
    && (forall s :: 0 <= s < |held| && from[s].Some? ==> held[s] == from[s])
    && (forall j :: 0 <= j < |unassigned| ==> 0 <= unassigned[j] < |held|)
    && (forall j :: 0 <= j < ui ==> held[unassigned[j]].Some? && held[unassigned[j]].value <= last)
    && (forall j :: ui <= j < |unassigned| ==> held[unassigned[j]].None?)
    && (forall i, j :: 0 <= i < j < ui ==> held[unassigned[i]].value <= held[unassigned[j]].value)
  }

  lemma GiveOne(unassigned: seq<int>, ui: nat, from: seq<Option<int>>, held: seq<Option<int>>, gid: int)
    requires Free(unassigned, from) && Ascending(unassigned) && ui < |unassigned| && |held| == |from|
    requires Given(unassigned, ui, from, held, gid)
    ensures 0 <= unassigned[ui] < |held| && held[unassigned[ui]].None?
    ensures Given(unassigned, ui + 1, from, held[unassigned[ui] := Some(gid)], gid)
  {
    assert unassigned[ui] in unassigned;
  }

  lemma AllGiven(unassigned: seq<int>, from: seq<Option<int>>, held: seq<Option<int>>, last: int)
    requires Free(unassigned, from) && |held| == |from| && Given(unassigned, |unassigned|, from, held, last)
    ensures None !in held
  {
    forall s | 0 <= s < |held|
      ensures held[s].Some?
    {
      if from[s].None? {
        assert s in unassigned;
      }
    }
  }

  ghost predicate Shown(a: seq<int>, held: seq<Option<int>>) {
    |a| == |held| && forall s :: 0 <= s < |a| && held[s].Some? ==> a[s] == held[s].value
  }

  lemma GivenNone(unassigned: seq<int>, from: seq<Option<int>>, last: int)
    requires Free(unassigned, from)
    ensures Given(unassigned, 0, from, from, last)
  {
    assert forall j :: 0 <= j < |unassigned| ==> unassigned[j] in unassigned;
  }

  lemma GivenBelow(unassigned: seq<int>, ui: nat, from: seq<Option<int>>, held: seq<Option<int>>, last: int, next: int)
    requires Free(unassigned, from) && ui <= |unassigned| && |held| == |from| && last <= next
    requires Given(unassigned, ui, from, held, last)
    ensures Given(unassigned, ui, from, held, next)
  {
  }

  lemma ShowOne(groups: set<int>, a: seq<int>, held: seq<Option<int>>, s: nat, gid: int)
    requires Shown(a, held) && Within(groups, held) && s < |a| && gid in groups
    ensures Shown(a[s := gid], held[s := Some(gid)]) && Within(groups, held[s := Some(gid)])
  {
  }

  /** Hand unassigned shards to one group until it has what it is to have. */
  method Fill(shards: array<int>, gid: int, want: nat, unassigned: seq<int>, from: nat, have: nat,
              ghost groups: set<int>, ghost start: seq<Option<int>>, ghost before: seq<Option<int>>)
    returns (ui: nat, count: nat, ghost held: seq<Option<int>>)
    requires gid in groups && Free(unassigned, start) && Ascending(unassigned) && from <= |unassigned|
    requires |before| == |start|
    requires Given(unassigned, from, start, before, gid) && Shown(shards[..], before) && Within(groups, before)
    requires have == Count(before, Some(gid)) <= want
    modifies shards
    ensures ui <= |unassigned| && |held| == |start|
    ensures Given(unassigned, ui, start, held, gid) && Shown(shards[..], held) && Within(groups, held)
    ensures forall g :: g != gid ==> Count(held, Some(g)) == Count(before, Some(g))
    ensures count == Count(held, Some(gid)) <= want && (count == want || ui == |unassigned|)
    ensures from == |unassigned| ==> ui == |unassigned|
  {
    hide Given, Free, Shown, Within, Count, Ascending;
    ui, count, held := from, have, before;
    while count < want && ui < |unassigned|
      invariant from <= ui <= |unassigned| && |held| == |start|
      invariant Given(unassigned, ui, start, held, gid) && Shown(shards[..], held) && Within(groups, held)
      invariant forall g :: g != gid ==> Count(held, Some(g)) == Count(before, Some(g))
      invariant count == Count(held, Some(gid)) <= want
    {
      GiveOne(unassigned, ui, start, held, gid);
      var s := unassigned[ui];
      ghost var a := shards[..];
      ShownSize(a, held);
      ShowOne(groups, a, held, s, gid);
      forall g
        ensures Count(held[s := Some(gid)], Some(g)) == Count(held, Some(g)) + if g == gid then 1 else 0
      {
        CountUpdate(held, s, Some(gid), Some(g));
      }
      shards[s] := gid;
      assert shards[..] == a[s := gid];
      held := held[s := Some(gid)];
      ui, count := ui + 1, count + 1;
    }
  }

  lemma ShownSize(a: seq<int>, held: seq<Option<int>>)
    requires Shown(a, held)
    ensures |a| == |held|
  {
  }

  lemma Finished(groups: set<int>, gids: seq<int>, unassigned: seq<int>, ui: nat, from: seq<Option<int>>,
                 held: seq<Option<int>>, last: int)
    requires groups != {} && Lists(gids, groups) && Free(unassigned, from) && ui <= |unassigned| && |held| == |from|
    requires Given(unassigned, ui, from, held, last) && Within(groups, held)
    requires forall g :: g in groups ==> Count(held, Some(g)) <= Target(|held|, groups, g)
    requires ui == |unassigned| || forall i :: 0 <= i < |gids| ==>
               Count(held, Some(gids[i])) == Target(|held|, groups, gids[i])
    ensures ui == |unassigned| && None !in held
    ensures forall g :: g in groups ==> Count(held, Some(g)) == Target(|held|, groups, g)
  {
    hide Count, Target;
    if ui == |unassigned| {
      AllGiven(unassigned, from, held, last);
    } else {
      forall g | g in groups
        ensures Count(held, Some(g)) == Target(|held|, groups, g)
      {
        var i := SomeListed(groups, gids, g);
      }
    }
    assert ui < |unassigned| ==> held[unassigned[ui]] in held;
    AllHome(groups, gids, held);
  }

  /** Hand unassigned shards to under-loaded groups, in sorted order. */
  method HandOut(shards: array<int>, gids: seq<int>, target: map<int, nat>, count0: map<int, nat>, unassigned: seq<int>,
                 ghost groups: set<int>, ghost from: seq<Option<int>>) returns (ghost held: seq<Option<int>>)
    requires groups != {} && Lists(gids, groups) && |gids| > 0
    requires target.Keys == groups && forall g :: g in groups ==> target[g] == Target(|from|, groups, g)
    requires forall g :: g in groups ==> At(count0, g) == Count(from, Some(g)) <= target[g]
    requires Free(unassigned, from) && Ascending(unassigned) && Shown(shards[..], from) && Within(groups, from)
    modifies shards
    ensures |held| == |from| && None !in held && Within(groups, held) && Shown(shards[..], held)
    ensures forall g :: g in groups ==> Count(held, Some(g)) == Target(|held|, groups, g)
    ensures Given(unassigned, |unassigned|, from, held, gids[|gids| - 1])
  {
    hide Given, Free, Shown, Within, Count, Ascending, Target;
    held := from;
    var count: map<int, nat> := count0;
    var ui: nat := 0;
    GivenNone(unassigned, from, gids[0]);
    for k := 0 to |gids|
      invariant ui <= |unassigned| && |held| == |from| && Shown(shards[..], held) && Within(groups, held)
      invariant Given(unassigned, ui, from, held, gids[if k == 0 then 0 else k - 1])
      invariant forall g :: g in groups ==> At(count, g) == Count(held, Some(g)) <= target[g]
      invariant ui == |unassigned| || forall i :: 0 <= i < k ==> At(count, gids[i]) == target[gids[i]]
    {
      var gid := gids[k];
      GivenBelow(unassigned, ui, from, held, gids[if k == 0 then 0 else k - 1], gid);
      var have;
      ui, have, held := Fill(shards, gid, target[gid], unassigned, ui, At(count, gid), groups, from, held);
      count := count[gid := have];
    }
    Finished(groups, gids, unassigned, ui, from, held, gids[|gids| - 1]);
  }

  lemma StaysHeld(groups: set<int>, gids: seq<int>, was: seq<int>, count: map<int, nat>, s: nat)
    requires groups != {} && Lists(gids, groups) && s < |was|
    requires forall g :: At(count, g) == Cut(was, groups, gids, g)
    ensures Held(groups, was, count)[s] == if Stays(groups, was, s) then Some(was[s]) else None
  {
    RankBelow(was, s);
    if was[s] in groups {
      InList(groups, gids, was[s]);
    }
  }

  lemma CutLoads(groups: set<int>, gids: seq<int>, was: seq<int>, count: map<int, nat>, g: int)
    requires groups != {} && Lists(gids, groups) && g in groups
    requires forall g :: At(count, g) == Cut(was, groups, gids, g)
    ensures At(count, g) == Count(Held(groups, was, count), Some(g)) <= Target(|was|, groups, g)
  {
    InList(groups, gids, g);
    HeldCount(groups, was, count, g);
  }

  /** All shards are home, the held ones where they were and the others in order. */
  lemma Home(groups: set<int>, gids: seq<int>, was: seq<int>, count: map<int, nat>, unassigned: seq<int>,
             held: seq<Option<int>>, a: seq<int>, last: int)
    requires groups != {} && Lists(gids, groups)
    requires forall g :: At(count, g) == Cut(was, groups, gids, g)
    requires var from := Held(groups, was, count);
             Free(unassigned, from) && Ascending(unassigned) && |held| == |was|
             && Given(unassigned, |unassigned|, from, held, last)
    requires None !in held && Within(groups, held) && Shown(a, held)
    requires forall g :: g in groups ==> Count(held, Some(g)) == Target(|held|, groups, g)
    ensures Rebalanced(groups, was, a)
  {
    hide Count, Target, Stays, Held, Cut;
    var from := Held(groups, was, count);
    forall s | 0 <= s < |was|
      ensures held[s] == Some(a[s]) && from[s] == if Stays(groups, was, s) then Some(was[s]) else None
    {
      assert held[s] in held;
      StaysHeld(groups, gids, was, count, s);
    }
    forall g | g in groups
      ensures Count(a, g) == Target(|a|, groups, g)
    {
      CountSame(a, g, held, Some(g));
    }
    forall s, t | 0 <= s < t < |a| && !Stays(groups, was, s) && !Stays(groups, was, t)
      ensures a[s] <= a[t]
    {
      assert s in unassigned && t in unassigned;
      var i :| 0 <= i < |unassigned| && unassigned[i] == s;
      var j :| 0 <= j < |unassigned| && unassigned[j] == t;
    }
  }

  /** Assign the shards to the groups, moving few of them. */
  method Rebalance(shards: array<int>, groups: map<int, seq<string>>)
    requires shards.Length == NSHARDS
    modifies shards
    ensures groups.Keys == {} ==> forall s :: 0 <= s < NSHARDS ==> shards[s] == 0
    ensures groups.Keys != {} ==> Rebalanced(groups.Keys, old(shards[..]), shards[..])
  {
    hide Held, Cut, Written, Free, Count, Target, Rebalanced, Within, Shown, Given, Ascending;
    ghost var was, all := shards[..], groups.Keys;
    var gids := SortedGids(groups);
    ListsSize(gids, all);
    if |gids| == 0 {
      for s := 0 to NSHARDS
        invariant forall t :: 0 <= t < s ==> shards[t] == 0
      {
        shards[s] := 0;
      }
      return;
    }
    var target := TargetLoads(gids, all);
    var count, unassigned := CountLoads(shards, gids, all);
    Uncut(all, was, count);
    count, unassigned := Release(shards, gids, target, count, unassigned, all, was);
    ghost var from := Held(all, was, count);
    var sorted := SortFree(unassigned, from);
    forall g | g in all
      ensures At(count, g) == Count(from, Some(g)) <= target[g]
    {
      CutLoads(all, gids, was, count, g);
    }
    WrittenShown(all, was, count, shards[..]);
    ghost var held := HandOut(shards, gids, target, count, sorted, all, from);
    Home(all, gids, was, count, sorted, held, shards[..], gids[|gids| - 1]);
  }

  lemma Uncut(groups: set<int>, was: seq<int>, count: map<int, nat>)
    requires groups != {} && forall g :: At(count, g) == if g != 0 && g in groups then Count(was, g) else 0
    ensures forall g :: At(count, g) == Cut(was, groups, [], g)
  {
  }

  method SortFree(unassigned: seq<int>, ghost from: seq<Option<int>>) returns (r: seq<int>)
    requires Free(unassigned, from)
    ensures Free(r, from) && Ascending(r)
  {
    r := SortInts(unassigned);
  }

  lemma WrittenShown(groups: set<int>, was: seq<int>, count: map<int, nat>, a: seq<int>)
    requires Written(groups, a, Held(groups, was, count))
    ensures Shown(a, Held(groups, was, count)) && Within(groups, Held(groups, was, count))
  {
  }
}
