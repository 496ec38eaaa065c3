/** What the shard controller's rebalancing promises: which loads the groups get, which
    shards stay, and how few shards move. */
module Assignment {
  import opened Common
  import opened Counts
  import opened Counting

  // ----- groups in order -----

  ghost function Below(groups: set<int>, g: int): set<int> {
    set h | h in groups && h < g
  }

  /** gids lists the groups in increasing order. */
  ghost predicate Lists(gids: seq<int>, groups: set<int>) {
    && (forall i, j :: 0 <= i < j < |gids| ==> gids[i] < gids[j])
    && (forall i :: 0 <= i < |gids| ==> gids[i] in groups)
    && (forall g :: g in groups ==> g in gids)
  }

  lemma {:induction false} ElementsSize(gids: seq<int>)
    requires Distinct(gids)
    ensures |set g | g in gids| == |gids|
    decreases |gids|
  {
    if gids != [] {
      var rest, last := gids[..|gids| - 1], gids[|gids| - 1];
      ElementsSize(rest);
      assert gids == rest + [last];
      assert (set g | g in gids) == (set g | g in rest) + {last};
      assert last !in (set g | g in rest);
    }
  }

  lemma ListsSize(gids: seq<int>, groups: set<int>)
    requires Lists(gids, groups)
    ensures |gids| == |groups| && Distinct(gids)
  {
    ElementsSize(gids);
    var all := set g | g in gids;
    forall g
      ensures g in groups <==> g in all
    {
      assert g in gids ==> exists i :: 0 <= i < |gids| && gids[i] == g;
    }
    SameSet(groups, all);
  }

  lemma Position(gids: seq<int>, groups: set<int>, i: nat)
    requires Lists(gids, groups) && i < |gids|
    ensures |Below(groups, gids[i])| == i
  {
    ElementsSize(gids[..i]);
    SameSet(Below(groups, gids[i]), set g | g in gids[..i]);
  }

  lemma Any<T>(A: set<T>) returns (x: T)
    requires A != {}
    ensures x in A
  {
    x :| x in A;
  }

  lemma {:induction false} Greatest(A: set<int>) returns (m: int)
    requires A != {}
    ensures m in A && forall x :: x in A ==> x <= m
    decreases |A|
  {
    m := Any(A);
    var B := A - {m};
    assert forall x :: x in A ==> x == m || x in B;
    if B != {} {
      var n := Greatest(B);
      m := if m < n then n else m;
    }
  }

  lemma {:induction false} Listing(groups: set<int>) returns (gids: seq<int>)
    ensures Lists(gids, groups)
    decreases |groups|
  {
    if groups == {} {
      gids := [];
    } else {
      var m := Greatest(groups);
      gids := Listing(groups - {m});
      gids := gids + [m];
    }
  }

  // ----- target loads -----

  function Base(n: nat, groups: set<int>): nat
    requires groups != {}
  {
    n / |groups|
  }

  /** The first n % |groups| groups get one shard more than the others. */
  ghost predicate Favoured(n: nat, groups: set<int>, g: int)
    requires groups != {}
  {
    |Below(groups, g)| < n % |groups|
  }

  ghost function Target(n: nat, groups: set<int>, g: int): nat
    requires groups != {}
  {
    Base(n, groups) + if Favoured(n, groups, g) then 1 else 0
  }

  ghost function Targets(n: nat, groups: set<int>, gids: seq<int>): seq<int>
    requires groups != {}
  {
    seq(|gids|, i requires 0 <= i < |gids| => Target(n, groups, gids[i]))
  }

  lemma {:induction false} StepSum(m: nat, base: nat, extra: nat)
    ensures Sum(seq(m, i => base + if i < extra then 1 else 0)) == m * base + if m < extra then m else extra
    decreases m
  {
    if m > 0 {
      StepSum(m - 1, base, extra);
      assert seq(m, i => base + if i < extra then 1 else 0)[..m - 1] ==
         seq(m - 1, i => base + if i < extra then 1 else 0);
    }
  }

  lemma Parts(n: nat, m: nat)
    requires m > 0
    ensures m * (n / m) + n % m == n && n % m < m
  {
  }

  /** The targets share out all n shards. */
  lemma TargetsSum(n: nat, groups: set<int>, gids: seq<int>)
    requires groups != {} && Lists(gids, groups)
    ensures Sum(Targets(n, groups, gids)) == n
  {
    ListsSize(gids, groups);
    var m := |groups|;
    StepSum(m, n / m, n % m);
    Parts(n, m);
    forall i | 0 <= i < m
      ensures Targets(n, groups, gids)[i] == n / m + if i < n % m then 1 else 0
    {
      Position(gids, groups, i);
    }
    assert Targets(n, groups, gids) == seq(m, i => n / m + if i < n % m then 1 else 0);
  }

  /** a and b are the quotients of n by m and k, x and y the remainders. */
  lemma Quotients(n: nat, m: nat, k: nat, a: nat, b: nat, x: nat, y: nat)
    requires 0 < m <= k && n == m * a + x == k * b + y && x < m
    ensures b <= a && (b == a ==> y <= x)
  {
    Times(m, k, b);
    Times(a + 1, b, m);
    assert m * (a + 1) == m * a + m;
  }

  lemma Divided(n: nat, m: nat, k: nat)
    requires 0 < m <= k
    ensures n / k <= n / m
    ensures n / k == n / m ==> n % k <= n % m
  {
    Parts(n, k);
    Parts(n, m);
    Quotients(n, m, k, n / m, n / k, n % m, n % k);
  }

  lemma Times(a: nat, b: nat, c: nat)
    ensures a <= b ==> a * c <= b * c && c * a <= c * b
  {
  }

  /** A group's target never rises when groups are added. */
  lemma TargetFalls(n: nat, few: set<int>, many: set<int>, g: int)
    requires g in few && few <= many
    ensures Target(n, many, g) <= Target(n, few, g)
  {
    SubsetSize(few, many);
    SubsetSize(Below(few, g), Below(many, g));
    Divided(n, |few|, |many|);
  }

  // ----- the result of rebalancing -----

  /** Shard s stays: its group is live and is not over its target with the shards up to s. */
  ghost predicate Stays(groups: set<int>, was: seq<int>, s: nat)
    requires groups != {} && s < |was|
  {
    was[s] != 0 && was[s] in groups && Rank(was, s) < Target(|was|, groups, was[s])
  }

  ghost predicate AtTarget(groups: set<int>, a: seq<int>)
    requires groups != {}
  {
    && (forall s :: 0 <= s < |a| ==> a[s] in groups)
    && (forall g :: g in groups ==> Count(a, g) == Target(|a|, groups, g))
  }

  /** Every group has its target load, the shards that stay are where they were, and the
      others went to the groups in increasing order. */
  ghost predicate Rebalanced(groups: set<int>, was: seq<int>, a: seq<int>)
    requires groups != {}
  {
    && |a| == |was|
    && AtTarget(groups, a)
    && (forall s :: 0 <= s < |a| && Stays(groups, was, s) ==> a[s] == was[s])
    && (forall s, t :: 0 <= s < t < |a| && !Stays(groups, was, s) && !Stays(groups, was, t) ==> a[s] <= a[t])
  }

  /** If a and b agree before s and a has x at s where b has not, b makes up for it later. */
  lemma {:induction false} Later<T>(a: seq<T>, b: seq<T>, x: T, s: nat) returns (t: nat)
    requires |a| == |b| && s < |a| && a[..s] == b[..s] && a[s] == x && b[s] != x
    requires Count(a, x) <= Count(b, x)
    ensures s < t < |a| && b[t] == x && a[t] != x
    decreases |a|
  {
    t := |a| - 1;
    if t == s || (b[t] == x && a[t] != x) {
    } else {
      assert a[..t][..s] == a[..s] && b[..t][..s] == b[..s];
      t := Later(a[..t], b[..t], x, s);
    }
  }

  lemma LowerFirst(groups: set<int>, was: seq<int>, a: seq<int>, b: seq<int>, s: nat)
    requires groups != {} && Rebalanced(groups, was, a) && Rebalanced(groups, was, b)
    requires s < |a| && a[..s] == b[..s]
    ensures a[s] >= b[s]
  {
    if a[s] < b[s] {
      var t := Later(a, b, a[s], s);
    }
  }

  /** There is one such result: it does not matter in which order the groups are visited. */
  lemma {:induction false} OneResult(groups: set<int>, was: seq<int>, a: seq<int>, b: seq<int>)
    requires groups != {} && Rebalanced(groups, was, a) && Rebalanced(groups, was, b)
    ensures a == b
  {
    hide Rebalanced;
    var s := 0;
    assert |a| == |b| by { SameLength(groups, was, a, b); }
    while s < |a|
      invariant s <= |a| && a[..s] == b[..s]
    {
      LowerFirst(groups, was, a, b, s);
      LowerFirst(groups, was, b, a, s);
      assert a[..s + 1] == a[..s] + [a[s]] && b[..s + 1] == b[..s] + [b[s]];
      s := s + 1;
    }
    assert a[..|a|] == a && b[..|b|] == b;
  }

  lemma SameLength(groups: set<int>, was: seq<int>, a: seq<int>, b: seq<int>)
    requires groups != {} && Rebalanced(groups, was, a) && Rebalanced(groups, was, b)
    ensures |a| == |b|
  {
  }

  // ----- how many shards move -----

  function Moves(a: seq<int>, b: seq<int>): nat
    requires |a| == |b|
  {
    if a == [] then 0 else Moves(a[..|a| - 1], b[..|a| - 1]) + if a[|a| - 1] != b[|a| - 1] then 1 else 0
  }

  function Pairs(a: seq<int>, b: seq<int>): seq<(int, int)>
    requires |a| == |b|
  {
    seq(|a|, i requires 0 <= i < |a| => (a[i], b[i]))
  }

  function Twice(gids: seq<int>): seq<(int, int)> {
    seq(|gids|, i requires 0 <= i < |gids| => (gids[i], gids[i]))
  }

  /** How many shards group g has both before and after. */
  function KeptBy(a: seq<int>, b: seq<int>, g: int): nat
    requires |a| == |b|
  {
    Count(Pairs(a, b), (g, g))
  }

  lemma {:induction false} MovesKept(a: seq<int>, b: seq<int>, gids: seq<int>)
    requires |a| == |b| && forall s :: 0 <= s < |b| ==> b[s] in gids
    ensures Moves(a, b) == |a| - Hits(Pairs(a, b), Twice(gids))
    decreases |a|
  {
    if a != [] {
      var m := |a| - 1;
      assert forall s :: 0 <= s < m ==> b[..m][s] == b[s];
      MovesKept(a[..m], b[..m], gids);
      assert Pairs(a, b)[..m] == Pairs(a[..m], b[..m]);
      var i :| 0 <= i < |gids| && gids[i] == b[m];
      assert Twice(gids)[i] == (b[m], b[m]);
    }
  }

  /** The shards that do not move are those the groups keep, group by group. */
  lemma MovesSum(a: seq<int>, b: seq<int>, gids: seq<int>)
    requires |a| == |b| && Distinct(gids) && forall s :: 0 <= s < |b| ==> b[s] in gids
    ensures Moves(a, b) == |a| - Sum(Tally(Pairs(a, b), Twice(gids)))
  {
    MovesKept(a, b, gids);
    TallySum(Pairs(a, b), Twice(gids));
  }

  lemma KeptAtMost(a: seq<int>, b: seq<int>, g: int)
    requires |a| == |b|
    ensures KeptBy(a, b, g) <= Count(a, g) && KeptBy(a, b, g) <= Count(b, g)
  {
    var both := seq(|a|, i requires 0 <= i < |a| => if a[i] == b[i] == g then g else g + 1);
    CountSame(Pairs(a, b), (g, g), both, g);
    CountCovers(both, a, g);
    CountCovers(both, b, g);
  }

  /** Of its shards, a group keeps as many as its target allows. */
  lemma Keeps(groups: set<int>, was: seq<int>, a: seq<int>, g: int)
    requires groups != {} && Rebalanced(groups, was, a) && g in groups && g != 0
    ensures KeptBy(was, a, g) == Min(Count(was, g), Target(|was|, groups, g))
  {
    KeptAtMost(was, a, g);
    forall s | 0 <= s < |was| && was[s] == g && Rank(was, s) < Target(|was|, groups, g)
      ensures Pairs(was, a)[s] == (g, g)
    {
      assert Stays(groups, was, s);
    }
    Capped(was, g, Target(|was|, groups, g), Pairs(was, a), (g, g), false);
  }

  lemma AllListed(groups: set<int>, gids: seq<int>, b: seq<int>)
    requires groups != {} && Lists(gids, groups) && AtTarget(groups, b)
    ensures forall s :: 0 <= s < |b| ==> b[s] in gids
  {
    Listed(groups, gids, b);
  }

  lemma Listed(groups: set<int>, gids: seq<int>, b: seq<int>)
    requires Lists(gids, groups) && forall s :: 0 <= s < |b| ==> b[s] in groups
    ensures forall s :: 0 <= s < |b| ==> b[s] in gids
  {
    forall s | 0 <= s < |b|
      ensures b[s] in gids
    {
      InList(groups, gids, b[s]);
    }
  }

  lemma InList(groups: set<int>, gids: seq<int>, g: int)
    requires Lists(gids, groups) && g in groups
    ensures g in gids
  {
  }

  lemma KeepsMost(groups: set<int>, was: seq<int>, a: seq<int>, b: seq<int>, g: int)
    requires groups != {} && Rebalanced(groups, was, a) && g in groups && g != 0
    requires |b| == |was| && AtTarget(groups, b)
    ensures |a| == |was| && KeptBy(was, b, g) <= KeptBy(was, a, g)
  {
    Keeps(groups, was, a, g);
    KeptAtMost(was, b, g);
  }

  lemma MoreKept(was: seq<int>, a: seq<int>, b: seq<int>, gids: seq<int>)
    requires |was| == |a| == |b| && forall i :: 0 <= i < |gids| ==> KeptBy(was, b, gids[i]) <= KeptBy(was, a, gids[i])
    ensures Sum(Tally(Pairs(was, b), Twice(gids))) <= Sum(Tally(Pairs(was, a), Twice(gids)))
  {
    var ka, kb := Tally(Pairs(was, a), Twice(gids)), Tally(Pairs(was, b), Twice(gids));
    assert forall i :: 0 <= i < |gids| ==> kb[i] == KeptBy(was, b, gids[i]) && ka[i] == KeptBy(was, a, gids[i]);
    SumMono(kb, ka);
  }

  /** Rebalancing moves no more shards than any other assignment with these loads. */
  lemma FewestMoves(groups: set<int>, was: seq<int>, a: seq<int>, b: seq<int>)
    requires groups != {} && 0 !in groups && Rebalanced(groups, was, a)
    requires |b| == |was| && AtTarget(groups, b)
    ensures Moves(was, a) <= Moves(was, b)
  {
    hide Sum, Tally, Pairs, Twice, KeptBy;
    var gids := Listing(groups);
    ListsSize(gids, groups);
    AllListed(groups, gids, a);
    AllListed(groups, gids, b);
    MovesSum(was, a, gids);
    MovesSum(was, b, gids);
    hide Rebalanced, AtTarget;
    forall i | 0 <= i < |gids|
      ensures KeptBy(was, b, gids[i]) <= KeptBy(was, a, gids[i])
    {
      KeepsMost(groups, was, a, b, gids[i]);
    }
    MoreKept(was, a, b, gids);
  }

  // ----- fewest over all balanced assignments? -----

  /** The loads of any two groups differ by at most one. */
  ghost predicate Balanced(groups: set<int>, b: seq<int>) {
    && (forall s :: 0 <= s < |b| ==> b[s] in groups)
    && (forall g, h :: g in groups && h in groups ==> Count(b, g) <= Count(b, h) + 1)
  }

  lemma LoadsSum(groups: set<int>, gids: seq<int>, b: seq<int>)
    requires Lists(gids, groups) && forall s :: 0 <= s < |b| ==> b[s] in groups
    ensures Sum(Tally(b, gids)) == |b|
  {
    ListsSize(gids, groups);
    Listed(groups, gids, b);
    TallySum(b, gids);
  }

  lemma SumBounds(f: seq<int>, lo: nat)
    requires forall i :: 0 <= i < |f| ==> f[i] <= lo
    ensures Sum(f) <= |f| * lo
    ensures Sum(f) == |f| * lo ==> forall i :: 0 <= i < |f| ==> f[i] == lo
  {
    StepSum(|f|, lo, 0);
    SumMono(f, seq(|f|, i => lo + if i < 0 then 1 else 0));
  }

  lemma SumAbove(f: seq<int>, hi: nat)
    requires forall i :: 0 <= i < |f| ==> f[i] >= hi
    ensures Sum(f) >= |f| * hi
  {
    StepSum(|f|, hi, 0);
    SumMono(seq(|f|, i => hi + if i < 0 then 1 else 0), f);
  }

  /** In a balanced assignment every group has the base load or one shard more. */
  lemma BalancedLoads(groups: set<int>, b: seq<int>, g: int)
    requires g in groups && Balanced(groups, b)
    ensures Base(|b|, groups) <= Count(b, g) <= Base(|b|, groups) + 1
  {
    hide Sum, Count, Tally;
    var gids := Listing(groups);
    ListsSize(gids, groups);
    LoadsSum(groups, gids, b);
    InList(groups, gids, g);
    var k :| 0 <= k < |gids| && gids[k] == g;
    Close(groups, gids, b, k);
    LevelParts(Tally(b, gids), k, |b|);
  }

  lemma Close(groups: set<int>, gids: seq<int>, b: seq<int>, k: nat)
    requires Lists(gids, groups) && Balanced(groups, b) && k < |gids|
    ensures var f := Tally(b, gids);
            && |f| == |gids| && f[k] == Count(b, gids[k])
            && forall i :: 0 <= i < |f| ==> f[i] <= f[k] + 1 && f[k] <= f[i] + 1
  {
    hide Count;
    var f := Tally(b, gids);
    forall i | 0 <= i < |f|
      ensures f[i] <= f[k] + 1 && f[k] <= f[i] + 1
    {
      assert gids[i] in groups && gids[k] in groups;
    }
  }

  lemma LevelParts(f: seq<int>, k: nat, n: nat)
    requires k < |f| && Sum(f) == n && forall i :: 0 <= i < |f| ==> f[i] <= f[k] + 1 && f[k] <= f[i] + 1
    ensures n / |f| <= f[k] <= n / |f| + 1
  {
    hide Sum;
    Parts(n, |f|);
    LevelLoads(f, k, n / |f|, n % |f|);
  }

  /** Loads that differ by at most one from the k-th, and add up to base each and less
      than one each besides. */
  lemma LevelLoads(f: seq<int>, k: nat, base: nat, extra: nat)
    requires k < |f| && extra < |f| && Sum(f) == |f| * base + extra
    requires forall i :: 0 <= i < |f| ==> f[i] <= f[k] + 1 && f[k] <= f[i] + 1
    ensures base <= f[k] <= base + 1
  {
    hide Sum;
    assert |f| * (base + 1) == |f| * base + |f|;
    if f[k] < base {
      SumBounds(f, base);
    } else if f[k] > base + 1 {
      SumAbove(f, base + 1);
    }
  }

  ghost predicate OverBase(groups: set<int>, was: seq<int>, g: int)
    requires groups != {}
  {
    Count(was, g) > Base(|was|, groups)
  }

  /** A group that gets the extra shard without needing it, and one that has it to give up. */
  ghost predicate Misplaced(groups: set<int>, was: seq<int>, g: int, h: int)
    requires groups != {}
  {
    && g in groups && Favoured(|was|, groups, g) && !OverBase(groups, was, g)
    && h in groups && !Favoured(|was|, groups, h) && OverBase(groups, was, h)
  }

  lemma Weighed(groups: set<int>, was: seq<int>, a: seq<int>, b: seq<int>, g: int)
    requires groups != {} && 0 !in groups && Rebalanced(groups, was, a)
    requires |b| == |was| && Balanced(groups, b) && g in groups
    ensures (Favoured(|was|, groups, g) ==> OverBase(groups, was, g)) ==>
              KeptBy(was, b, g) + Target(|was|, groups, g) <= KeptBy(was, a, g) + Count(b, g)
    ensures (OverBase(groups, was, g) ==> Favoured(|was|, groups, g)) ==> KeptBy(was, b, g) <= KeptBy(was, a, g)
  {
    Keeps(groups, was, a, g);
    KeptAtMost(was, b, g);
    BalancedLoads(groups, b, g);
  }

  lemma {:induction false} SumWeighed(f: seq<int>, t: seq<int>, k: seq<int>, l: seq<int>)
    requires |f| == |t| == |k| == |l|
    requires forall i :: 0 <= i < |f| ==> f[i] + t[i] <= k[i] + l[i]
    ensures Sum(f) + Sum(t) <= Sum(k) + Sum(l)
    decreases |f|
  {
    if f != [] {
      var m := |f| - 1;
      SumWeighed(f[..m], t[..m], k[..m], l[..m]);
    }
  }

  lemma MostKept(groups: set<int>, gids: seq<int>, was: seq<int>, a: seq<int>, b: seq<int>)
    requires groups != {} && 0 !in groups && Rebalanced(groups, was, a) && Lists(gids, groups)
    requires |b| == |was| && Balanced(groups, b)
    requires forall g :: g in groups && Favoured(|was|, groups, g) ==> OverBase(groups, was, g)
    ensures |a| == |was| && Sum(Tally(Pairs(was, b), Twice(gids))) <= Sum(Tally(Pairs(was, a), Twice(gids)))
  {
    TargetsSum(|was|, groups, gids);
    LoadsSum(groups, gids, b);
    var f, k := Tally(Pairs(was, b), Twice(gids)), Tally(Pairs(was, a), Twice(gids));
    var t, l := Targets(|was|, groups, gids), Tally(b, gids);
    forall i | 0 <= i < |gids|
      ensures f[i] + t[i] <= k[i] + l[i]
    {
      Weighed(groups, was, a, b, gids[i]);
      assert f[i] == KeptBy(was, b, gids[i]) && k[i] == KeptBy(was, a, gids[i]);
    }
    SumWeighed(f, t, k, l);
  }

  lemma FewestOfAll(groups: set<int>, was: seq<int>, a: seq<int>, b: seq<int>)
    requires groups != {} && 0 !in groups && Rebalanced(groups, was, a)
    requires |b| == |was| && Balanced(groups, b)
    requires forall g, h :: !Misplaced(groups, was, g, h)
    ensures Moves(was, a) <= Moves(was, b)
  {
    hide Sum, Tally, Pairs, Twice, KeptBy;
    var gids := Listing(groups);
    ListsSize(gids, groups);
    AllListed(groups, gids, a);
    Listed(groups, gids, b);
    MovesSum(was, a, gids);
    MovesSum(was, b, gids);
    if g :| g in groups && Favoured(|was|, groups, g) && !OverBase(groups, was, g) {
      forall i | 0 <= i < |gids|
        ensures KeptBy(was, b, gids[i]) <= KeptBy(was, a, gids[i])
      {
        assert !Misplaced(groups, was, g, gids[i]);
        Weighed(groups, was, a, b, gids[i]);
      }
      MoreKept(was, a, b, gids);
    } else {
      MostKept(groups, gids, was, a, b);
    }
  }

  lemma {:induction false} MovesUpdate(was: seq<int>, a: seq<int>, s: nat, y: int)
    requires |was| == |a| && s < |a|
    ensures Moves(was, a[s := y]) == Moves(was, a) - (if was[s] != a[s] then 1 else 0) + (if was[s] != y then 1 else 0)
    decreases |a|
  {
    var m := |a| - 1;
    if s < m {
      MovesUpdate(was[..m], a[..m], s, y);
      assert a[s := y][..m] == a[..m][s := y];
    } else {
      assert a[s := y][..m] == a[..m];
    }
  }

  lemma Exceeds(a: seq<int>, b: seq<int>, x: int) returns (s: nat)
    requires |a| == |b| && Count(a, x) > Count(b, x)
    ensures s < |a| && a[s] == x && b[s] != x
  {
    if forall s :: 0 <= s < |a| && a[s] == x ==> b[s] == x {
      CountCovers(a, b, x);
      assert false;
    }
    s :| 0 <= s < |a| && a[s] == x && b[s] != x;
  }

  /** Giving h back its shard at the cost of g saves a move and stays balanced. */
  lemma Better(groups: set<int>, was: seq<int>, a: seq<int>, g: int, h: int) returns (b: seq<int>)
    requires groups != {} && Rebalanced(groups, was, a) && Misplaced(groups, was, g, h)
    ensures |b| == |a| == |was| && (forall s :: 0 <= s < |b| ==> b[s] in groups)
    ensures forall x :: Count(b, x) == Count(a, x) + (if x == h then 1 else 0) - (if x == g then 1 else 0)
    ensures Moves(was, b) < Moves(was, a)
  {
    var s := Exceeds(a, was, g);
    var t := Exceeds(was, a, h);
    var k := a[t];
    var mid := a[t := h];
    MovesUpdate(was, a, t, h);
    forall x
      ensures Count(mid, x) == Count(a, x) + (if x == h then 1 else 0) - (if x == k then 1 else 0)
    {
      CountUpdate(a, t, h, x);
    }
    if k == g {
      b := mid;
    } else {
      b := mid[s := k];
      MovesUpdate(was, mid, s, k);
      forall x
        ensures Count(b, x) == Count(mid, x) + (if x == k then 1 else 0) - (if x == g then 1 else 0)
      {
        CountUpdate(mid, s, k, x);
      }
    }
  }

  /** Rebalancing moves the fewest shards among all balanced assignments exactly when no
      favoured group lacks the extra shard while another group already has it. */
  lemma FewestIff(groups: set<int>, was: seq<int>, a: seq<int>)
    requires groups != {} && 0 !in groups && Rebalanced(groups, was, a)
    ensures (forall b :: |b| == |was| && Balanced(groups, b) ==> Moves(was, a) <= Moves(was, b))
       <==> (forall g, h :: !Misplaced(groups, was, g, h))
  {
    if g, h :| Misplaced(groups, was, g, h) {
      var b := Better(groups, was, a, g, h);
      assert Balanced(groups, b);
    } else {
      forall b | |b| == |was| && Balanced(groups, b)
        ensures Moves(was, a) <= Moves(was, b)
      {
        FewestOfAll(groups, was, a, b);
      }
    }
  }

  /** Two groups with five shards each: when group 1 joins, some balanced assignment moves
      fewer shards. */
  lemma FewerWouldDo(a: seq<int>) returns (b: seq<int>)
    requires Rebalanced({1, 2, 3}, [2, 2, 2, 2, 2, 3, 3, 3, 3, 3], a)
    ensures |b| == |a| == 10 && Balanced({1, 2, 3}, b)
    ensures Moves([2, 2, 2, 2, 2, 3, 3, 3, 3, 3], b) < Moves([2, 2, 2, 2, 2, 3, 3, 3, 3, 3], a)
  {
    var groups, was := {1, 2, 3}, [2, 2, 2, 2, 2, 3, 3, 3, 3, 3];
    Fives(was);
    assert Below(groups, 1) == {} && Below(groups, 2) == {1};
    assert Misplaced(groups, was, 1, 2);
    hide Rebalanced, Misplaced, Count;
    FewestIff(groups, was, a);
    b :| |b| == |was| && Balanced(groups, b) && !(Moves(was, a) <= Moves(was, b));
  }

  lemma Fives(was: seq<int>)
    requires was == [2, 2, 2, 2, 2, 3, 3, 3, 3, 3]
    ensures Count(was, 1) == 0 && Count(was, 2) == 5
  {
    var five := [2, 2, 2, 2, 2];
    assert five == [] + [2] + [2] + [2] + [2] + [2] && was == five + [3] + [3] + [3] + [3] + [3];
    forall x
      ensures Count(five, x) == if x == 2 then 5 else 0
    {
      CountPush([], 2, x);
      CountPush([2], 2, x);
      CountPush([2, 2], 2, x);
      CountPush([2, 2, 2], 2, x);
      CountPush([2, 2, 2, 2], 2, x);
    }
    forall x | x != 3
      ensures Count(was, x) == Count(five, x)
    {
      CountPush(five, 3, x);
      CountPush(five + [3], 3, x);
      CountPush(five + [3] + [3], 3, x);
      CountPush(five + [3] + [3] + [3], 3, x);
      CountPush(five + [3] + [3] + [3] + [3], 3, x);
    }
  }

  // ----- joining and leaving -----

  lemma KeptFewer(was: seq<int>, a: seq<int>, g: int, s: nat)
    requires |was| == |a| && s < |a| && a[s] == g && was[s] != g
    ensures KeptBy(was, a, g) < Count(a, g)
  {
    var both := seq(|a|, i requires 0 <= i < |a| => if was[i] == a[i] == g then g else g + 1);
    CountSame(Pairs(was, a), (g, g), both, g);
    CountCovers(both, a, g);
  }

  /** From target loads, shards move only to the groups that join. */
  lemma JoinMoves(present: set<int>, groups: set<int>, was: seq<int>, a: seq<int>, s: nat)
    requires present <= groups && groups != {} && 0 !in groups && s < |was|
    requires present != {} ==> AtTarget(present, was)
    requires Rebalanced(groups, was, a)
    ensures a[s] == was[s] || a[s] in groups - present
  {
    var g := a[s];
    if g in present && was[s] != g {
      TargetFalls(|was|, present, groups, g);
      Keeps(groups, was, a, g);
      KeptFewer(was, a, g, s);
    }
  }

  function Unassign(was: seq<int>, leaving: set<int>): seq<int> {
    seq(|was|, s requires 0 <= s < |was| => if was[s] in leaving then 0 else was[s])
  }

  /** From target loads, only the shards of the groups that leave move. */
  lemma LeaveMoves(present: set<int>, leaving: set<int>, was: seq<int>, a: seq<int>, s: nat)
    requires present - leaving != {} && 0 !in present && s < |was|
    requires AtTarget(present, was) && Rebalanced(present - leaving, Unassign(was, leaving), a)
    ensures a[s] == was[s] || was[s] in leaving
  {
    var groups, open, g := present - leaving, Unassign(was, leaving), was[s];
    if g !in leaving {
      assert g in groups && open[s] == g;
      RankBelow(open, s);
      CountSame(open, g, was, g);
      TargetFalls(|was|, groups, present, g);
      assert Stays(groups, open, s);
    }
  }
}
