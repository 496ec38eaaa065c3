/** How often values occur in a sequence. */
module Counts {
  import opened Common

  function Count<T(==)>(a: seq<T>, x: T): (n: nat)
    ensures n <= |a|
  {
    if a == [] then 0 else Count(a[..|a| - 1], x) + if a[|a| - 1] == x then 1 else 0
  }

  /** How many earlier places hold the same value as place s. */
  function Rank<T(==)>(a: seq<T>, s: nat): nat
    requires s < |a|
  {
    Count(a[..s], a[s])
  }

  lemma CountPush<T>(a: seq<T>, y: T, x: T)
    ensures Count(a + [y], x) == Count(a, x) + if y == x then 1 else 0
  {
    assert (a + [y])[..|a|] == a;
  }

  lemma {:induction false} CountPrefix<T>(a: seq<T>, m: nat, x: T)
    requires m <= |a|
    ensures Count(a[..m], x) <= Count(a, x)
    decreases |a|
  {
    if m < |a| {
      var b := a[..|a| - 1];
      CountPrefix(b, m, x);
      assert b[..m] == a[..m];
    } else {
      assert a[..m] == a;
    }
  }

  lemma RankBelow<T>(a: seq<T>, s: nat)
    requires s < |a|
    ensures Rank(a, s) < Count(a, a[s])
  {
    assert a[..s + 1] == a[..s] + [a[s]];
    CountPush(a[..s], a[s], a[s]);
    CountPrefix(a, s + 1, a[s]);
  }

  lemma RankOrder<T>(a: seq<T>, s: nat, t: nat)
    requires s < t < |a| && a[s] == a[t]
    ensures Rank(a, s) < Rank(a, t)
  {
    RankBelow(a[..t], s);
    assert a[..t][..s] == a[..s];
  }

  /** The place of the r-th occurrence. */
  lemma {:induction false} Nth<T>(a: seq<T>, x: T, r: nat) returns (s: nat)
    requires r < Count(a, x)
    ensures s < |a| && a[s] == x && Rank(a, s) == r
    decreases |a|
  {
    var b := a[..|a| - 1];
    if r < Count(b, x) {
      s := Nth(b, x, r);
      assert b[..s] == a[..s];
    } else {
      s := |a| - 1;
    }
  }

  lemma {:induction false} CountUpdate<T>(a: seq<T>, s: nat, y: T, x: T)
    requires s < |a|
    ensures Count(a[s := y], x) == Count(a, x) - (if a[s] == x then 1 else 0) + (if y == x then 1 else 0)
    decreases |a|
  {
    var b, a' := a[..|a| - 1], a[s := y];
    if s < |a| - 1 {
      CountUpdate(b, s, y, x);
      assert a'[..|a| - 1] == b[s := y];
    } else {
      assert a'[..|a| - 1] == b;
    }
  }

  /** If b has x wherever a has it, and one place more, b has more of them. */
  lemma {:induction false} CountCovers<T>(a: seq<T>, b: seq<T>, x: T)
    requires |a| == |b| && forall s :: 0 <= s < |a| && a[s] == x ==> b[s] == x
    ensures Count(a, x) <= Count(b, x)
    ensures forall s :: 0 <= s < |a| && b[s] == x && a[s] != x ==> Count(a, x) < Count(b, x)
    decreases |a|
  {
    if a != [] {
      CountCovers(a[..|a| - 1], b[..|a| - 1], x);
      assert forall s :: 0 <= s < |a| - 1 ==> a[..|a| - 1][s] == a[s] && b[..|a| - 1][s] == b[s];
    }
  }

  /** Two sequences that hold x in the same places. */
  lemma {:induction false} CountSame<T, U>(a: seq<T>, x: T, b: seq<U>, y: U)
    requires |a| == |b| && forall s :: 0 <= s < |a| ==> (a[s] == x <==> b[s] == y)
    ensures Count(a, x) == Count(b, y)
    decreases |a|
  {
    if a != [] {
      CountSame(a[..|a| - 1], x, b[..|a| - 1], y);
    }
  }

  function Min(a: int, b: int): int {
    if a < b then a else b
  }

  /** If b has y at least where a has one of the first c occurrences of x, and, when only
      is set, nowhere else. */
  lemma {:induction false} Capped<T, U>(a: seq<T>, x: T, c: nat, b: seq<U>, y: U, only: bool)
    requires |a| == |b|
    requires forall s :: 0 <= s < |a| && a[s] == x && Rank(a, s) < c ==> b[s] == y
    requires only ==> forall s :: 0 <= s < |a| && b[s] == y ==> a[s] == x && Rank(a, s) < c
    ensures Count(b, y) >= Min(Count(a, x), c)
    ensures only ==> Count(b, y) == Min(Count(a, x), c)
    decreases |a|
  {
    if a != [] {
      var m := |a| - 1;
      forall s | 0 <= s < m
        ensures a[..m][s] == a[s] && b[..m][s] == b[s] && Rank(a[..m], s) == Rank(a, s)
      {
        assert a[..m][..s] == a[..s];
      }
      Capped(a[..m], x, c, b[..m], y, only);
      assert a[m] == x ==> Rank(a, m) == Count(a[..m], x);
    }
  }

  lemma {:induction false} CountAll<T>(a: seq<T>, x: T)
    requires Count(a, x) == |a|
    ensures forall s :: 0 <= s < |a| ==> a[s] == x
    decreases |a|
  {
    if a != [] {
      CountAll(a[..|a| - 1], x);
      assert a == a[..|a| - 1] + [a[|a| - 1]];
    }
  }

  lemma {:induction false} CountNone<T>(a: seq<T>, x: T)
    requires x !in a
    ensures Count(a, x) == 0
    decreases |a|
  {
    if a != [] {
      CountNone(a[..|a| - 1], x);
    }
  }

  // ----- sums -----

  function Sum(f: seq<int>): int {
    if f == [] then 0 else Sum(f[..|f| - 1]) + f[|f| - 1]
  }

  lemma {:induction false} SumMono(f: seq<int>, g: seq<int>)
    requires |f| == |g| && forall i :: 0 <= i < |f| ==> f[i] <= g[i]
    ensures Sum(f) <= Sum(g)
    ensures Sum(f) == Sum(g) ==> f == g
    decreases |f|
  {
    if f != [] {
      SumMono(f[..|f| - 1], g[..|f| - 1]);
      assert f == f[..|f| - 1] + [f[|f| - 1]] && g == g[..|f| - 1] + [g[|f| - 1]];
    }
  }

  lemma {:induction false} SumAdd(f: seq<int>, g: seq<int>)
    requires |f| == |g|
    ensures Sum(seq(|f|, i requires 0 <= i < |f| => f[i] + g[i])) == Sum(f) + Sum(g)
    decreases |f|
  {
    var h := seq(|f|, i requires 0 <= i < |f| => f[i] + g[i]);
    if f != [] {
      SumAdd(f[..|f| - 1], g[..|f| - 1]);
      assert h[..|f| - 1] == seq(|f| - 1, i requires 0 <= i < |f| - 1 => f[..|f| - 1][i] + g[..|f| - 1][i]);
    }
  }

  /** One count for each of the values xs. */
  function Tally<T(==)>(a: seq<T>, xs: seq<T>): seq<int> {
    seq(|xs|, i requires 0 <= i < |xs| => Count(a, xs[i]))
  }

  function Hits<T(==)>(a: seq<T>, xs: seq<T>): (n: nat)
    ensures n <= |a|
    ensures n == |a| <==> forall s :: 0 <= s < |a| ==> a[s] in xs
  {
    if a == [] then 0 else Hits(a[..|a| - 1], xs) + if a[|a| - 1] in xs then 1 else 0
  }

  lemma {:induction false} UnitSum<T>(xs: seq<T>, x: T)
    requires Distinct(xs)
    ensures Sum(seq(|xs|, i requires 0 <= i < |xs| => if x == xs[i] then 1 else 0)) == if x in xs then 1 else 0
    decreases |xs|
  {
    if xs != [] {
      var ys := xs[..|xs| - 1];
      UnitSum(ys, x);
      assert seq(|xs|, i requires 0 <= i < |xs| => if x == xs[i] then 1 else 0)[..|ys|]
          == seq(|ys|, i requires 0 <= i < |ys| => if x == ys[i] then 1 else 0);
      assert xs == ys + [xs[|xs| - 1]];
    }
  }

  lemma {:induction false} ZeroSum(f: seq<int>)
    requires forall i :: 0 <= i < |f| ==> f[i] == 0
    ensures Sum(f) == 0
    decreases |f|
  {
    if f != [] {
      ZeroSum(f[..|f| - 1]);
    }
  }

  /** Counting value by value finds every place once. */
  lemma {:induction false} TallySum<T>(a: seq<T>, xs: seq<T>)
    requires Distinct(xs)
    ensures Sum(Tally(a, xs)) == Hits(a, xs)
    decreases |a|
  {
    if a == [] {
      ZeroSum(Tally(a, xs));
    } else {
      var b, x := a[..|a| - 1], a[|a| - 1];
      var unit := seq(|xs|, i requires 0 <= i < |xs| => if x == xs[i] then 1 else 0);
      TallySum(b, xs);
      UnitSum(xs, x);
      SumAdd(Tally(b, xs), unit);
      assert Tally(a, xs) == seq(|xs|, i requires 0 <= i < |xs| => Tally(b, xs)[i] + unit[i]);
    }
  }
}
