/** The checker's bitset: a slice of 64-bit words standing for a finite set of
    positions.  Bits 0-63 are in word 0, the next 64 in word 1, and so on. */
module Bitset {

  type Words = seq<bv64>

  function Chunks(bits: nat): nat {
    bits / 64 + if bits % 64 != 0 then 1 else 0
  }

  function Pack(b0: bool, b1: bool, b2: bool, b3: bool, b4: bool, b5: bool): (k: bv6)
    ensures (k & 1 != 0) == b0 && (k & 2 != 0) == b1 && (k & 4 != 0) == b2
    ensures (k & 8 != 0) == b3 && (k & 16 != 0) == b4 && (k & 32 != 0) == b5
  {
    (if b0 then 1 else 0) | (if b1 then 2 else 0) | (if b2 then 4 else 0) |
    (if b3 then 8 else 0) | (if b4 then 16 else 0) | (if b5 then 32 else 0)
  }

  /** pos % 64 as a shift count. */
  function Minor(pos: nat): bv6 {
    var m := pos % 64;
    Pack(m % 2 == 1, m / 2 % 2 == 1, m / 4 % 2 == 1, m / 8 % 2 == 1, m / 16 % 2 == 1, m / 32 % 2 == 1)
  }

  /** The position within a word that a shift count selects. */
  function Offset(k: bv6): (n: nat)
    ensures n < 64
  {
    (if k & 1 != 0 then 1 else 0) + (if k & 2 != 0 then 2 else 0) + (if k & 4 != 0 then 4 else 0) +
    (if k & 8 != 0 then 8 else 0) + (if k & 16 != 0 then 16 else 0) + (if k & 32 != 0 then 32 else 0)
  }

  function Mask(k: bv6): bv64 {
    1 << k
  }

  function And(x: bv64, a: bv64): bv64 {
    x & a
  }

  predicate Meets(x: bv64, a: bv64) {
    And(x, a) != 0
  }

  function Or(x: bv64, a: bv64): bv64 {
    x | a
  }

  function AndNot(x: bv64, a: bv64): bv64 {
    x & !a
  }

  predicate Bit(x: bv64, k: bv6) {
    Meets(x, Mask(k))
  }

  function WithBit(x: bv64, k: bv6): bv64 {
    Or(x, Mask(k))
  }

  function WithoutBit(x: bv64, k: bv6): bv64 {
    AndNot(x, Mask(k))
  }

  predicate Get(b: Words, pos: nat)
    requires pos / 64 < |b|
  {
    Bit(b[pos / 64], Minor(pos))
  }

  function Set(b: Words, pos: nat): Words
    requires pos / 64 < |b|
  {
    b[pos / 64 := WithBit(b[pos / 64], Minor(pos))]
  }

  function Clear(b: Words, pos: nat): Words
    requires pos / 64 < |b|
  {
    b[pos / 64 := WithoutBit(b[pos / 64], Minor(pos))]
  }

  /** The set a bitset stands for. */
  ghost function Members(b: Words): (r: set<nat>)
    ensures forall p: nat :: p in r <==> p / 64 < |b| && Get(b, p)
  {
    set p | 0 <= p < 64 * |b| && Get(b, p)
  }

  // ----- single words -----

  lemma OneMask(k: bv6)
    ensures Mask(k) != 0
  {
  }

  lemma OtherMask(k: bv6, j: bv6)
    requires k != j
    ensures !Meets(Mask(k), Mask(j))
  {
  }

  lemma SetBit(x: bv64, k: bv6, j: bv6)
    ensures Bit(WithBit(x, k), j) <==> Bit(x, j) || j == k
  {
    hide Bit, WithBit;
    if j == k {
      SetSame(x, k);
    } else {
      SetOther(x, k, j);
    }
  }

  lemma SetSame(x: bv64, k: bv6)
    ensures Bit(WithBit(x, k), k)
  {
    OneMask(k);
    OrSame(x, Mask(k));
  }

  lemma OrSame(x: bv64, a: bv64)
    ensures (x | a) & a == a
  {
  }

  lemma SetOther(x: bv64, k: bv6, j: bv6)
    requires k != j
    ensures Bit(WithBit(x, k), j) == Bit(x, j)
  {
    hide Mask, Meets, Or;
    OtherMask(k, j);
    OrOther(x, Mask(k), Mask(j));
  }

  lemma OrOther(x: bv64, a: bv64, b: bv64)
    requires !Meets(a, b)
    ensures Meets(Or(x, a), b) == Meets(x, b)
  {
    hide And, Or;
    OrApart(x, a, b);
  }

  lemma OrApart(x: bv64, a: bv64, b: bv64)
    requires And(a, b) == 0
    ensures And(Or(x, a), b) == And(x, b)
  {
  }

  lemma ClearBit(x: bv64, k: bv6, j: bv6)
    ensures Bit(WithoutBit(x, k), j) <==> Bit(x, j) && j != k
  {
    if j == k {
      ClearSame(x, Mask(k));
    } else {
      ClearOther(x, k, j);
    }
  }

  lemma ClearSame(x: bv64, a: bv64)
    ensures (x & !a) & a == 0
  {
  }

  lemma ClearOther(x: bv64, k: bv6, j: bv6)
    requires k != j
    ensures Bit(WithoutBit(x, k), j) == Bit(x, j)
  {
    hide Mask, Meets, AndNot;
    OtherMask(k, j);
    AndNotOther(x, Mask(k), Mask(j));
  }

  lemma AndNotOther(x: bv64, a: bv64, b: bv64)
    requires !Meets(a, b)
    ensures Meets(AndNot(x, a), b) == Meets(x, b)
  {
    hide And, AndNot;
    AndNotApart(x, a, b);
  }

  lemma AndNotApart(x: bv64, a: bv64, b: bv64)
    requires And(a, b) == 0
    ensures And(AndNot(x, a), b) == And(x, b)
  {
  }

  lemma ClearUndoesSet(x: bv64, k: bv6)
    requires !Bit(x, k)
    ensures WithoutBit(WithBit(x, k), k) == x
  {
    hide Mask;
  }

  /** A nonzero word has a bit that is set: halve the range six times. */
  lemma SomeBit(x: bv64) returns (k: bv6)
    requires x != 0
    ensures Bit(x, k)
  {
    k := 0;
    if x & 0xFFFF_FFFF == 0 { k := 32; }
    assert (x >> k) & 0xFFFF_FFFF != 0;
    if (x >> k) & 0xFFFF == 0 { k := k + 16; }
    assert (x >> k) & 0xFFFF != 0;
    if (x >> k) & 0xFF == 0 { k := k + 8; }
    if (x >> k) & 0xF == 0 { k := k + 4; }
    if (x >> k) & 0x3 == 0 { k := k + 2; }
    if (x >> k) & 0x1 == 0 { k := k + 1; }
  }

  lemma XorBit(x: bv64, y: bv64, k: bv6)
    ensures Bit(x ^ y, k) <==> Bit(x, k) != Bit(y, k)
  {
  }

  lemma DifferentBit(x: bv64, y: bv64) returns (k: bv6)
    requires x != y
    ensures Bit(x, k) != Bit(y, k)
  {
    assert x ^ y != 0;
    k := SomeBit(x ^ y);
    XorBit(x, y, k);
  }

  // ----- whole bitsets -----

  lemma OffsetIsIndex(k: bv6, j: bv6)
    requires Offset(k) == Offset(j)
    ensures k == j
  {
  }

  lemma Binary(m: nat)
    requires m < 64
    ensures m == m % 2 + 2 * (m / 2 % 2) + 4 * (m / 4 % 2) + 8 * (m / 8 % 2) + 16 * (m / 16 % 2) + 32 * (m / 32 % 2)
  {
    var m1 := m / 2;
    var m2 := m1 / 2;
    var m3 := m2 / 2;
    var m4 := m3 / 2;
    assert m2 == m / 4 && m3 == m / 8 && m4 == m / 16 && m4 / 2 == m / 32;
  }

  lemma MinorOffset(pos: nat)
    ensures Offset(Minor(pos)) == pos % 64
  {
    hide Pack;
    Binary(pos % 64);
  }

  lemma SameSlot(a: nat, b: nat)
    requires a / 64 == b / 64 && Minor(a) == Minor(b)
    ensures a == b
  {
    hide Minor, Offset;
    MinorOffset(a);
    MinorOffset(b);
  }

  /** Every slot of every word is some position. */
  lemma SlotPosition(major: nat, k: bv6) returns (pos: nat)
    ensures pos / 64 == major && Minor(pos) == k
  {
    hide Minor, Offset;
    pos := 64 * major + Offset(k);
    MinorOffset(pos);
    OffsetIsIndex(Minor(pos), k);
  }

  lemma SetAdds(b: Words, pos: nat)
    requires pos / 64 < |b|
    ensures |Set(b, pos)| == |b| && Members(Set(b, pos)) == Members(b) + {pos}
  {
    hide Minor, Bit, WithBit, WithoutBit;
    var c := Set(b, pos);
    forall p: nat
      ensures p in Members(c) <==> p in Members(b) || p == pos
    {
      if p / 64 == pos / 64 {
        SetBit(b[pos / 64], Minor(pos), Minor(p));
        if Minor(p) == Minor(pos) {
          SameSlot(p, pos);
        }
      }
    }
  }

  lemma ClearRemoves(b: Words, pos: nat)
    requires pos / 64 < |b|
    ensures |Clear(b, pos)| == |b| && Members(Clear(b, pos)) == Members(b) - {pos}
  {
    hide Minor, Bit, WithBit, WithoutBit;
    var c := Clear(b, pos);
    forall p: nat
      ensures p in Members(c) <==> p in Members(b) && p != pos
    {
      if p / 64 == pos / 64 {
        ClearBit(b[pos / 64], Minor(pos), Minor(p));
        if Minor(p) == Minor(pos) {
          SameSlot(p, pos);
        }
      }
    }
  }

  /** Bitsets of one length are equal exactly when they stand for the same set. */
  lemma EqualIffSameMembers(b: Words, c: Words)
    requires |b| == |c|
    ensures b == c <==> Members(b) == Members(c)
  {
    hide Minor, Bit;
    if b != c {
      var i :| 0 <= i < |b| && b[i] != c[i];
      var k := DifferentBit(b[i], c[i]);
      var pos := SlotPosition(i, k);
      assert pos in Members(b) <==> Get(b, pos);
      assert pos in Members(c) <==> Get(c, pos);
    }
  }

  function Empty(bits: nat): (b: Words)
    ensures |b| == Chunks(bits)
    ensures forall pos: nat :: pos < bits ==> pos / 64 < |b|
  {
    seq(Chunks(bits), i => 0)
  }

  lemma EmptyHasNone(bits: nat)
    ensures Members(Empty(bits)) == {}
  {
    forall p: nat
      ensures p !in Members(Empty(bits))
    {
      if p / 64 < |Empty(bits)| {
        assert Empty(bits)[p / 64] == 0;
      }
    }
  }

  // ----- hashing -----

  /** How many of the lowest bits are set. */
  function Ones(x: bv64, below: nat): nat
    requires below <= 64
  {
    if below == 0 then 0 else Ones(x, below - 1) + if Bit(x, Minor(below - 1)) then 1 else 0
  }

  function PopCount(b: Words): nat {
    if b == [] then 0 else PopCount(b[..|b| - 1]) + Ones(b[|b| - 1], 64)
  }

  ghost function MembersBelow(b: Words, p: nat): set<nat>
    requires p <= 64 * |b|
  {
    set q: nat | q < p && Get(b, q)
  }

  lemma {:induction false} SizeBelow(b: Words, i: nat, k: nat)
    requires i < |b| && k <= 64
    ensures |MembersBelow(b, 64 * i + k)| == PopCount(b[..i]) + Ones(b[i], k)
    decreases i, k
  {
    hide Bit, Minor;
    if k > 0 {
      var p := 64 * i + k - 1;
      SizeBelow(b, i, k - 1);
      assert p / 64 == i && p % 64 == k - 1;
      SameMinor(p, k - 1);
      assert MembersBelow(b, p + 1) == MembersBelow(b, p) + if Get(b, p) then {p} else {};
    } else if i > 0 {
      SizeBelow(b, i - 1, 64);
      assert b[..i][..i - 1] == b[..i - 1];
    }
  }

  lemma SameMinor(p: nat, m: nat)
    requires p % 64 == m
    ensures Minor(p) == Minor(m)
  {
    hide Pack;
    assert m % 64 == m;
  }

  /** popcnt is the size of the set. */
  lemma PopCountIsSize(b: Words)
    ensures PopCount(b) == |Members(b)|
  {
    hide Bit, Minor;
    if b != [] {
      SizeBelow(b, |b| - 1, 64);
    }
    assert Members(b) == MembersBelow(b, 64 * |b|);
  }

  /** The low 64 bits of a number. */
  function Low(n: nat): bv64 {
    (n % 0x1_0000_0000_0000_0000) as bv64
  }

  function Xor(x: bv64, y: bv64): bv64 {
    x ^ y
  }

  function XorAll(b: Words, h: bv64): bv64 {
    if b == [] then h else Xor(XorAll(b[..|b| - 1], h), b[|b| - 1])
  }

  datatype HashValue = HashValue(bits: bv64)

  function Hash(b: Words): HashValue {
    HashValue(XorAll(b, Low(PopCount(b))))
  }

  // ----- the operations on slices -----

  method NewBitset(bits: nat) returns (b: array<bv64>)
    ensures fresh(b) && b[..] == Empty(bits)
  {
    var extra := 0;
    if bits % 64 != 0 {
      extra := 1;
    }
    b := new bv64[bits / 64 + extra](i => 0);
  }

  method Clone(b: array<bv64>) returns (c: array<bv64>)
    ensures fresh(c) && c[..] == b[..]
  {
    c := new bv64[b.Length](i requires 0 <= i < b.Length reads b => b[i]);
  }

  method SetBitAt(b: array<bv64>, pos: nat)
    requires pos / 64 < b.Length
    modifies b
    ensures b[..] == Set(old(b[..]), pos)
  {
    hide Minor, WithBit, WithoutBit;
    var major, minor := pos / 64, Minor(pos);
    b[major] := WithBit(b[major], minor);
  }

  method ClearBitAt(b: array<bv64>, pos: nat)
    requires pos / 64 < b.Length
    modifies b
    ensures b[..] == Clear(old(b[..]), pos)
  {
    hide Minor, WithBit, WithoutBit;
    var major, minor := pos / 64, Minor(pos);
    b[major] := WithoutBit(b[major], minor);
  }

  method PopCountOf(b: array<bv64>) returns (total: nat)
    ensures total == PopCount(b[..]) == |Members(b[..])|
  {
    hide Ones, Members;
    total := 0;
    for i := 0 to b.Length
      invariant total == PopCount(b[..i])
    {
      assert b[..i + 1][..i] == b[..i];
      total := total + Ones(b[i], 64);
    }
    assert b[..b.Length] == b[..];
    PopCountIsSize(b[..]);
  }

  method HashOf(b: array<bv64>) returns (hash: HashValue)
    ensures hash == Hash(b[..])
  {
    hide Ones, Xor, Low;
    var total := PopCountOf(b);
    var h := Low(total);
    assert b[..b.Length] == b[..];
    for i := 0 to b.Length
      invariant h == XorAll(b[..i], Low(PopCount(b[..])))
    {
      assert b[..i + 1][..i] == b[..i];
      h := Xor(h, b[i]);
    }
    hash := HashValue(h);
  }

  method Equals(b: Words, c: Words) returns (r: bool)
    ensures r <==> |b| == |c| && Members(b) == Members(c)
  {
    if |b| != |c| {
      return false;
    }
    EqualIffSameMembers(b, c);
    for i := 0 to |b|
      invariant forall k :: 0 <= k < i ==> b[k] == c[k]
    {
      if b[i] != c[i] {
        return false;
      }
    }
    return true;
  }
}
