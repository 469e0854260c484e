/**
  Bits: the value domain shared by both ciphers.

  A division-property indicator is the value a solution gives to one binary
  solver variable; a bitset (monomial key, one round of a trail, a cipher
  register) is a sequence of booleans indexed from 0, as std::bitset is.
 */
module Bits {

  /** The value of one binary decision variable in a solution. */
  type Ind = x: int | 0 <= x <= 1

  /** Reads a solver value back as a bit (`round(getSolution(v)) == 1`). */
  function ToBits(x: seq<Ind>): (r: seq<bool>)
    ensures |r| == |x|
    ensures forall i :: 0 <= i < |x| ==> (r[i] <==> x[i] == 1)
  {
    seq(|x|, i requires 0 <= i < |x| => x[i] == 1)
  }

  function FromBit(b: bool): Ind
  {
    if b then 1 else 0
  }

  /** The logical OR of two indicators, as a general OR constraint evaluates it. */
  function Or(y: Ind, z: Ind): Ind
  {
    if y == 1 || z == 1 then 1 else 0
  }

  /** The three inequalities of the COPY x -> (y, z): y <= x, z <= x, y + z >= x. */
  predicate CopyRule(x: Ind, y: Ind, z: Ind)
  {
    y <= x && z <= x && y + z >= x
  }

  /** The copy table: 0 copies only to (0, 0); 1 copies to (1, 0), (0, 1) or (1, 1). */
  function CopyOutcomes(x: Ind): (r: set<(Ind, Ind)>)
    ensures forall y: Ind, z: Ind :: (y, z) in r <==> CopyRule(x, y, z)
  {
    if x == 0 then {(0, 0)} else {(1, 0), (0, 1), (1, 1)}
  }

  /** On binary values the copy inequalities say exactly x = y OR z. */
  lemma CopyRuleIsOr(x: Ind, y: Ind, z: Ind)
    ensures CopyRule(x, y, z) <==> x == Or(y, z)
  {
  }

  // ---------------------------------------------------------------------------
  // The comparator of the counting-box maps (cmpBitset288 / cmpBitset256)
  // ---------------------------------------------------------------------------

  /** a and b agree on every index below i. */
  predicate AgreeBelow(a: seq<bool>, b: seq<bool>, i: int)
    requires 0 <= i <= |a| && i <= |b|
  {
    forall j :: 0 <= j < i ==> a[j] == b[j]
  }

  /**
    The order the comparators implement: index 0 is compared first, and at the
    first index where the bitsets differ, the one holding 0 is the smaller.
   */
  ghost predicate LexLess(a: seq<bool>, b: seq<bool>)
  {
    |a| == |b| &&
    exists i :: 0 <= i < |a| && AgreeBelow(a, b, i) && !a[i] && b[i]
  }

  /** The comparator loop: scans from index 0 and returns at the first difference. */
  method CmpBitset(a: seq<bool>, b: seq<bool>) returns (less: bool)
    requires |a| == |b|
    ensures less <==> LexLess(a, b)
  {
    var i := 0;
    while i < |a|
      invariant 0 <= i <= |a|
      invariant AgreeBelow(a, b, i)
    {
      if !a[i] && b[i] {
        return true;
      } else if a[i] && !b[i] {
        assert forall j :: 0 <= j < |a| && AgreeBelow(a, b, j) ==> j <= i;
        return false;
      }
      i := i + 1;
    }
    return false;
  }

  /** The first index at which two different bitsets of one width differ. */
  lemma {:induction false} FirstDifference(a: seq<bool>, b: seq<bool>) returns (i: nat)
    requires |a| == |b| && a != b
    ensures i < |a| && AgreeBelow(a, b, i) && a[i] != b[i]
  {
    var k :| 0 <= k < |a| && a[k] != b[k];
    i := 0;
    while a[i] == b[i]
      invariant i <= k && AgreeBelow(a, b, i)
      decreases k - i
    {
      i := i + 1;
    }
  }

  /** The comparator is a strict total order: irreflexive, asymmetric and connected. */
  lemma LexLessStrictTotal(a: seq<bool>, b: seq<bool>)
    requires |a| == |b|
    ensures !LexLess(a, a)
    ensures LexLess(a, b) ==> !LexLess(b, a)
    ensures a != b ==> LexLess(a, b) || LexLess(b, a)
  {
    if LexLess(a, b) {
      var i :| 0 <= i < |a| && AgreeBelow(a, b, i) && !a[i] && b[i];
      forall j | 0 <= j < |a|
        ensures !(AgreeBelow(b, a, j) && !b[j] && a[j])
      {
        if j > i {
          assert b[i] != a[i];
        }
      }
    }
    if a != b {
      var i := FirstDifference(a, b);
      if a[i] {
        assert AgreeBelow(b, a, i);
      }
    }
  }

  /** The comparator is transitive. */
  lemma LexLessTransitive(a: seq<bool>, b: seq<bool>, c: seq<bool>)
    requires LexLess(a, b) && LexLess(b, c)
    ensures LexLess(a, c)
  {
    var i :| 0 <= i < |a| && AgreeBelow(a, b, i) && !a[i] && b[i];
    var j :| 0 <= j < |b| && AgreeBelow(b, c, j) && !b[j] && c[j];
    if i < j {
      assert AgreeBelow(a, c, i) && !a[i] && c[i];
    } else {
      assert i != j;
      assert AgreeBelow(a, c, j) && !a[j] && c[j];
    }
  }

  // ---------------------------------------------------------------------------
  // Hamming distance
  // ---------------------------------------------------------------------------

  /** Number of indices where two bitsets of one width differ. */
  function Hamming(a: seq<bool>, b: seq<bool>): nat
    requires |a| == |b|
    decreases |a|
  {
    if |a| == 0 then 0
    else Hamming(a[..|a| - 1], b[..|b| - 1]) + (if a[|a| - 1] != b[|b| - 1] then 1 else 0)
  }

  /** The distance is zero exactly for equal bitsets. */
  lemma {:induction false} HammingZeroIffEqual(a: seq<bool>, b: seq<bool>)
    requires |a| == |b|
    ensures Hamming(a, b) == 0 <==> a == b
    decreases |a|
  {
    if |a| > 0 {
      var n := |a| - 1;
      HammingZeroIffEqual(a[..n], b[..n]);
      assert a == a[..n] + [a[n]] && b == b[..n] + [b[n]];
    }
  }

  /** The distance over a concatenation is the sum of the distances of the parts. */
  lemma {:induction false} HammingConcat(a1: seq<bool>, a2: seq<bool>, b1: seq<bool>, b2: seq<bool>)
    requires |a1| == |b1| && |a2| == |b2|
    ensures Hamming(a1 + a2, b1 + b2) == Hamming(a1, b1) + Hamming(a2, b2)
    decreases |a2|
  {
    if |a2| > 0 {
      var n := |a2| - 1;
      var a, b := a1 + a2, b1 + b2;
      assert a[..|a| - 1] == a1 + a2[..n] && a[|a| - 1] == a2[n];
      assert b[..|b| - 1] == b1 + b2[..n] && b[|b| - 1] == b2[n];
      HammingConcat(a1, a2[..n], b1, b2[..n]);
      assert Hamming(a, b) == Hamming(a1 + a2[..n], b1 + b2[..n]) + (if a2[n] != b2[n] then 1 else 0);
      assert Hamming(a2, b2) == Hamming(a2[..n], b2[..n]) + (if a2[n] != b2[n] then 1 else 0);
    } else {
      assert a1 + a2 == a1 && b1 + b2 == b1;
    }
  }

  // ---------------------------------------------------------------------------
  // One-step rotation of a register (s[(i + 1) mod n] = t[i])
  // ---------------------------------------------------------------------------

  /** Moves every entry one place up; the last entry wraps around to index 0. */
  function Rotate<T>(t: seq<T>): (r: seq<T>)
    requires |t| > 0
    ensures |r| == |t|
  {
    [t[|t| - 1]] + t[..|t| - 1]
  }

  /** Entry i of the register lands at index (i + 1) mod n. */
  lemma RotateAt<T>(t: seq<T>, i: nat)
    requires i < |t|
    ensures Rotate(t)[(i + 1) % |t|] == t[i]
  {
    var n := |t|;
    if i == n - 1 {
      assert (i + 1) % n == 0;
    } else {
      assert (i + 1) % n == i + 1;
    }
  }

  /** The inverse rotation. */
  function Unrotate<T>(r: seq<T>): (t: seq<T>)
    requires |r| > 0
    ensures |t| == |r|
  {
    r[1..] + [r[0]]
  }

  /**
    The rotation is a bijection on positions: it has an inverse on both sides and
    it neither loses nor duplicates an entry.
   */
  lemma RotateBijective<T>(t: seq<T>)
    requires |t| > 0
    ensures Unrotate(Rotate(t)) == t
    ensures Rotate(Unrotate(t)) == t
    ensures multiset(Rotate(t)) == multiset(t)
  {
    var n := |t|;
    assert Rotate(t) == [t[n - 1]] + t[..n - 1];
    assert t == t[..n - 1] + [t[n - 1]];
    assert Unrotate(t) == t[1..] + [t[0]];
    assert t == [t[0]] + t[1..];
  }

  // ---------------------------------------------------------------------------
  // Bits of a non-negative integer
  // ---------------------------------------------------------------------------

  function Pow2(d: nat): (p: nat)
    ensures p >= 1
  {
    if d == 0 then 1 else 2 * Pow2(d - 1)
  }

  /** `(n >> i) & 1`: bit i of n, as i halvings and a parity. */
  function Bit(n: nat, i: nat): bool
  {
    if i == 0 then n % 2 == 1 else Bit(n / 2, i - 1)
  }

  /** The number whose bit i is a[i] (least significant first). */
  function BitsValue(a: seq<bool>): nat
  {
    if a == [] then 0 else (if a[0] then 1 else 0) + 2 * BitsValue(a[1..])
  }

  /** BitsValue(a) has |a| bits, and they read back as a. */
  lemma {:induction false} BitsValueRoundTrip(a: seq<bool>)
    ensures BitsValue(a) < Pow2(|a|)
    ensures forall i :: 0 <= i < |a| ==> Bit(BitsValue(a), i) == a[i]
  {
    if a != [] {
      BitsValueRoundTrip(a[1..]);
      var v := BitsValue(a);
      assert v / 2 == BitsValue(a[1..]);
      forall i | 0 <= i < |a|
        ensures Bit(v, i) == a[i]
      {
        if i > 0 {
          assert Bit(v, i) == Bit(v / 2, i - 1);
          assert a[1..][i - 1] == a[i];
        }
      }
    }
  }

  /** Below 2^d a number is determined by its d low bits. */
  lemma {:induction false} BitsDetermine(m: nat, n: nat, d: nat)
    requires m < Pow2(d) && n < Pow2(d)
    requires forall i :: 0 <= i < d ==> Bit(m, i) == Bit(n, i)
    ensures m == n
  {
    if d > 0 {
      forall i | 0 <= i < d - 1
        ensures Bit(m / 2, i) == Bit(n / 2, i)
      {
        assert Bit(m, i + 1) == Bit(n, i + 1);
      }
      BitsDetermine(m / 2, n / 2, d - 1);
      assert Bit(m, 0) == Bit(n, 0);
    }
  }
}
