/**
  TriviumCipher: the reference computations the enumeration is checked
  against. encryptionSum clocks Trivium over every assignment of the cube bits
  and XORs the key-stream bits; theoreticalSum evaluates the superpoly that the
  counting box predicts. Both are stated here, together with the projection
  that folds the counting box onto the monomials of the superpoly.
 */
module TriviumCipher {
  import opened Bits
  import opened CountingBox
  import opened TriviumRules
  import opened TriviumModel
  import opened CubeSums

  /** The 288-bit Trivium state (bitset<288>). */
  type Register = s: seq<bool> | |s| == 288 witness seq(288, i => false)

  // ---------------------------------------------------------------------------
  // One round: roundFuncTrivium
  // ---------------------------------------------------------------------------

  /** The key-stream bit z = x1 + x2 + x3, with x1 = s66 + s93, x2 = s162 + s177, x3 = s243 + s288. */
  function KeystreamBit(o: Register): bool
  {
    Xor(Xor(Xor(o[92], o[65]), Xor(o[176], o[161])), Xor(o[287], o[242]))
  }

  /** The three feedback assignments, in the order the round makes them. */
  function Update(o: Register): Register
  {
    var x1 := Xor(o[92], o[65]);
    var x2 := Xor(o[176], o[161]);
    var x3 := Xor(o[287], o[242]);
    var u1 := o[92 := Xor(Xor(x1, o[91] && o[90]), o[170])];
    var u2 := u1[176 := Xor(Xor(x2, u1[174] && u1[175]), u1[263])];
    u2[287 := Xor(Xor(x3, u2[286] && u2[285]), u2[68])]
  }

  /** The state after one call: the updated state shifted up by one, s288 wrapping round to s1. */
  function Next(o: Register): Register
  {
    Rotate(Update(o))
  }

  /** The number of positions ps that hold 1. */
  function Ones(o: Register, ps: seq<nat>): nat
    requires forall j :: 0 <= j < |ps| ==> ps[j] < 288
  {
    if ps == [] then 0 else Ones(o, ps[..|ps| - 1]) + (if o[ps[|ps| - 1]] then 1 else 0)
  }

  /** The key-stream bit is the parity of the six output positions the target constraint names. */
  lemma KeystreamIsOutputParity(o: Register)
    ensures KeystreamBit(o) <==> Ones(o, Outputs) % 2 == 1
  {
    var b := (i: nat) requires i < 288 => if o[i] then 1 else 0;
    assert [65, 92][..1] == [65] && [65, 92, 161][..2] == [65, 92];
    assert [65, 92, 161, 176][..3] == [65, 92, 161];
    assert [65, 92, 161, 176, 242][..4] == [65, 92, 161, 176];
    assert Outputs[..5] == [65, 92, 161, 176, 242];
    assert Ones(o, [65]) == b(65);
    assert Ones(o, [65, 92]) == b(65) + b(92);
    assert Ones(o, [65, 92, 161]) == b(65) + b(92) + b(161);
    assert Ones(o, [65, 92, 161, 176]) == b(65) + b(92) + b(161) + b(176);
    assert Ones(o, [65, 92, 161, 176, 242]) == b(65) + b(92) + b(161) + b(176) + b(242);
    assert Ones(o, Outputs) == b(65) + b(92) + b(161) + b(176) + b(242) + b(287);
  }

  /** The update of one core c at its fifth position: x5 + x3 x4 + x2 + x1. */
  predicate CoreStepBit(o: Register, u: Register, c: Core)
    requires ValidCore(c, 288)
  {
    u[c.i5] == Xor(Xor(Xor(o[c.i5], o[c.i3] && o[c.i4]), o[c.i2]), o[c.i1])
  }

  /**
    The round function is the three core steps of the division-property model:
    each core's fifth position receives x5 + x3 x4 + x2 + x1, all read on the
    incoming state, and every other position is kept.
   */
  lemma UpdateIsCoreSteps(o: Register)
    ensures ValidCore(Core1, 288) && ValidCore(Core2, 288) && ValidCore(Core3, 288)
    ensures CoreStepBit(o, Update(o), Core1)
    ensures CoreStepBit(o, Update(o), Core2)
    ensures CoreStepBit(o, Update(o), Core3)
    ensures forall j :: 0 <= j < 288 && j != Core1.i5 && j != Core2.i5 && j != Core3.i5 ==> Update(o)[j] == o[j]
  {
    CoresValid();
  }

  /** n calls of the round function. */
  function Clock(s: Register, n: nat): Register
  {
    if n == 0 then s else Next(Clock(s, n - 1))
  }

  // ---------------------------------------------------------------------------
  // encryptionSum
  // ---------------------------------------------------------------------------

  /** The loaded state: key in s1..s80, IV in s94..s173, s286..s288 set, the rest 0. */
  function InitState(key: seq<bool>, iv: seq<bool>): (s: Register)
    requires |key| == 80 && |iv| == 80
  {
    seq(288, i requires 0 <= i < 288 =>
      if i < 80 then key[i] else if 93 <= i < 173 then iv[i - 93] else i >= 285)
  }

  /** The XOR, over the first n values of the counter, of the key-stream bit after `rounds` calls. */
  function CubeSum(s: Register, idx: seq<nat>, rounds: nat, n: nat): bool
    requires CubeFits(idx, 93, 288)
  {
    if n == 0 then false
    else Xor(CubeSum(s, idx, rounds, n - 1), KeystreamBit(Clock(LoadCube(s, 93, idx, n - 1, |idx|), rounds)))
  }

  /** The state loading of encryptionSum: key, IV and the three constant ones. */
  method LoadState(key: seq<bool>, iv: seq<bool>) returns (s: Register)
    requires |key| == 80 && |iv| == 80
    ensures s == InitState(key, iv)
  {
    s := seq(288, i => false);
    for i := 0 to 80
      invariant forall j :: 0 <= j < 288 ==> s[j] == (j < i && key[j])
    {
      s := s[i := key[i]];
    }
    for i := 0 to 80
      invariant forall j :: 0 <= j < 288 ==> s[j] == (if j < 80 then key[j] else 93 <= j < 93 + i && iv[j - 93])
    {
      s := s[93 + i := iv[i]];
    }
    s := s[285 := true][286 := true][287 := true];
  }

  /** The key-stream bit of the last of rounds + 1 calls (z is overwritten by each call). */
  method LastKeystreamBit(t0: Register, rounds: nat) returns (z: bool)
    ensures z == KeystreamBit(Clock(t0, rounds))
  {
    var tmp := t0;
    z := false;
    for r := 0 to rounds + 1
      invariant tmp == Clock(t0, r)
      invariant r > 0 ==> z == KeystreamBit(Clock(t0, r - 1))
    {
      z := KeystreamBit(tmp);
      tmp := Next(tmp);
    }
  }

  /**
    encryptionSum: the sum, over all 2^D values of the D cube bits, of the
    key-stream bit of the (rounds + 1)-th call. The counter 1 << D is an int,
    so D is at most 30.
   */
  method EncryptionSum(rounds: nat, cube: seq<int>, iv: seq<bool>, key: seq<bool>) returns (sum: bool)
    requires |cube| == 80 && |iv| == 80 && |key| == 80
    requires forall i :: 0 <= i < 80 ==> cube[i] == 0 || cube[i] == 1
    requires |CubeIndices(cube)| <= 30
    ensures sum == CubeSum(InitState(key, iv), CubeIndices(cube), rounds, Pow2(|CubeIndices(cube)|))
  {
    var s := LoadState(key, iv);
    var size, map_ := CubeMap(cube);
    assert CubeFits(map_, 93, 288);
    sum := false;
    for v := 0 to Pow2(size)
      invariant sum == CubeSum(s, map_, rounds, v)
    {
      var tmp := LoadCounter(s, 93, map_, v);
      var z := LastKeystreamBit(tmp, rounds);
      sum := Xor(sum, z);
    }
  }

  /** The cube sum does not see the IV bits at cube positions: loading overwrites them. */
  lemma CubeSumIgnoresCubeIV(key: seq<bool>, iv1: seq<bool>, iv2: seq<bool>, cube: seq<int>, rounds: nat, n: nat)
    requires |key| == 80 && |iv1| == 80 && |iv2| == 80 && |cube| == 80
    requires forall i :: 0 <= i < 80 && cube[i] != 1 ==> iv1[i] == iv2[i]
    ensures CubeFits(CubeIndices(cube), 93, 288)
    ensures CubeSum(InitState(key, iv1), CubeIndices(cube), rounds, n) ==
            CubeSum(InitState(key, iv2), CubeIndices(cube), rounds, n)
  {
    var idx := CubeIndices(cube);
    var s1, s2 := InitState(key, iv1), InitState(key, iv2);
    forall p | 0 <= p < 288 && s1[p] != s2[p]
      ensures exists i :: 0 <= i < |idx| && p == 93 + idx[i]
    {
      assert 93 <= p < 173 && cube[p - 93] == 1;
      assert p - 93 in idx;
    }
    forall v: nat
      ensures LoadCube(s1, 93, idx, v, |idx|) == LoadCube(s2, 93, idx, v, |idx|)
    {
      LoadCubeOverwrites(s1, s2, 93, idx, v);
    }
    var k := 0;
    while k < n
      invariant k <= n && CubeSum(s1, idx, rounds, k) == CubeSum(s2, idx, rounds, k)
    {
      assert LoadCube(s1, 93, idx, k, |idx|) == LoadCube(s2, 93, idx, k, |idx|);
      k := k + 1;
    }
  }

  // ---------------------------------------------------------------------------
  // theoreticalSum
  // ---------------------------------------------------------------------------

  /**
    The factor position i of a monomial contributes: the key bit for s1..s80,
    the IV bit for a non-cube IV position, 1 for a cube position and every
    other position.
   */
  predicate Factor(i: nat, key: seq<bool>, iv: seq<bool>, cube: seq<int>)
    requires |key| == 80 && |iv| == 80 && |cube| == 80
  {
    if i < 80 then key[i]
    else if 93 <= i < 93 + 80 then cube[i - 93] != 0 || iv[i - 93]
    else true
  }

  /** The monomial with key k evaluates to 1. */
  predicate MonoHolds(k: Key, key: seq<bool>, iv: seq<bool>, cube: seq<int>)
    requires |key| == 80 && |iv| == 80 && |cube| == 80
  {
    forall i :: 0 <= i < |k| && k[i] ==> Factor(i, key, iv, cube)
  }

  /** The product var over the positions of the key, one factor at a time. */
  method MonomialValue(k: Key, key: seq<bool>, iv: seq<bool>, cube: seq<int>) returns (v: bool)
    requires |key| == 80 && |iv| == 80 && |cube| == 80 && |k| == 288
    ensures v == MonoHolds(k, key, iv, cube)
  {
    v := true;
    for i := 0 to 288
      invariant v == forall j :: 0 <= j < i && k[j] ==> Factor(j, key, iv, cube)
    {
      if k[i] {
        if i < 80 {
          v := v && key[i];
        } else if 93 <= i < 93 + 80 {
          if cube[i - 93] == 0 {
            v := v && iv[i - 93];
          }
        }
      }
    }
  }

  /** 1 for a 288-bit monomial that evaluates to 1, else 0. */
  function Weight(k: Key, key: seq<bool>, iv: seq<bool>, cube: seq<int>): int
    requires |key| == 80 && |iv| == 80 && |cube| == 80
  {
    if |k| == 288 && MonoHolds(k, key, iv, cube) then 1 else 0
  }

  /**
    The value of the superpoly the box predicts: the parity of the sum, over
    the monomials, of trail count times monomial value.
   */
  ghost predicate Superpoly(box: Box, key: seq<bool>, iv: seq<bool>, cube: seq<int>)
    requires |key| == 80 && |iv| == 80 && |cube| == 80
  {
    WTotal(box, k => Weight(k, key, iv, cube)) % 2 == 1
  }

  /**
    theoreticalSum: the XOR, over the monomials of odd trail count, of their
    values. It is the superpoly the box predicts; the order in which the map is
    walked does not matter.
   */
  method TheoreticalSum(box: Box, cube: seq<int>, iv: seq<bool>, key: seq<bool>) returns (sum: bool)
    requires |key| == 80 && |iv| == 80 && |cube| == 80
    requires forall k :: k in box ==> |k| == 288
    ensures sum == Superpoly(box, key, iv, cube)
  {
    ghost var w := k => Weight(k, key, iv, cube);
    sum := false;
    var rest := box.Keys;
    while rest != {}
      invariant rest <= box.Keys
      invariant sum == (WSum(box, box.Keys - rest, w) % 2 == 1)
      decreases rest
    {
      var k :| k in rest;
      ghost var done := box.Keys - rest;
      if box[k] % 2 == 1 {
        var v := MonomialValue(k, key, iv, cube);
        sum := Xor(sum, v);
      }
      rest := rest - {k};
      assert box.Keys - rest == done + {k};
      ParityStep(box, done, k, w);
    }
    assert box.Keys - rest == box.Keys;
  }

  // ---------------------------------------------------------------------------
  // The projection onto the superpoly's monomials
  // ---------------------------------------------------------------------------

  /** Position p is cleared: a cube IV bit or one of s286..s288. */
  predicate Cleared(cube: seq<int>, p: int)
    requires |cube| == 80
  {
    (93 <= p < 93 + 80 && cube[p - 93] == 1) || 285 <= p < 288
  }

  /**
    The positions the projection clears: exactly the cube IV bits and
    s286..s288, never a key bit.
   */
  function ZeroSet(cube: seq<int>): (z: set<int>)
    requires |cube| == 80
    ensures forall p :: p in z ==> 93 <= p < 288
    ensures forall i :: 0 <= i < 80 ==> (93 + i in z <==> cube[i] == 1)
    ensures 285 in z && 286 in z && 287 in z
    ensures forall p :: p in z && p < 285 ==> 93 <= p < 173 && cube[p - 93] == 1
  {
    set p | 0 <= p < 288 && Cleared(cube, p)
  }

  /** Clearing those positions never changes the value of a monomial. */
  lemma ZeroSetKeepsWeight(k: Key, key: seq<bool>, iv: seq<bool>, cube: seq<int>)
    requires |key| == 80 && |iv| == 80 && |cube| == 80
    ensures Weight(Zeroed(k, ZeroSet(cube)), key, iv, cube) == Weight(k, key, iv, cube)
  {
    var z := ZeroSet(cube);
    var k2 := Zeroed(k, z);
    forall i | 0 <= i < |k| && i in z
      ensures Factor(i, key, iv, cube)
    {
    }
  }

  /**
    The aggregation into countingBox2: every key has the cube IV bits and
    s286..s288 cleared and the counts of keys that meet are added. No trail is
    lost, and for every key and IV the superpoly the box predicts is unchanged.
   */
  method AggregateTrivium(box: Box, cube: seq<int>, ghost key: seq<bool>, ghost iv: seq<bool>) returns (box2: Box)
    requires |key| == 80 && |iv| == 80 && |cube| == 80
    ensures forall k :: Get(box2, k) == SumOver(box, Preimage(box.Keys, ZeroSet(cube), k))
    ensures Total(box2) == Total(box)
    ensures Superpoly(box2, key, iv, cube) == Superpoly(box, key, iv, cube)
  {
    var z: set<int> := {};
    for i := 0 to 80
      invariant forall p :: p in z <==> p < 93 + i && Cleared(cube, p)
    {
      if cube[i] == 1 {
        z := z + {93 + i};
      }
    }
    z := z + {285, 286, 287};
    assert z == ZeroSet(cube);
    ghost var w := k => Weight(k, key, iv, cube);
    forall k
      ensures w(Zeroed(k, z)) == w(k)
    {
      ZeroSetKeepsWeight(k, key, iv, cube);
    }
    box2 := Aggregate(box, z, w);
  }
}
