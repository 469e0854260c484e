/**
  GrainCipher: the reference computations the Grain-128a enumeration is
  checked against. encryptionSum runs the initialization of Grain-128a over
  every assignment of the cube bits and XORs the pre-output bits;
  theoreticalSum evaluates the superpoly the counting box predicts. Both are
  stated here, together with the projection that folds the counting box onto
  the monomials of the superpoly.
 */
module GrainCipher {
  import opened Bits
  import opened CountingBox
  import opened CubeSums

  /** A 128-bit register (bitset<128>). */
  type Register = s: seq<bool> | |s| == 128 witness seq(128, i => false)

  /** The NFSR b and the LFSR s. */
  datatype Cipher = Cipher(b: Register, s: Register)

  // ---------------------------------------------------------------------------
  // One round: roundFuncGrain128a
  // ---------------------------------------------------------------------------

  /** The LFSR feedback f = s0 + s7 + s38 + s70 + s81 + s96. */
  function F(c: Cipher): bool
  {
    var s := c.s;
    Xor(Xor(Xor(s[0], s[7]), Xor(s[38], s[70])), Xor(s[81], s[96]))
  }

  /** The NFSR feedback g, including the s0 that Grain-128a adds to it. */
  function G(c: Cipher): bool
  {
    var b := c.b;
    var lin := Xor(Xor(Xor(c.s[0], b[0]), Xor(b[26], b[56])), Xor(b[91], b[96]));
    var quad := Xor(Xor(Xor(b[3] && b[67], b[11] && b[13]), Xor(b[17] && b[18], b[27] && b[59])),
                    Xor(Xor(b[40] && b[48], b[61] && b[65]), b[68] && b[84]));
    var high := Xor(Xor(b[88] && b[92] && b[93] && b[95], b[22] && b[24] && b[25]), b[70] && b[78] && b[82]);
    Xor(Xor(lin, quad), high)
  }

  /** h = b12 s8 + s13 s20 + b95 s42 + s60 s79 + b12 b95 s94. */
  function H(c: Cipher): bool
  {
    var b, s := c.b, c.s;
    Xor(Xor(Xor(b[12] && s[8], s[13] && s[20]), Xor(b[95] && s[42], s[60] && s[79])), b[12] && b[95] && s[94])
  }

  /** The linear part s93 + b2 + b15 + b36 + b45 + b64 + b73 + b89 of the output. */
  function Linear(c: Cipher): bool
  {
    var b := c.b;
    Xor(Xor(Xor(c.s[93], b[2]), Xor(b[15], b[36])), Xor(Xor(b[45], b[64]), Xor(b[73], b[89])))
  }

  /** The pre-output bit y = h + the linear part, read before the registers move. */
  function Output(c: Cipher): bool
  {
    Xor(H(c), Linear(c))
  }

  /** Both registers shift toward index 0; y is fed back into both (initialization mode). */
  function Next(c: Cipher): Cipher
  {
    var y := Output(c);
    Cipher(c.b[1..] + [Xor(G(c), y)], c.s[1..] + [Xor(F(c), y)])
  }

  /** n calls of the round function. */
  function Clock(c: Cipher, n: nat): Cipher
  {
    if n == 0 then c else Next(Clock(c, n - 1))
  }

  /** The term of the output that target t evaluates: the five products of h, then the linear part. */
  function TargetTerm(c: Cipher, t: int): bool
  {
    var b, s := c.b, c.s;
    if t == 1 then b[12] && b[95] && s[94]
    else if t == 2 then s[60] && s[79]
    else if t == 3 then b[95] && s[42]
    else if t == 4 then s[13] && s[20]
    else if t == 5 then b[12] && s[8]
    else if t == 6 then Linear(c)
    else false
  }

  function AsCount(p: bool): nat { if p then 1 else 0 }

  /** The number of targets 1..n whose term is 1. */
  function TermsOn(c: Cipher, n: nat): nat
  {
    if n == 0 then 0 else TermsOn(c, n - 1) + AsCount(TargetTerm(c, n))
  }

  /**
    The output bit is the parity of the six target terms, so the trails of
    the six runs, counted into one box, are the trails of the output bit.
   */
  lemma OutputIsTargetParity(c: Cipher)
    ensures Output(c) <==> TermsOn(c, 6) % 2 == 1
  {
    var x1, x2, x3 := TargetTerm(c, 1), TargetTerm(c, 2), TargetTerm(c, 3);
    var x4, x5, x6 := TargetTerm(c, 4), TargetTerm(c, 5), TargetTerm(c, 6);
    assert TermsOn(c, 1) == AsCount(x1);
    assert TermsOn(c, 2) == TermsOn(c, 1) + AsCount(x2);
    assert TermsOn(c, 3) == TermsOn(c, 2) + AsCount(x3);
    assert TermsOn(c, 4) == TermsOn(c, 3) + AsCount(x4);
    assert TermsOn(c, 5) == TermsOn(c, 4) + AsCount(x5);
    assert TermsOn(c, 6) == TermsOn(c, 5) + AsCount(x6);
    assert Output(c) == Xor(Xor(Xor(Xor(x5, x4), Xor(x3, x2)), x1), x6);
    SixParity(x1, x2, x3, x4, x5, x6);
  }

  /** The XOR of six bits, grouped as h and the linear part group them, is the parity of their count. */
  lemma SixParity(x1: bool, x2: bool, x3: bool, x4: bool, x5: bool, x6: bool)
    ensures Xor(Xor(Xor(Xor(x5, x4), Xor(x3, x2)), x1), x6) <==>
            (AsCount(x1) + AsCount(x2) + AsCount(x3) + AsCount(x4) + AsCount(x5) + AsCount(x6)) % 2 == 1
  {
  }

  // ---------------------------------------------------------------------------
  // encryptionSum
  // ---------------------------------------------------------------------------

  /** The loaded state: the key in the NFSR, the IV in the LFSR. */
  function InitState(key: seq<bool>, iv: seq<bool>): Cipher
    requires |key| == 128 && |iv| == 128
  {
    Cipher(key, iv)
  }

  method LoadState(key: seq<bool>, iv: seq<bool>) returns (c: Cipher)
    requires |key| == 128 && |iv| == 128
    ensures c == InitState(key, iv)
  {
    var b: Register := seq(128, i => false);
    var s: Register := seq(128, i => false);
    for i := 0 to 128
      invariant forall j :: 0 <= j < 128 ==> b[j] == (j < i && key[j])
    {
      b := b[i := key[i]];
    }
    for i := 0 to 128
      invariant forall j :: 0 <= j < 128 ==> s[j] == (j < i && iv[j])
    {
      s := s[i := iv[i]];
    }
    c := Cipher(b, s);
  }

  /** The XOR, over the first n values of the counter, of the output bit after `rounds` calls. */
  function CubeSum(c: Cipher, idx: seq<nat>, rounds: nat, n: nat): bool
    requires CubeFits(idx, 0, 128)
  {
    if n == 0 then false
    else Xor(CubeSum(c, idx, rounds, n - 1), Output(Clock(Cipher(c.b, LoadCube(c.s, 0, idx, n - 1, |idx|)), rounds)))
  }

  /** The output bit of the last of rounds + 1 calls (z is overwritten by each call). */
  method LastOutputBit(t0: Cipher, rounds: nat) returns (z: bool)
    ensures z == Output(Clock(t0, rounds))
  {
    var tmp := t0;
    z := false;
    for r := 0 to rounds + 1
      invariant tmp == Clock(t0, r)
      invariant r > 0 ==> z == Output(Clock(t0, r - 1))
    {
      z := Output(tmp);
      tmp := Next(tmp);
    }
  }

  /**
    encryptionSum: the sum, over all 2^D values of the D cube bits, of the
    pre-output bit of the (rounds + 1)-th call. The counter 1 << D is an int,
    so D is at most 30.
   */
  method EncryptionSum(rounds: nat, cube: seq<int>, iv: seq<bool>, key: seq<bool>) returns (sum: bool)
    requires |cube| == 96 && |iv| == 128 && |key| == 128
    requires forall i :: 0 <= i < 96 ==> cube[i] == 0 || cube[i] == 1
    requires |CubeIndices(cube)| <= 30
    ensures sum == CubeSum(InitState(key, iv), CubeIndices(cube), rounds, Pow2(|CubeIndices(cube)|))
  {
    var c := LoadState(key, iv);
    var size, map_ := CubeMap(cube);
    assert CubeFits(map_, 0, 128);
    sum := false;
    for v := 0 to Pow2(size)
      invariant sum == CubeSum(c, map_, rounds, v)
    {
      var z := CounterTrial(c, map_, rounds, v);
      sum := Xor(sum, z);
    }
  }

  /** One pass of the counter loop: load counter value v into the cube bits of a copy, clock, read the bit. */
  method CounterTrial(c: Cipher, idx: seq<nat>, rounds: nat, v: nat) returns (z: bool)
    requires CubeFits(idx, 0, 128)
    ensures Xor(CubeSum(c, idx, rounds, v), z) == CubeSum(c, idx, rounds, v + 1)
  {
    var tmpS := LoadCounter(c.s, 0, idx, v);
    z := LastOutputBit(Cipher(c.b, tmpS), rounds);
  }

  /** Two states whose LFSRs differ only at cube positions give the same cube sum. */
  lemma CubeSumIgnoresLoaded(c1: Cipher, c2: Cipher, idx: seq<nat>, rounds: nat, n: nat)
    requires c1.b == c2.b && CubeFits(idx, 0, 128) && Increasing(idx)
    requires forall p :: 0 <= p < 128 && c1.s[p] != c2.s[p] ==> exists i :: 0 <= i < |idx| && p == 0 + idx[i]
    ensures CubeSum(c1, idx, rounds, n) == CubeSum(c2, idx, rounds, n)
  {
    forall v: nat
      ensures LoadCube(c1.s, 0, idx, v, |idx|) == LoadCube(c2.s, 0, idx, v, |idx|)
    {
      LoadCubeOverwrites(c1.s, c2.s, 0, idx, v);
    }
    CubeSumSameLoads(c1, c2, idx, rounds, n);
  }

  /** Two states with the same NFSR that load to the same LFSR for every counter value have the same cube sum. */
  lemma CubeSumSameLoads(c1: Cipher, c2: Cipher, idx: seq<nat>, rounds: nat, n: nat)
    requires c1.b == c2.b && CubeFits(idx, 0, 128)
    requires forall v: nat :: LoadCube(c1.s, 0, idx, v, |idx|) == LoadCube(c2.s, 0, idx, v, |idx|)
    ensures CubeSum(c1, idx, rounds, n) == CubeSum(c2, idx, rounds, n)
  {
    var k := 0;
    while k < n
      invariant k <= n && CubeSum(c1, idx, rounds, k) == CubeSum(c2, idx, rounds, k)
    {
      var t := Cipher(c1.b, LoadCube(c1.s, 0, idx, k, |idx|));
      assert t == Cipher(c2.b, LoadCube(c2.s, 0, idx, k, |idx|));
      k := k + 1;
    }
  }

  /** The cube sum does not see the IV bits at cube positions: loading overwrites them. */
  lemma CubeSumIgnoresCubeIV(key: seq<bool>, iv1: seq<bool>, iv2: seq<bool>, cube: seq<int>, rounds: nat, n: nat)
    requires |key| == 128 && |iv1| == 128 && |iv2| == 128 && |cube| == 96
    requires forall i :: 0 <= i < 128 && (i >= 96 || cube[i] != 1) ==> iv1[i] == iv2[i]
    ensures CubeFits(CubeIndices(cube), 0, 128)
    ensures CubeSum(InitState(key, iv1), CubeIndices(cube), rounds, n) ==
            CubeSum(InitState(key, iv2), CubeIndices(cube), rounds, n)
  {
    var idx := CubeIndices(cube);
    forall p | 0 <= p < 128 && iv1[p] != iv2[p]
      ensures exists i :: 0 <= i < |idx| && p == 0 + idx[i]
    {
      assert p < 96 && cube[p] == 1;
      assert p in idx;
    }
    CubeSumIgnoresLoaded(InitState(key, iv1), InitState(key, iv2), idx, rounds, n);
  }

  // ---------------------------------------------------------------------------
  // theoreticalSum
  // ---------------------------------------------------------------------------

  /**
    The factor position i of a 256-bit monomial contributes: the key bit for
    b0..b127, 1 for a cube IV bit, and the IV bit for every other LFSR position,
    including the positions 96..127 that lie past the 96-entry cube.
   */
  predicate Factor(i: nat, key: seq<bool>, iv: seq<bool>, cube: seq<int>)
    requires |key| == 128 && |iv| == 128 && |cube| == 96
  {
    if i < 128 then key[i]
    else if i < 128 + 96 then cube[i - 128] != 0 || iv[i - 128]
    else i < 256 ==> iv[i - 128]
  }

  /** The monomial with key k evaluates to 1. */
  predicate MonoHolds(k: Key, key: seq<bool>, iv: seq<bool>, cube: seq<int>)
    requires |key| == 128 && |iv| == 128 && |cube| == 96
  {
    forall i :: 0 <= i < |k| && k[i] ==> Factor(i, key, iv, cube)
  }

  /** The product var over the positions of the key, one factor at a time. */
  method MonomialValue(k: Key, key: seq<bool>, iv: seq<bool>, cube: seq<int>) returns (v: bool)
    requires |key| == 128 && |iv| == 128 && |cube| == 96 && |k| == 256
    ensures v == MonoHolds(k, key, iv, cube)
  {
    v := true;
    for i := 0 to 256
      invariant v == forall j :: 0 <= j < i && k[j] ==> Factor(j, key, iv, cube)
    {
      if k[i] {
        if i < 128 {
          v := v && key[i];
        } else if i - 128 >= 96 || cube[i - 128] == 0 {
          v := v && iv[i - 128];
        }
      }
    }
  }

  /**
    The factor as the loop is written: it reads cube[i - 128] for every LFSR
    position, so for i >= 224 it reads past the 96 entries. pad stands for the
    32 values found there.
   */
  predicate FactorAsWritten(i: nat, key: seq<bool>, iv: seq<bool>, cube: seq<int>, pad: seq<int>)
    requires |key| == 128 && |iv| == 128 && |cube| == 96 && |pad| == 32
  {
    if i < 128 then key[i]
    else if i < 256 then (cube + pad)[i - 128] != 0 || iv[i - 128]
    else true
  }

  predicate MonoHoldsAsWritten(k: Key, key: seq<bool>, iv: seq<bool>, cube: seq<int>, pad: seq<int>)
    requires |key| == 128 && |iv| == 128 && |cube| == 96 && |pad| == 32
  {
    forall i :: 0 <= i < |k| && k[i] ==> FactorAsWritten(i, key, iv, cube, pad)
  }

  /**
    The loop as written drops the IV factor of an LFSR position past the cube
    when the value read there is not 0: with IV bit 96 equal to 0, the
    monomial s96 evaluates to 1 instead of 0.
   */
  lemma AsWrittenDropsIVFactor()
    ensures var key, iv := seq(128, i => false), seq(128, i => false);
      var cube, pad := seq(96, i => 0), seq(32, i => 1);
      var k := seq(256, i => i == 224);
      MonoHoldsAsWritten(k, key, iv, cube, pad) && !MonoHolds(k, key, iv, cube)
  {
    var key, iv := seq(128, i => false), seq(128, i => false);
    var cube, pad := seq(96, i => 0), seq(32, i => 1);
    var k := seq(256, i => i == 224);
    assert !Factor(224, key, iv, cube);
    forall i | 0 <= i < |k| && k[i]
      ensures FactorAsWritten(i, key, iv, cube, pad)
    {
      assert i == 224;
      assert (cube + pad)[96] == 1;
    }
  }

  /**
    The two agree whenever every IV bit past the cube whose out-of-range entry
    is not 0 is 1, as with the IV padding of ones that the test driver uses.
   */
  lemma AsWrittenAgrees(k: Key, key: seq<bool>, iv: seq<bool>, cube: seq<int>, pad: seq<int>)
    requires |key| == 128 && |iv| == 128 && |cube| == 96 && |pad| == 32 && |k| == 256
    requires forall j :: 96 <= j < 128 && pad[j - 96] != 0 ==> iv[j]
    ensures MonoHoldsAsWritten(k, key, iv, cube, pad) == MonoHolds(k, key, iv, cube)
  {
    forall i | 0 <= i < 256
      ensures FactorAsWritten(i, key, iv, cube, pad) == Factor(i, key, iv, cube)
    {
      if 128 <= i {
        assert (cube + pad)[i - 128] == if i - 128 < 96 then cube[i - 128] else pad[i - 224];
      }
    }
  }

  /** 1 for a 256-bit monomial that evaluates to 1, else 0. */
  function Weight(k: Key, key: seq<bool>, iv: seq<bool>, cube: seq<int>): int
    requires |key| == 128 && |iv| == 128 && |cube| == 96
  {
    if |k| == 256 && MonoHolds(k, key, iv, cube) then 1 else 0
  }

  /** The value of the superpoly the box predicts: the parity of the sum of count times value. */
  ghost predicate Superpoly(box: Box, key: seq<bool>, iv: seq<bool>, cube: seq<int>)
    requires |key| == 128 && |iv| == 128 && |cube| == 96
  {
    WTotal(box, k => Weight(k, key, iv, cube)) % 2 == 1
  }

  /**
    theoreticalSum: the XOR, over the monomials of odd trail count, of their
    values, with the IV factor of every non-cube LFSR position.
   */
  method TheoreticalSum(box: Box, cube: seq<int>, iv: seq<bool>, key: seq<bool>) returns (sum: bool)
    requires |key| == 128 && |iv| == 128 && |cube| == 96
    requires forall k :: k in box ==> |k| == 256
    ensures sum == Superpoly(box, key, iv, cube)
  {
    ghost var w := k => Weight(k, key, iv, cube);
    sum := false;
    var rest := box.Keys;
    while rest != {}
      invariant rest <= box.Keys
      invariant sum == (WSum(box, box.Keys - rest, w) % 2 == 1)
      decreases rest
    {
      var k :| k in rest;
      ghost var done := box.Keys - rest;
      if box[k] % 2 == 1 {
        var v := MonomialValue(k, key, iv, cube);
        sum := Xor(sum, v);
      }
      rest := rest - {k};
      assert box.Keys - rest == done + {k};
      ParityStep(box, done, k, w);
    }
    assert box.Keys - rest == box.Keys;
  }

  // ---------------------------------------------------------------------------
  // The projection onto the superpoly's monomials
  // ---------------------------------------------------------------------------

  /** Position p of a 256-bit key is cleared: a cube IV bit or one of the LFSR positions 96..127. */
  predicate Cleared(cube: seq<int>, p: int)
    requires |cube| == 96
  {
    128 <= p < 256 && (p >= 224 || cube[p - 128] == 1)
  }

  /**
    The positions the projection clears: exactly the cube IV bits and the LFSR
    positions 96..127, never a key bit.
   */
  function ZeroSet(cube: seq<int>): (z: set<int>)
    requires |cube| == 96
    ensures forall p :: p in z ==> 128 <= p < 256
    ensures forall i :: 0 <= i < 96 ==> (128 + i in z <==> cube[i] == 1)
    ensures forall p :: 224 <= p < 256 ==> p in z
  {
    set p | 128 <= p < 256 && Cleared(cube, p)
  }

  /**
    Position p is cleared by grain128aSub: its first loop runs up to 128 and
    reads the cube past its 96 entries (pad), but the second loop clears
    224..255 anyway.
   */
  predicate ClearedSub(cube: seq<int>, pad: seq<int>, p: int)
    requires |cube| == 96 && |pad| == 32
  {
    128 <= p < 256 && ((cube + pad)[p - 128] == 1 || p >= 224)
  }

  function ZeroSetSub(cube: seq<int>, pad: seq<int>): (z: set<int>)
    requires |cube| == 96 && |pad| == 32
    ensures forall p :: p in z ==> 128 <= p < 256
  {
    set p | 128 <= p < 256 && ClearedSub(cube, pad, p)
  }

  /** What grain128aSub reads past the cube does not change the cleared positions. */
  lemma ZeroSetSubSame(cube: seq<int>, pad: seq<int>)
    requires |cube| == 96 && |pad| == 32
    ensures ZeroSetSub(cube, pad) == ZeroSet(cube)
  {
    forall p | 128 <= p < 256
      ensures ClearedSub(cube, pad, p) == Cleared(cube, p)
    {
      if p < 224 {
        assert (cube + pad)[p - 128] == cube[p - 128];
      }
    }
  }

  /**
    Clearing those positions does not change the value of a monomial whose
    last LFSR bit is clear (the model fixes s127 to 0), for an IV whose bits
    96..126 are 1.
   */
  lemma ZeroSetKeepsWeight(k: Key, key: seq<bool>, iv: seq<bool>, cube: seq<int>)
    requires |key| == 128 && |iv| == 128 && |cube| == 96
    requires forall j :: 96 <= j < 127 ==> iv[j]
    requires |k| == 256 ==> !k[255]
    ensures Weight(Zeroed(k, ZeroSet(cube)), key, iv, cube) == Weight(k, key, iv, cube)
  {
    var z := ZeroSet(cube);
    var k2 := Zeroed(k, z);
    if |k| == 256 {
      forall i | 0 <= i < |k| && k[i] && i in z
        ensures Factor(i, key, iv, cube)
      {
      }
    }
  }

  /**
    The aggregation into countingBox2: every key has the cube IV bits and
    the LFSR positions 96..127 cleared and the counts of keys that meet are
    added. No trail is lost, and for an IV whose bits 96..126 are 1 the
    superpoly the box predicts is unchanged.
   */
  method AggregateGrain(box: Box, cube: seq<int>, ghost key: seq<bool>, ghost iv: seq<bool>) returns (box2: Box)
    requires |key| == 128 && |iv| == 128 && |cube| == 96
    requires forall j :: 96 <= j < 127 ==> iv[j]
    requires forall k :: k in box ==> |k| == 256 && !k[255]
    ensures forall k :: Get(box2, k) == SumOver(box, Preimage(box.Keys, ZeroSet(cube), k))
    ensures Total(box2) == Total(box)
    ensures Superpoly(box2, key, iv, cube) == Superpoly(box, key, iv, cube)
  {
    var z: set<int> := {};
    for i := 0 to 96
      invariant forall p :: p in z <==> p < 128 + i && Cleared(cube, p)
    {
      if cube[i] == 1 {
        z := z + {128 + i};
      }
    }
    for i := 96 to 128
      invariant forall p :: p in z <==> p < 128 + i && Cleared(cube, p)
    {
      z := z + {128 + i};
    }
    assert z == ZeroSet(cube);
    ghost var w := k => Weight(k, key, iv, cube);
    forall k | k in box
      ensures w(Zeroed(k, z)) == w(k)
    {
      ZeroSetKeepsWeight(k, key, iv, cube);
    }
    box2 := Aggregate(box, z, w);
  }
}
