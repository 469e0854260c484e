/**
  CubeSums: the part of encryptionSum that both ciphers share. The cube
  indices are collected into `map`; a counter `in` runs over 0 .. 2^D - 1 and
  its bit i is written into the register position of the i-th cube index.
 */
module CubeSums {
  import opened Bits

  function Xor(a: bool, b: bool): bool { a != b }

  predicate Increasing(idx: seq<nat>)
  {
    forall j, k :: 0 <= j < k < |idx| ==> idx[j] < idx[k]
  }

  /** The indices i with cube[i] == 1, in increasing order. */
  function CubeIndices(cube: seq<int>): (idx: seq<nat>)
    ensures forall j :: 0 <= j < |idx| ==> idx[j] < |cube| && cube[idx[j]] == 1
    ensures Increasing(idx)
    ensures forall i :: 0 <= i < |cube| && cube[i] == 1 ==> i in idx
  {
    if cube == [] then []
    else
      var n := |cube| - 1;
      CubeIndices(cube[..n]) + (if cube[n] == 1 then [n] else [])
  }

  /** DATA_SIZE and map: the number of cube bits (the sum of the 0/1 entries) and their indices. */
  method CubeMap(cube: seq<int>) returns (size: nat, idx: seq<nat>)
    requires forall i :: 0 <= i < |cube| ==> cube[i] == 0 || cube[i] == 1
    ensures idx == CubeIndices(cube) && size == |idx|
  {
    size := 0;
    idx := [];
    for i := 0 to |cube|
      invariant idx == CubeIndices(cube[..i]) && size == |idx|
    {
      assert cube[..i + 1][..i] == cube[..i];
      size := size + cube[i];
      if cube[i] == 1 {
        idx := idx + [i];
      }
    }
    assert cube[..|cube|] == cube;
  }

  /** Every cube index, moved by off, is a position of a register of n bits. */
  predicate CubeFits(idx: seq<nat>, off: nat, n: nat)
  {
    forall j :: 0 <= j < |idx| ==> off + idx[j] < n
  }

  /** tmp[off + map[i]] = bit i of the counter v, for the first n cube indices. */
  function LoadCube(reg: seq<bool>, off: nat, idx: seq<nat>, v: nat, n: nat): (r: seq<bool>)
    requires n <= |idx| && CubeFits(idx, off, |reg|)
    ensures |r| == |reg|
  {
    if n == 0 then reg else LoadCube(reg, off, idx, v, n - 1)[off + idx[n - 1] := Bit(v, n - 1)]
  }

  /** The loop that loads one counter value. */
  method LoadCounter(reg: seq<bool>, off: nat, idx: seq<nat>, v: nat) returns (tmp: seq<bool>)
    requires CubeFits(idx, off, |reg|)
    ensures tmp == LoadCube(reg, off, idx, v, |idx|)
  {
    tmp := reg;
    for i := 0 to |idx|
      invariant tmp == LoadCube(reg, off, idx, v, i)
    {
      tmp := tmp[off + idx[i] := Bit(v, i)];
    }
  }

  /** Loading sets position off + idx[i] to bit i of the counter and leaves every other position. */
  lemma {:induction false} LoadCubeAt(reg: seq<bool>, off: nat, idx: seq<nat>, v: nat, n: nat)
    requires n <= |idx| && CubeFits(idx, off, |reg|) && Increasing(idx)
    ensures forall i :: 0 <= i < n ==> LoadCube(reg, off, idx, v, n)[off + idx[i]] == Bit(v, i)
    ensures forall p :: 0 <= p < |reg| && (forall i :: 0 <= i < n ==> p != off + idx[i]) ==>
              LoadCube(reg, off, idx, v, n)[p] == reg[p]
  {
    if n > 0 {
      LoadCubeAt(reg, off, idx, v, n - 1);
    }
  }

  /** Different counter values below 2^D load different cube assignments. */
  lemma CubeAssignmentsInjective(reg: seq<bool>, off: nat, idx: seq<nat>, v1: nat, v2: nat)
    requires CubeFits(idx, off, |reg|) && Increasing(idx)
    requires v1 < Pow2(|idx|) && v2 < Pow2(|idx|) && v1 != v2
    ensures LoadCube(reg, off, idx, v1, |idx|) != LoadCube(reg, off, idx, v2, |idx|)
  {
    var l1, l2 := LoadCube(reg, off, idx, v1, |idx|), LoadCube(reg, off, idx, v2, |idx|);
    LoadCubeAt(reg, off, idx, v1, |idx|);
    LoadCubeAt(reg, off, idx, v2, |idx|);
    if l1 == l2 {
      forall i | 0 <= i < |idx|
        ensures Bit(v1, i) == Bit(v2, i)
      {
        assert l1[off + idx[i]] == l2[off + idx[i]];
      }
      BitsDetermine(v1, v2, |idx|);
    }
  }

  /** Every assignment a of the cube bits is loaded by some counter value below 2^D. */
  lemma CubeAssignmentsOnto(reg: seq<bool>, off: nat, idx: seq<nat>, a: seq<bool>) returns (v: nat)
    requires CubeFits(idx, off, |reg|) && Increasing(idx)
    requires |a| == |idx|
    ensures v < Pow2(|idx|)
    ensures forall i :: 0 <= i < |idx| ==> LoadCube(reg, off, idx, v, |idx|)[off + idx[i]] == a[i]
  {
    v := BitsValue(a);
    BitsValueRoundTrip(a);
    LoadCubeAt(reg, off, idx, v, |idx|);
  }

  /** Two registers that differ at most at cube positions are equal once the cube is loaded. */
  lemma LoadCubeOverwrites(r1: seq<bool>, r2: seq<bool>, off: nat, idx: seq<nat>, v: nat)
    requires |r1| == |r2| && CubeFits(idx, off, |r1|) && Increasing(idx)
    requires forall p :: 0 <= p < |r1| && r1[p] != r2[p] ==> exists i :: 0 <= i < |idx| && p == off + idx[i]
    ensures LoadCube(r1, off, idx, v, |idx|) == LoadCube(r2, off, idx, v, |idx|)
  {
    var l1, l2 := LoadCube(r1, off, idx, v, |idx|), LoadCube(r2, off, idx, v, |idx|);
    LoadCubeAt(r1, off, idx, v, |idx|);
    LoadCubeAt(r2, off, idx, v, |idx|);
    forall p | 0 <= p < |r1|
      ensures l1[p] == l2[p]
    {
      if i :| 0 <= i < |idx| && p == off + idx[i] {
        assert l1[off + idx[i]] == Bit(v, i) == l2[off + idx[i]];
      } else {
        assert r1[p] == r2[p];
      }
    }
  }
}
