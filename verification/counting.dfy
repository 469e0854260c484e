/**
  CountingBox: the map from a monomial u (the round-0 division property, as a
  bitset) to the number of division trails J[u] found for it, and the
  bookkeeping done on it once the solver has produced its solution pool.
 */
module CountingBox {
  import opened Bits

  /** A monomial key: the bitset of round-0 positions that are 1. */
  type Key = seq<bool>

  /** countingBox: key -> number of trails found so far. */
  type Box = map<Key, nat>

  /** `countingBox[k]` reads 0 for a key that was never stored. */
  function Get(box: Box, k: Key): nat
  {
    if k in box then box[k] else 0
  }

  /** The solution pool is refused (the program stops) at this many solutions. */
  const PoolLimit: int := 2000000000

  datatype Outcome = Counted(box: Box, solCount: int) | TooManySolutions

  /** The keys read back from the round-0 values of each pool solution. */
  function PoolKeys(pool: seq<seq<Ind>>): (keys: seq<Key>)
    ensures |keys| == |pool|
    ensures forall i :: 0 <= i < |pool| ==> keys[i] == ToBits(pool[i])
  {
    seq(|pool|, i requires 0 <= i < |pool| => ToBits(pool[i]))
  }

  /**
    Stores a solution pool: refused when it reaches the pool limit, otherwise
    every solution adds one to the count of its key.
   */
  method StoreSolutions(box: Box, pool: seq<seq<Ind>>) returns (out: Outcome)
    ensures out.TooManySolutions? <==> |pool| >= PoolLimit
    ensures out.Counted? ==> out.solCount == |pool|
    ensures out.Counted? ==> forall k :: Get(out.box, k) == Get(box, k) + multiset(PoolKeys(pool))[k]
    ensures out.Counted? ==> forall k :: k in out.box <==> k in box || k in PoolKeys(pool)
  {
    if |pool| >= PoolLimit {
      return TooManySolutions;
    }
    var b := StoreKeys(box, PoolKeys(pool));
    return Counted(b, |pool|);
  }

  /** The loop of StoreSolutions: one more count for the key of each solution in turn. */
  method StoreKeys(box: Box, keys: seq<Key>) returns (b: Box)
    ensures forall k :: Get(b, k) == Get(box, k) + multiset(keys)[k]
    ensures forall k :: k in b <==> k in box || k in keys
  {
    b := box;
    var i := 0;
    while i < |keys|
      invariant 0 <= i <= |keys|
      invariant forall k :: Get(b, k) == Get(box, k) + multiset(keys[..i])[k]
      invariant forall k :: k in b <==> k in box || k in keys[..i]
    {
      b := StoreOne(box, b, keys, i);
      i := i + 1;
    }
    assert keys[..|keys|] == keys;
  }

  /** One pass of the StoreSolutions loop: the count of keys[i] goes up by one. */
  method StoreOne(box: Box, b: Box, keys: seq<Key>, i: nat) returns (b': Box)
    requires i < |keys|
    requires forall k :: Get(b, k) == Get(box, k) + multiset(keys[..i])[k]
    requires forall k :: k in b <==> k in box || k in keys[..i]
    ensures forall k :: Get(b', k) == Get(box, k) + multiset(keys[..i + 1])[k]
    ensures forall k :: k in b' <==> k in box || k in keys[..i + 1]
  {
    var tmp := keys[i];
    b' := b[tmp := Get(b, tmp) + 1];
    assert keys[..i + 1] == keys[..i] + [tmp];
  }

  // ---------------------------------------------------------------------------
  // Weighted sums of counts over finite sets of keys
  // ---------------------------------------------------------------------------

  ghost function Pick(ks: set<Key>): (k: Key)
    requires ks != {}
    ensures k in ks
  {
    var k :| k in ks; k
  }

  /** The sum of count times weight over a finite set of keys. */
  ghost function WSum(box: Box, ks: set<Key>, w: Key -> int): int
    decreases ks
  {
    if ks == {} then 0
    else
      var k := Pick(ks);
      Get(box, k) * w(k) + WSum(box, ks - {k}, w)
  }

  /** Every key weighs one: WSum is then the number of trails. */
  function One(k: Key): int { 1 }

  /** The number of trails counted for the keys of ks. */
  ghost function SumOver(box: Box, ks: set<Key>): int
  {
    WSum(box, ks, One)
  }

  /** The weighted sum over every entry of the box. */
  ghost function WTotal(box: Box, w: Key -> int): int
  {
    WSum(box, box.Keys, w)
  }

  /** The number of trails in the box. */
  ghost function Total(box: Box): int
  {
    WTotal(box, One)
  }

  /** The sum does not depend on which key is taken out first. */
  lemma {:induction false} WSumRemove(box: Box, ks: set<Key>, k: Key, w: Key -> int)
    requires k in ks
    ensures WSum(box, ks, w) == Get(box, k) * w(k) + WSum(box, ks - {k}, w)
    decreases ks
  {
    var j := Pick(ks);
    if j != k {
      WSumRemove(box, ks - {j}, k, w);
      WSumRemove(box, ks - {k}, j, w);
      assert ks - {j} - {k} == ks - {k} - {j};
    }
  }

  /** Sums over one set of two boxes that agree on it are equal. */
  lemma {:induction false} WSumAgree(b1: Box, b2: Box, ks: set<Key>, w: Key -> int)
    requires forall k :: k in ks ==> Get(b1, k) == Get(b2, k)
    ensures WSum(b1, ks, w) == WSum(b2, ks, w)
    decreases ks
  {
    if ks != {} {
      var k := Pick(ks);
      WSumAgree(b1, b2, ks - {k}, w);
    }
  }

  /** Adding d to one entry adds d times its weight to the weighted total. */
  lemma WTotalAddTo(box: Box, key: Key, d: nat, w: Key -> int)
    ensures WTotal(box[key := Get(box, key) + d], w) == WTotal(box, w) + d * w(key)
  {
    var b2 := box[key := Get(box, key) + d];
    assert b2.Keys == box.Keys + {key};
    WSumRemove(b2, b2.Keys, key, w);
    WSumAgree(b2, box, b2.Keys - {key}, w);
    assert (Get(box, key) + d) * w(key) == Get(box, key) * w(key) + d * w(key);
    if key in box {
      WSumRemove(box, box.Keys, key, w);
      assert b2.Keys - {key} == box.Keys - {key};
    } else {
      assert b2.Keys - {key} == box.Keys;
    }
  }

  /** One more key flips the parity of a 0/1-weighted sum exactly when its count is odd and its weight is 1. */
  lemma ParityStep(box: Box, done: set<Key>, k: Key, w: Key -> int)
    requires k !in done && (w(k) == 0 || w(k) == 1)
    ensures (WSum(box, done + {k}, w) % 2 == 1) == ((WSum(box, done, w) % 2 == 1) != (Get(box, k) % 2 == 1 && w(k) == 1))
  {
    WSumRemove(box, done + {k}, k, w);
    assert done + {k} - {k} == done;
    var g, rest := Get(box, k), WSum(box, done, w);
    if w(k) == 0 {
      assert g * w(k) == 0;
    } else {
      assert g * w(k) == g;
      AddParity(rest, g);
    }
  }

  lemma AddParity(a: int, g: int)
    ensures ((a + g) % 2 == 1) == ((a % 2 == 1) != (g % 2 == 1))
  {
  }

  // ---------------------------------------------------------------------------
  // Projection: zeroing positions of every key and re-summing the counts
  // ---------------------------------------------------------------------------

  /** The key with every position of z cleared. */
  function Zeroed(k: Key, z: set<int>): (r: Key)
    ensures |r| == |k|
    ensures forall i :: 0 <= i < |k| ==> (r[i] <==> k[i] && i !in z)
  {
    seq(|k|, i requires 0 <= i < |k| => k[i] && i !in z)
  }

  /** The keys of ks that project onto key. */
  ghost function Preimage(ks: set<Key>, z: set<int>, key: Key): set<Key>
  {
    set j | j in ks && Zeroed(j, z) == key
  }

  lemma PreimageStep(done: set<Key>, k: Key, z: set<int>, key: Key)
    requires k !in done
    ensures Preimage(done + {k}, z, key) ==
            if Zeroed(k, z) == key then Preimage(done, z, key) + {k} else Preimage(done, z, key)
  {
  }

  /** One loop step of Aggregate keeps the weighted total equal to the sum over the keys done. */
  lemma WeightedStep(box: Box, b: Box, done: set<Key>, k: Key, z: set<int>, w: Key -> int)
    requires k in box && k !in done && w(Zeroed(k, z)) == w(k)
    requires WTotal(b, w) == WSum(box, done, w)
    ensures WTotal(b[Zeroed(k, z) := Get(b, Zeroed(k, z)) + box[k]], w) == WSum(box, done + {k}, w)
  {
    var tmp := Zeroed(k, z);
    WTotalAddTo(b, tmp, box[k], w);
    WSumRemove(box, done + {k}, k, w);
    assert done + {k} - {k} == done;
  }

  /** One loop step of Aggregate keeps every projected count equal to the sum over its preimage. */
  lemma CountStep(box: Box, b: Box, done: set<Key>, k: Key, z: set<int>)
    requires k in box && k !in done
    requires forall key :: Get(b, key) == SumOver(box, Preimage(done, z, key))
    ensures var b2 := b[Zeroed(k, z) := Get(b, Zeroed(k, z)) + box[k]];
      forall key :: Get(b2, key) == SumOver(box, Preimage(done + {k}, z, key))
  {
    var tmp := Zeroed(k, z);
    var b2 := b[tmp := Get(b, tmp) + box[k]];
    forall key
      ensures Get(b2, key) == SumOver(box, Preimage(done + {k}, z, key))
    {
      PreimageStep(done, k, z, key);
      if tmp == key {
        WSumRemove(box, Preimage(done + {k}, z, key), k, One);
        assert Preimage(done + {k}, z, key) - {k} == Preimage(done, z, key);
      }
    }
  }

  /** One loop step of Aggregate stores exactly the projections of the keys done. */
  lemma KeysStep(box: Box, b: Box, done: set<Key>, k: Key, z: set<int>)
    requires k in box && done <= box.Keys
    requires forall key :: key in b <==> exists j :: j in done && Zeroed(j, z) == key
    ensures var b2 := b[Zeroed(k, z) := Get(b, Zeroed(k, z)) + box[k]];
      forall key :: key in b2 <==> exists j :: j in done + {k} && Zeroed(j, z) == key
  {
  }

  /**
    countingBox2[project(k)] += countingBox[k] for every entry: each projected
    key receives the sum of the counts of the keys that project onto it, so the
    number of trails is unchanged, and so is every weighted total whose weight
    does not see the zeroed positions.
   */
  method Aggregate(box: Box, z: set<int>, ghost w: Key -> int) returns (box2: Box)
    requires forall k :: k in box ==> w(Zeroed(k, z)) == w(k)
    ensures forall key :: Get(box2, key) == SumOver(box, Preimage(box.Keys, z, key))
    ensures forall key :: key in box2 <==> exists j :: j in box && Zeroed(j, z) == key
    ensures Total(box2) == Total(box)
    ensures WTotal(box2, w) == WTotal(box, w)
  {
    box2 := map[];
    var rest := box.Keys;
    while rest != {}
      invariant rest <= box.Keys
      invariant forall key :: Get(box2, key) == SumOver(box, Preimage(box.Keys - rest, z, key))
      invariant forall key :: key in box2 <==> exists j :: j in box.Keys - rest && Zeroed(j, z) == key
      invariant Total(box2) == SumOver(box, box.Keys - rest)
      invariant WTotal(box2, w) == WSum(box, box.Keys - rest, w)
      decreases rest
    {
      box2, rest := AggregateOne(box, z, w, box2, rest);
    }
    assert box.Keys - rest == box.Keys;
  }

  /** One pass of the Aggregate loop: one more key of the box is projected and added in. */
  method AggregateOne(box: Box, z: set<int>, ghost w: Key -> int, b: Box, rest: set<Key>) returns (b': Box, rest': set<Key>)
    requires forall k :: k in box ==> w(Zeroed(k, z)) == w(k)
    requires rest != {} && rest <= box.Keys
    requires forall key :: Get(b, key) == SumOver(box, Preimage(box.Keys - rest, z, key))
    requires forall key :: key in b <==> exists j :: j in box.Keys - rest && Zeroed(j, z) == key
    requires Total(b) == SumOver(box, box.Keys - rest)
    requires WTotal(b, w) == WSum(box, box.Keys - rest, w)
    ensures rest' < rest
    ensures forall key :: Get(b', key) == SumOver(box, Preimage(box.Keys - rest', z, key))
    ensures forall key :: key in b' <==> exists j :: j in box.Keys - rest' && Zeroed(j, z) == key
    ensures Total(b') == SumOver(box, box.Keys - rest')
    ensures WTotal(b', w) == WSum(box, box.Keys - rest', w)
  {
    var k :| k in rest;
    ghost var done := box.Keys - rest;
    var tmp := Zeroed(k, z);
    b' := b[tmp := Get(b, tmp) + box[k]];
    rest' := rest - {k};
    assert box.Keys - rest' == done + {k};
    WeightedStep(box, b, done, k, z, One);
    WeightedStep(box, b, done, k, z, w);
    CountStep(box, b, done, k, z);
    KeysStep(box, b, done, k, z);
  }

  // ---------------------------------------------------------------------------
  // Parity split
  // ---------------------------------------------------------------------------

  /**
    The monomials whose trail count is odd: they appear in the superpoly
    (OddKeysDecideParity). The ensures only spells out membership, so that
    proofs about the set can use it without unfolding the comprehension.
   */
  function OddKeys(box: Box): (ks: set<Key>)
    ensures forall k :: k in ks <==> k in box && box[k] % 2 == 1
  {
    set k | k in box && box[k] % 2 == 1
  }

  /**
    The monomials whose trail count is even: they cancel (OddKeysDecideParity).
    The ensures only spells out membership, as for OddKeys.
   */
  function EvenKeys(box: Box): (ks: set<Key>)
    ensures forall k :: k in ks <==> k in box && box[k] % 2 == 0
  {
    set k | k in box && box[k] % 2 == 0
  }

  /**
    Even counts cancel: over any keys of the box, a weighted sum has the parity
    of its part over the odd-count keys, whatever the weights.
   */
  lemma {:induction false} OddPartDecides(box: Box, ks: set<Key>, w: Key -> int)
    requires ks <= box.Keys
    ensures WSum(box, ks, w) % 2 == WSum(box, ks * OddKeys(box), w) % 2
    decreases ks
  {
    if ks != {} {
      var k := Pick(ks);
      var rest := ks - {k};
      OddPartDecides(box, rest, w);
      var a, c := WSum(box, rest, w), WSum(box, rest * OddKeys(box), w);
      var g := Get(box, k) * w(k);
      assert WSum(box, ks, w) == g + a;
      if k in OddKeys(box) {
        WSumRemove(box, ks * OddKeys(box), k, w);
        assert ks * OddKeys(box) - {k} == rest * OddKeys(box);
        SameParityAdd(g, a, c);
      } else {
        assert ks * OddKeys(box) == rest * OddKeys(box);
        EvenProductAdd(Get(box, k), w(k), a);
      }
    }
  }

  lemma SameParityAdd(g: int, a: int, c: int)
    requires a % 2 == c % 2
    ensures (g + a) % 2 == (g + c) % 2
  {
  }

  lemma EvenProductAdd(n: nat, x: int, a: int)
    requires n % 2 == 0
    ensures (n * x + a) % 2 == a % 2
  {
    var m := n / 2;
    assert n * x == 2 * (m * x);
  }

  /**
    The superpoly the box predicts is decided by the odd list alone: every
    weighted total has the parity of its sum over the odd list, and the even
    list sums to an even number.
   */
  lemma OddKeysDecideParity(box: Box, w: Key -> int)
    ensures WTotal(box, w) % 2 == WSum(box, OddKeys(box), w) % 2
    ensures WSum(box, EvenKeys(box), w) % 2 == 0
  {
    OddPartDecides(box, box.Keys, w);
    assert box.Keys * OddKeys(box) == OddKeys(box);
    OddPartDecides(box, EvenKeys(box), w);
    assert EvenKeys(box) * OddKeys(box) == {};
    assert WSum(box, {}, w) == 0;
  }

  /** The odd list and the even list together list every entry exactly once. */
  lemma ParitySplit(box: Box)
    ensures OddKeys(box) !! EvenKeys(box)
    ensures OddKeys(box) + EvenKeys(box) == box.Keys
  {
  }
}
