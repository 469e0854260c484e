/**
  PathCount: the counting identity behind the two-stage strategy.

  A division trail of R rounds is a path through R layers of transitions; a
  layer lists every transition one round admits (a state may reach the same
  state in several ways, so a layer is a list, not a set). J[u -> k] is the
  number of paths from u to k. Cutting the rounds at a midpoint round gives
  J[u -> k] = sum over the midpoints k' of J[u -> k'] * J[k' -> k].
 */
module PathCount {

  datatype Step<N> = Step(from: N, to: N)

  type Layer<N> = seq<Step<N>>

  /** Number of paths from u to k through the layers. */
  function Count<N(==)>(layers: seq<Layer<N>>, u: N, k: N): nat
    decreases |layers|, 1, 0
  {
    if layers == [] then (if u == k then 1 else 0)
    else CountFrom(layers[0], layers[1..], u, k)
  }

  /** Number of paths from u to k that start with one of the transitions es and go on through rest. */
  function CountFrom<N(==)>(es: Layer<N>, rest: seq<Layer<N>>, u: N, k: N): nat
    decreases |rest| + 1, 0, |es|
  {
    if es == [] then 0
    else
      var e := es[|es| - 1];
      CountFrom(es[..|es| - 1], rest, u, k) + (if e.from == u then Count(rest, e.to, k) else 0)
  }

  /** sum over the midpoints m of J[u -> m] * J[m -> k] (first part through l1, second through l2). */
  function MidSum<N(==)>(l1: seq<Layer<N>>, l2: seq<Layer<N>>, u: N, k: N, mids: seq<N>): int
  {
    if mids == [] then 0
    else
      var m := mids[|mids| - 1];
      MidSum(l1, l2, u, k, mids[..|mids| - 1]) + Count(l1, u, m) * Count(l2, m, k)
  }

  /** The same sum with the first part starting with one of the transitions es. */
  function MidSumFrom<N(==)>(es: Layer<N>, rest: seq<Layer<N>>, l2: seq<Layer<N>>, u: N, k: N, mids: seq<N>): int
  {
    if mids == [] then 0
    else
      var m := mids[|mids| - 1];
      MidSumFrom(es, rest, l2, u, k, mids[..|mids| - 1]) + CountFrom(es, rest, u, m) * Count(l2, m, k)
  }

  predicate DistinctNodes<N(==)>(mids: seq<N>)
  {
    forall i, j :: 0 <= i < j < |mids| ==> mids[i] != mids[j]
  }

  /**
    The identity J[u -> k] = sum over k' of J[u -> k'] J[k' -> k]: when every
    state reachable from u through l1 is listed in mids, and listed once.
   */
  lemma {:induction false} Split<N>(l1: seq<Layer<N>>, l2: seq<Layer<N>>, u: N, k: N, mids: seq<N>)
    requires DistinctNodes(mids)
    requires forall m :: Count(l1, u, m) > 0 ==> m in mids
    ensures Count(l1 + l2, u, k) == MidSum(l1, l2, u, k, mids)
    decreases |l1|, 1, 0
  {
    if l1 == [] {
      assert Count(l1, u, u) > 0;
      assert l1 + l2 == l2;
      MidSumEmpty(l2, u, k, mids);
    } else {
      assert (l1 + l2)[0] == l1[0] && (l1 + l2)[1..] == l1[1..] + l2;
      SplitFrom(l1[0], l1[1..], l2, u, k, mids);
      MidSumFromFirst(l1, l2, u, k, mids);
    }
  }

  lemma {:induction false} SplitFrom<N>(es: Layer<N>, rest: seq<Layer<N>>, l2: seq<Layer<N>>, u: N, k: N, mids: seq<N>)
    requires DistinctNodes(mids)
    requires forall m :: CountFrom(es, rest, u, m) > 0 ==> m in mids
    ensures CountFrom(es, rest + l2, u, k) == MidSumFrom(es, rest, l2, u, k, mids)
    decreases |rest| + 1, 0, |es|
  {
    if es == [] {
      MidSumFromNone(rest, l2, u, k, mids);
    } else {
      var n := |es| - 1;
      var e := es[n];
      forall m | CountFrom(es[..n], rest, u, m) > 0
        ensures m in mids
      {
        assert CountFrom(es, rest, u, m) >= CountFrom(es[..n], rest, u, m);
      }
      SplitFrom(es[..n], rest, l2, u, k, mids);
      if e.from == u {
        forall m | Count(rest, e.to, m) > 0
          ensures m in mids
        {
          assert CountFrom(es, rest, u, m) >= Count(rest, e.to, m);
        }
        Split(rest, l2, e.to, k, mids);
      }
      MidSumFromSnoc(es, rest, l2, u, k, mids);
    }
  }

  /** Linearity: the last transition of es contributes its own share of the sum. */
  lemma {:induction false} MidSumFromSnoc<N>(es: Layer<N>, rest: seq<Layer<N>>, l2: seq<Layer<N>>, u: N, k: N, mids: seq<N>)
    requires es != []
    ensures MidSumFrom(es, rest, l2, u, k, mids) ==
            MidSumFrom(es[..|es| - 1], rest, l2, u, k, mids) +
            (if es[|es| - 1].from == u then MidSum(rest, l2, es[|es| - 1].to, k, mids) else 0)
  {
    if mids != [] {
      var n := |mids| - 1;
      var ms, m := mids[..n], mids[n];
      var front, e := es[..|es| - 1], es[|es| - 1];
      MidSumFromSnoc(es, rest, l2, u, k, ms);
      var a := CountFrom(front, rest, u, m);
      var b := if e.from == u then Count(rest, e.to, m) else 0;
      var c := Count(l2, m, k);
      assert CountFrom(es, rest, u, m) == a + b;
      assert MidSumFrom(es, rest, l2, u, k, mids) == MidSumFrom(es, rest, l2, u, k, ms) + (a + b) * c;
      assert MidSumFrom(front, rest, l2, u, k, mids) == MidSumFrom(front, rest, l2, u, k, ms) + a * c;
      if e.from == u {
        assert MidSum(rest, l2, e.to, k, mids) == MidSum(rest, l2, e.to, k, ms) + b * c;
      }
      Distributes(a, b, c);
    }
  }

  /** Kept apart from MidSumFromSnoc: in that lemma's context the product is expensive for the solver. */
  lemma Distributes(a: int, b: int, c: int)
    ensures (a + b) * c == a * c + b * c
  {
  }

  lemma {:induction false} MidSumFromNone<N>(rest: seq<Layer<N>>, l2: seq<Layer<N>>, u: N, k: N, mids: seq<N>)
    ensures MidSumFrom([], rest, l2, u, k, mids) == 0
  {
    if mids != [] {
      MidSumFromNone(rest, l2, u, k, mids[..|mids| - 1]);
    }
  }

  lemma {:induction false} MidSumFromFirst<N>(l1: seq<Layer<N>>, l2: seq<Layer<N>>, u: N, k: N, mids: seq<N>)
    requires l1 != []
    ensures MidSum(l1, l2, u, k, mids) == MidSumFrom(l1[0], l1[1..], l2, u, k, mids)
  {
    if mids != [] {
      MidSumFromFirst(l1, l2, u, k, mids[..|mids| - 1]);
    }
  }

  /** With no layer in the first part, only the midpoint u itself contributes. */
  lemma {:induction false} MidSumEmpty<N>(l2: seq<Layer<N>>, u: N, k: N, mids: seq<N>)
    requires DistinctNodes(mids)
    ensures MidSum([], l2, u, k, mids) == if u in mids then Count(l2, u, k) else 0
  {
    if mids != [] {
      var n := |mids| - 1;
      assert DistinctNodes(mids[..n]);
      MidSumEmpty(l2, u, k, mids[..n]);
      assert u in mids <==> u in mids[..n] || u == mids[n];
      if u == mids[n] {
        assert u !in mids[..n];
      }
    }
  }
}
