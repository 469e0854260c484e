/**
  TwoStage: the two-stage enumeration. The first stage enumerates midpoint
  states k' at round divRound one by one, excluding each midpoint already
  handled with a lazy "blocking" constraint; for each one, the second stage
  pins the midpoint to k' and stores every solution of the pinned model in the
  counting box.
 */
module TwoStage {
  import opened Bits
  import opened CountingBox

  // ---------------------------------------------------------------------------
  // The blocking constraint and the pinned midpoint
  // ---------------------------------------------------------------------------

  /**
    The blocking expression: the sum, over every position, of 1 - x[i] where
    the found midpoint holds 1 and of x[i] where it holds 0. It is the Hamming
    distance between the found midpoint and the midpoint x.
   */
  method BlockingValue(mid: seq<bool>, x: seq<Ind>) returns (v: int)
    requires |mid| == |x|
    ensures v == Hamming(mid, ToBits(x))
  {
    ghost var bits := ToBits(x);
    v := 0;
    var i := 0;
    while i < |x|
      invariant 0 <= i <= |x|
      invariant v == Hamming(mid[..i], bits[..i])
    {
      assert mid[..i + 1][..i] == mid[..i] && bits[..i + 1][..i] == bits[..i];
      if mid[i] {
        v := v + (1 - x[i]);
      } else {
        v := v + x[i];
      }
      i := i + 1;
    }
    assert mid[..|x|] == mid && bits[..|x|] == bits;
  }

  /** `blocking >= 1` removes exactly one midpoint: the one that was found. */
  lemma BlockingExcludesExactlyMidpoint(mid: seq<bool>, x: seq<Ind>)
    requires |mid| == |x|
    ensures Hamming(mid, ToBits(x)) >= 1 <==> ToBits(x) != mid
  {
    HammingZeroIffEqual(mid, ToBits(x));
  }

  /** What the first stage admits after the midpoints of `blocked` were handled. */
  predicate Admitted(blocked: seq<seq<bool>>, x: seq<Ind>)
  {
    forall j :: 0 <= j < |blocked| && |blocked[j]| == |x| ==> Hamming(blocked[j], ToBits(x)) >= 1
  }

  /** The lazy constraints exclude exactly the midpoints already handled. */
  lemma AdmittedIffNotBlocked(blocked: seq<seq<bool>>, x: seq<Ind>)
    requires forall j :: 0 <= j < |blocked| ==> |blocked[j]| == |x|
    ensures Admitted(blocked, x) <==> ToBits(x) !in blocked
  {
    forall j | 0 <= j < |blocked|
      ensures Hamming(blocked[j], ToBits(x)) >= 1 <==> ToBits(x) != blocked[j]
    {
      BlockingExcludesExactlyMidpoint(blocked[j], x);
    }
  }

  /**
    The second stage's "fix" loop: one equality per position, to 1 where the hint
    holds 1 and to 0 elsewhere. It is satisfied exactly when the midpoint is the hint.
   */
  method PinnedToHint(x: seq<Ind>, hint: seq<bool>) returns (ok: bool)
    requires |x| == |hint|
    ensures ok <==> ToBits(x) == hint
  {
    ok := true;
    var i := 0;
    while i < |x|
      invariant 0 <= i <= |x|
      invariant ok <==> forall j :: 0 <= j < i ==> (x[j] == 1 <==> hint[j])
    {
      if hint[i] {
        ok := ok && x[i] == 1;
      } else {
        ok := ok && x[i] == 0;
      }
      i := i + 1;
    }
    if !ok {
      var j :| 0 <= j < |x| && !(x[j] == 1 <==> hint[j]);
      assert ToBits(x)[j] != hint[j];
    }
  }

  /** How the model is run: alone, as the first stage, or as a second stage pinned to a hint. */
  datatype Stage =
    | Plain
    | FirstStage(blocked: seq<seq<bool>>)
    | SecondStage(divRound: nat, hint: seq<bool>)

  /**
    The constraints the stage adds on the states ss of rounds 0..R: blocking of
    the midpoints already handled at round R / 2, or the state of round
    divRound fixed to the hint.
   */
  predicate StageHolds(opt: Stage, ss: seq<seq<Ind>>)
    requires |ss| > 0
  {
    match opt
    case Plain => true
    case FirstStage(blocked) => Admitted(blocked, ss[(|ss| - 1) / 2])
    case SecondStage(d, hint) => d < |ss| && ToBits(ss[d]) == hint
  }

  /** Adds the stage's constraints: the lazy blocking constraints, or the fixed midpoint. */
  method StageConstraint(opt: Stage, ss: seq<seq<Ind>>) returns (ok: bool)
    requires |ss| > 0
    ensures ok == StageHolds(opt, ss)
  {
    ok := true;
    match opt {
      case Plain =>
      case FirstStage(blocked) =>
        var mid := ss[(|ss| - 1) / 2];
        for j := 0 to |blocked|
          invariant ok == forall q :: 0 <= q < j && |blocked[q]| == |mid| ==> Hamming(blocked[q], ToBits(mid)) >= 1
        {
          if |blocked[j]| == |mid| {
            var v := BlockingValue(blocked[j], mid);
            ok := ok && v >= 1;
          }
        }
      case SecondStage(d, hint) =>
        if d < |ss| && |hint| == |ss[d]| {
          ok := PinnedToHint(ss[d], hint);
        } else {
          ok := false;
        }
    }
  }

  // ---------------------------------------------------------------------------
  // The two-stage driver
  // ---------------------------------------------------------------------------

  predicate Distinct(mids: seq<seq<bool>>)
  {
    forall i, j :: 0 <= i < j < |mids| ==> mids[i] != mids[j]
  }

  /** The keys of a sequence of pools, pooled together. */
  function AllKeys(pools: seq<seq<seq<Ind>>>): multiset<Key>
  {
    if pools == [] then multiset{}
    else AllKeys(pools[..|pools| - 1]) + multiset(PoolKeys(pools[|pools| - 1]))
  }

  /**
    The first stage's callback, once per incumbent: the j-th incumbent satisfies
    the blocking constraints of the earlier ones (the model assumes the solver
    reports only incumbents that satisfy them; the callback does not check for a
    repeated midpoint), its second-stage pool is stored, and its midpoint is
    blocked. Under that assumption the midpoints handled are pairwise different,
    and the box gains the keys of all pools, unless a pool reaches the pool limit.
   */
  method TwoStageSearch(box0: Box, incumbents: seq<seq<Ind>>, pools: seq<seq<seq<Ind>>>)
    returns (out: Outcome, mids: seq<seq<bool>>)
    requires |pools| == |incumbents|
    requires forall j :: 0 <= j < |incumbents| ==> |incumbents[j]| == |incumbents[0]|
    requires forall j :: 0 <= j < |incumbents| ==> Admitted(ToBitsAll(incumbents[..j]), incumbents[j])
    ensures |mids| == |incumbents|
    ensures forall j :: 0 <= j < |mids| ==> mids[j] == ToBits(incumbents[j])
    ensures Distinct(mids)
    ensures out.TooManySolutions? <==> exists j :: 0 <= j < |pools| && |pools[j]| >= PoolLimit
    ensures out.Counted? ==> forall k :: Get(out.box, k) == Get(box0, k) + AllKeys(pools)[k]
  {
    mids := ToBitsAll(incumbents);
    forall i, j | 0 <= i < j < |mids|
      ensures mids[i] != mids[j]
    {
      assert ToBitsAll(incumbents[..j])[i] == mids[i];
      AdmittedIffNotBlocked(ToBitsAll(incumbents[..j]), incumbents[j]);
    }
    var box := box0;
    var total := 0;
    var j := 0;
    while j < |pools|
      invariant 0 <= j <= |pools|
      invariant forall i :: 0 <= i < j ==> |pools[i]| < PoolLimit
      invariant forall k :: Get(box, k) == Get(box0, k) + AllKeys(pools[..j])[k]
    {
      var r := StoreSolutions(box, pools[j]);
      if r.TooManySolutions? {
        return TooManySolutions, mids;
      }
      assert pools[..j + 1][..j] == pools[..j];
      box := r.box;
      total := total + r.solCount;
      j := j + 1;
    }
    assert pools[..|pools|] == pools;
    out := Counted(box, total);
  }

  function ToBitsAll(xs: seq<seq<Ind>>): (r: seq<seq<bool>>)
    ensures |r| == |xs|
    ensures forall j :: 0 <= j < |xs| ==> r[j] == ToBits(xs[j]) && |r[j]| == |xs[j]|
  {
    seq(|xs|, j requires 0 <= j < |xs| => ToBits(xs[j]))
  }

  // ---------------------------------------------------------------------------
  // Two stages count what one stage would count
  // ---------------------------------------------------------------------------

  /** A trail of the undivided model, read as its key and its midpoint. */
  datatype Found = Found(key: Key, mid: seq<bool>)

  function KeysOf(fs: seq<Found>): (ks: seq<Key>)
    ensures |ks| == |fs|
    ensures forall i :: 0 <= i < |fs| ==> ks[i] == fs[i].key
  {
    seq(|fs|, i requires 0 <= i < |fs| => fs[i].key)
  }

  /** The trails of fs that pass through midpoint m: what the pinned model admits. */
  function Through(fs: seq<Found>, m: seq<bool>): seq<Found>
  {
    if fs == [] then []
    else Through(fs[..|fs| - 1], m) + (if fs[|fs| - 1].mid == m then [fs[|fs| - 1]] else [])
  }

  /** The keys of fs split by midpoint, one midpoint of mids at a time. */
  function SplitKeys(fs: seq<Found>, mids: seq<seq<bool>>): multiset<Key>
  {
    if mids == [] then multiset{}
    else SplitKeys(fs, mids[..|mids| - 1]) + multiset(KeysOf(Through(fs, mids[|mids| - 1])))
  }

  lemma {:induction false} SplitKeysSnoc(fs: seq<Found>, x: Found, mids: seq<seq<bool>>)
    requires Distinct(mids)
    ensures SplitKeys(fs + [x], mids) ==
            SplitKeys(fs, mids) + (if x.mid in mids then multiset{x.key} else multiset{})
  {
    if mids != [] {
      var n := |mids| - 1;
      var ms, m := mids[..n], mids[n];
      assert Distinct(ms);
      SplitKeysSnoc(fs, x, ms);
      var added := if x.mid == m then multiset{x.key} else multiset{};
      ThroughSnoc(fs, x, m);
      assert multiset(KeysOf(Through(fs + [x], m))) == multiset(KeysOf(Through(fs, m))) + added;
      assert SplitKeys(fs + [x], mids) == SplitKeys(fs + [x], ms) + multiset(KeysOf(Through(fs + [x], m)));
      assert SplitKeys(fs, mids) == SplitKeys(fs, ms) + multiset(KeysOf(Through(fs, m)));
      assert x.mid in mids <==> x.mid in ms || x.mid == m;
      if x.mid == m {
        assert x.mid !in ms;
      }
    }
  }

  /** Appending a trail adds its key to the pool of its own midpoint only. */
  lemma ThroughSnoc(fs: seq<Found>, x: Found, m: seq<bool>)
    ensures multiset(KeysOf(Through(fs + [x], m))) ==
            multiset(KeysOf(Through(fs, m))) + (if x.mid == m then multiset{x.key} else multiset{})
  {
    assert (fs + [x])[..|fs + [x]| - 1] == fs;
    var t := Through(fs, m);
    if x.mid == m {
      assert Through(fs + [x], m) == t + [x];
      assert KeysOf(t + [x]) == KeysOf(t) + [x.key];
    } else {
      assert Through(fs + [x], m) == t;
    }
  }

  /** Splitting a pool by midpoint loses no trail and counts none twice. */
  lemma {:induction false} SplitKeysComplete(fs: seq<Found>, mids: seq<seq<bool>>)
    requires Distinct(mids)
    requires forall i :: 0 <= i < |fs| ==> fs[i].mid in mids
    ensures SplitKeys(fs, mids) == multiset(KeysOf(fs))
  {
    if fs != [] {
      var n := |fs| - 1;
      var front, x := fs[..n], fs[n];
      assert front + [x] == fs;
      assert forall i :: 0 <= i < |front| ==> front[i].mid in mids by {
        forall i | 0 <= i < |front| ensures front[i].mid in mids {
          assert front[i] == fs[i];
        }
      }
      SplitKeysComplete(front, mids);
      SplitKeysSnoc(front, x, mids);
      assert KeysOf(fs) == KeysOf(front) + [x.key];
      assert multiset(KeysOf(fs)) == multiset(KeysOf(front)) + multiset{x.key};
    } else {
      SplitKeysEmpty(mids);
    }
  }

  lemma {:induction false} SplitKeysEmpty(mids: seq<seq<bool>>)
    ensures SplitKeys([], mids) == multiset{}
  {
    if mids != [] {
      SplitKeysEmpty(mids[..|mids| - 1]);
    }
  }

  /**
    J[u] = sum over k' of J[u -> k'] J[k' -> k], as counts of keys: when the
    first stage hands over every midpoint of the undivided pool, each only once,
    and each second-stage pool holds exactly the undivided trails through its
    midpoint, the two-stage pools hold exactly the keys of the undivided pool.
   */
  lemma {:induction false} TwoStageEquivalence(full: seq<Found>, mids: seq<seq<bool>>, pools: seq<seq<seq<Ind>>>)
    requires |pools| == |mids| && Distinct(mids)
    requires forall i :: 0 <= i < |full| ==> full[i].mid in mids
    requires forall j :: 0 <= j < |pools| ==> multiset(PoolKeys(pools[j])) == multiset(KeysOf(Through(full, mids[j])))
    ensures AllKeys(pools) == multiset(KeysOf(full))
  {
    SplitKeysComplete(full, mids);
    AllKeysIsSplit(full, mids, pools);
  }

  lemma {:induction false} AllKeysIsSplit(full: seq<Found>, mids: seq<seq<bool>>, pools: seq<seq<seq<Ind>>>)
    requires |pools| == |mids|
    requires forall j :: 0 <= j < |pools| ==> multiset(PoolKeys(pools[j])) == multiset(KeysOf(Through(full, mids[j])))
    ensures AllKeys(pools) == SplitKeys(full, mids)
  {
    if pools != [] {
      var n := |pools| - 1;
      AllKeysIsSplit(full, mids[..n], pools[..n]);
    }
  }
}
