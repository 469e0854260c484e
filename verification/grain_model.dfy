/**
  GrainModel: the constraint system of the Grain-128a enumeration, as a
  predicate over one solution, and the methods that build it round by round.

  A solution gives values to the round-0 variables of the NFSR b (the key) and
  of the LFSR s (the IV), and to the fresh variables of every round. Each round
  works on copies tmpb, tmps of the round's registers: h, the linear output
  part, f and g tap them, the output z = h + o is copied into z1 (to the LFSR
  feedback) and z2 (to the NFSR feedback), and the next registers are the
  copies shifted down by one with the new bits at position 127.
 */
module GrainModel {
  import opened Bits
  import opened GrainRules
  import opened TwoStage

  /** The fresh variables of one initialization round. */
  datatype RoundVars = RoundVars(
    h: HVars, o: OVars, z: Ind, z1: Ind, z2: Ind, f: FVars, g: GVars, news: Ind, newb: Ind)

  /** The fresh variables of the last round, which only evaluates the output. */
  datatype FinalVars = FinalVars(h: HVars, o: OVars, z: Ind)

  /** tmpb and tmps after the taps of h, the linear part, f and g. */
  function RoundTmp(r: GState, rv: RoundVars): GState
  {
    var r1 := HAfter(r, rv.h);
    var r2 := OAfter(r1, rv.o);
    Registers(GAfter(r2.b, rv.g), FAfter(r2.s, rv.f))
  }

  /** The output of a round: h and the linear part tap the copies, z = h + o is copied into z1 and z2. */
  predicate OutputHolds(r: GState, rv: RoundVars)
  {
    HHolds(r, rv.h, -1) && OHolds(HAfter(r, rv.h), rv.o, -1) &&
    rv.z as int == rv.h.y as int + rv.o.y as int && rv.z == Or(rv.z1, rv.z2)
  }

  /**
    The feedback of a round, on the copies left by the output taps: f and g tap
    them, news = z1 + f and newb = z2 + g + s0, the s0 being the variable f's
    tap left in tmps.
   */
  predicate FeedbackHolds(r2: GState, rv: RoundVars)
  {
    FHolds(r2.s, rv.f) && GHolds(r2.b, rv.g) &&
    rv.news as int == rv.z1 as int + rv.f.f as int &&
    rv.newb as int == rv.z2 as int + rv.g.g as int + FAfter(r2.s, rv.f)[0] as int
  }

  /**
    The constraints of one initialization round, each read on the variables
    current when it is added. The last one removes the solutions in which both
    the incoming s0 and z are 1.
   */
  predicate RoundHolds(r: GState, rv: RoundVars)
  {
    OutputHolds(r, rv) && FeedbackHolds(OAfter(HAfter(r, rv.h), rv.o), rv) &&
    (1 - r.s[0]) + (1 - rv.z) >= 1
  }

  /** The registers of the next round: both copies shifted down, the new bits at 127. */
  function NextState(r: GState, rv: RoundVars): GState
  {
    var t := RoundTmp(r, rv);
    Registers(t.b[1..] + [rv.newb], t.s[1..] + [rv.news])
  }

  /** The NFSR positions a round taps. */
  predicate BTapped(i: int)
  {
    i in {12, 95, 2, 15, 36, 45, 64, 73, 89, 26, 56, 91, 96, 3, 67, 11, 13, 17, 18, 27, 59,
          40, 48, 61, 65, 68, 84, 88, 92, 93, 22, 24, 25, 70, 78, 82}
  }

  /** The LFSR positions a round taps. */
  predicate STapped(i: int)
  {
    i in {8, 13, 20, 42, 60, 79, 94, 93, 0, 7, 38, 70, 81, 96}
  }

  /** The linear part taps none of the positions h taps. */
  lemma OReadsIncoming(r: GState, h: HVars, o: OVars, target: int)
    ensures OHolds(HAfter(r, h), o, target) == OHolds(r, o, target)
  {
    var r1 := HAfter(r, h);
    assert r1.s[93] == r.s[93] && r1.b[2] == r.b[2] && r1.b[15] == r.b[15] && r1.b[36] == r.b[36];
    assert r1.b[45] == r.b[45] && r1.b[64] == r.b[64] && r1.b[73] == r.b[73] && r1.b[89] == r.b[89];
  }

  /** f taps none of the LFSR positions h and the linear part tap; its tap on s0 leaves f.s0.z there. */
  lemma FReadsIncoming(r: GState, h: HVars, o: OVars, f: FVars)
    ensures var r2 := OAfter(HAfter(r, h), o);
      FHolds(r2.s, f) == FHolds(r.s, f) && FAfter(r2.s, f)[0] == f.s0.z
  {
    var r2 := OAfter(HAfter(r, h), o);
    assert r2.s[0] == r.s[0] && r2.s[7] == r.s[7] && r2.s[38] == r.s[38];
    assert r2.s[70] == r.s[70] && r2.s[81] == r.s[81] && r2.s[96] == r.s[96];
  }

  /** g shares only b95 with h and the linear part: it reads the copy h's second tap left there. */
  lemma GReadsIncoming(r: GState, h: HVars, o: OVars, g: GVars)
    ensures GHolds(OAfter(HAfter(r, h), o).b, g) == GHolds(r.b[95 := h.b95y.z], g)
  {
    var b2 := OAfter(HAfter(r, h), o).b;
    var bg := r.b[95 := h.b95y.z];
    forall p | p in {0, 26, 56, 91, 96, 3, 67, 11, 13, 17, 18, 27, 59, 40, 48, 61, 65, 68, 84,
                     88, 92, 93, 95, 22, 24, 25, 70, 78, 82}
      ensures b2[p] == bg[p]
    {
    }
  }

  /**
    Apart from b95, which h taps twice and g taps once more, and s0, whose
    copy left by f enters the NFSR feedback, the components tap different
    positions: every constraint reads the round's incoming variables, so the
    order of h, the linear part, f and g only matters through b95 and s0.
   */
  lemma RoundReadsIncoming(r: GState, rv: RoundVars)
    ensures RoundHolds(r, rv) <==>
      HHolds(r, rv.h, -1) && OHolds(r, rv.o, -1) &&
      rv.z as int == rv.h.y as int + rv.o.y as int && rv.z == Or(rv.z1, rv.z2) &&
      FHolds(r.s, rv.f) && GHolds(r.b[95 := rv.h.b95y.z], rv.g) &&
      rv.news as int == rv.z1 as int + rv.f.f as int &&
      rv.newb as int == rv.z2 as int + rv.g.g as int + rv.f.s0.z as int &&
      (1 - r.s[0]) + (1 - rv.z) >= 1
  {
    OReadsIncoming(r, rv.h, rv.o, -1);
    FReadsIncoming(r, rv.h, rv.o, rv.f);
    GReadsIncoming(r, rv.h, rv.o, rv.g);
  }

  /** An NFSR position no component taps moves one place down with its variable. */
  lemma NfsrMovesUntouched(r: GState, rv: RoundVars, i: nat)
    requires 1 <= i < 128 && !BTapped(i)
    ensures NextState(r, rv).b[i - 1] == r.b[i]
  {
    var r1 := HAfter(r, rv.h);
    var r2 := OAfter(r1, rv.o);
    assert r1.b[i] == r.b[i];
    assert r2.b[i] == r1.b[i];
    assert GAfter(r2.b, rv.g)[i] == r2.b[i];
  }

  /** An LFSR position no component taps moves one place down with its variable. */
  lemma LfsrMovesUntouched(r: GState, rv: RoundVars, i: nat)
    requires 1 <= i < 128 && !STapped(i)
    ensures NextState(r, rv).s[i - 1] == r.s[i]
  {
    var r1 := HAfter(r, rv.h);
    var r2 := OAfter(r1, rv.o);
    assert r1.s[i] == r.s[i];
    assert r2.s[i] == r1.s[i];
    assert FAfter(r2.s, rv.f)[i] == r2.s[i];
  }

  /** The states of rounds 0..|rounds| of one solution. */
  function States(r0: GState, rounds: seq<RoundVars>): (ss: seq<GState>)
    ensures |ss| == |rounds| + 1 && ss[0] == r0
  {
    if rounds == [] then [r0]
    else
      var n := |rounds| - 1;
      var prev := States(r0, rounds[..n]);
      prev + [NextState(prev[n], rounds[n])]
  }

  /** Each state is the one before it after one round. */
  lemma {:induction false} StatesStep(r0: GState, rounds: seq<RoundVars>, r: nat)
    requires r < |rounds|
    ensures States(r0, rounds)[r + 1] == NextState(States(r0, rounds)[r], rounds[r])
  {
    var n := |rounds| - 1;
    if r < n {
      StatesStep(r0, rounds[..n], r);
      assert rounds[..n][r] == rounds[r];
    }
  }

  /** Every round's constraints hold: those of the rounds before the last, and the last one's on its incoming state. */
  predicate RoundsHold(r0: GState, rounds: seq<RoundVars>)
  {
    if rounds == [] then true
    else
      var n := |rounds| - 1;
      RoundsHold(r0, rounds[..n]) && RoundHolds(States(r0, rounds[..n])[n], rounds[n])
  }

  // ---------------------------------------------------------------------------
  // Initial state and output target
  // ---------------------------------------------------------------------------

  /**
    The IV constraint: an active IV bit is 1, an IV bit flagged constant 0 is
    0, and the last LFSR bit is 0. The key bits are free.
   */
  predicate InitialHolds(cube: seq<int>, flag: seq<int>, r0: GState)
    requires |cube| == 96 && |flag| == 256
  {
    (forall i :: 0 <= i < 96 && cube[i] == 1 ==> r0.s[i] == 1) &&
    (forall i :: 0 <= i < 96 && cube[i] != 1 && flag[128 + i] == 0 ==> r0.s[i] == 0) &&
    r0.s[127] == 0
  }

  method InitialConstraints(cube: seq<int>, flag: seq<int>, r0: GState) returns (ok: bool)
    requires |cube| == 96 && |flag| == 256
    ensures ok == InitialHolds(cube, flag, r0)
  {
    ok := true;
    for i := 0 to 96
      invariant ok == ((forall j :: 0 <= j < i && cube[j] == 1 ==> r0.s[j] == 1) &&
                       (forall j :: 0 <= j < i && cube[j] != 1 && flag[128 + j] == 0 ==> r0.s[j] == 0))
    {
      if cube[i] == 1 {
        ok := ok && r0.s[i] == 1;
      } else if flag[128 + i] == 0 {
        ok := ok && r0.s[i] == 0;
      }
    }
    ok := ok && r0.s[127] == 0;
  }

  /**
    The stored key of a solution is b || s of round 0; the IV constraint fixes
    its last LFSR bit, so no key of a Grain counting box has bit 255 set.
   */
  lemma StoredKeyLastBitClear(cube: seq<int>, flag: seq<int>, r0: GState)
    requires |cube| == 96 && |flag| == 256 && InitialHolds(cube, flag, r0)
    ensures var k := ToBits(r0.b + r0.s); |k| == 256 && !k[255]
  {
    assert (r0.b + r0.s)[255] == r0.s[127];
  }

  predicate AllZero(r: GState)
  {
    forall i :: 0 <= i < 128 ==> r.b[i] == 0 && r.s[i] == 0
  }

  /**
    The last round: h for the target, the linear part for the target, the
    output z = h + o is 1, and every variable left in the copies is 0.
   */
  predicate FinalHolds(r: GState, fv: FinalVars, target: int)
  {
    var r1 := HAfter(r, fv.h);
    HHolds(r, fv.h, target) && OHolds(r1, fv.o, target) &&
    fv.z as int == fv.h.y as int + fv.o.y as int && fv.z == 1 &&
    AllZero(OAfter(r1, fv.o))
  }

  /**
    The six targets split the output: a last round without a target is
    feasible exactly when it is feasible for one of the targets 1..6, and for
    only one of them. So the six runs into one counting box count the trails
    of the whole output bit.
   */
  lemma FinalTargetsPartition(r: GState, fv: FinalVars)
    ensures FinalHolds(r, fv, -1) <==> exists t :: 1 <= t <= 6 && FinalHolds(r, fv, t)
    ensures forall t1, t2 :: 1 <= t1 <= 6 && 1 <= t2 <= 6 && FinalHolds(r, fv, t1) && FinalHolds(r, fv, t2) ==> t1 == t2
  {
    var h := fv.h;
    if FinalHolds(r, fv, -1) {
      HSelectsOneProduct(r, h, -1);
      var t := if fv.o.y == 1 then 6 else if h.b12y.y == 1 then 1 else if h.s60.y == 1 then 2
               else if h.b95x.y == 1 then 3 else if h.s13.y == 1 then 4 else 5;
      assert FinalHolds(r, fv, t);
    }
    forall t1, t2 | 1 <= t1 <= 6 && 1 <= t2 <= 6 && FinalHolds(r, fv, t1) && FinalHolds(r, fv, t2)
      ensures t1 == t2
    {
      HSelectsOneProduct(r, h, t1);
    }
  }

  // ---------------------------------------------------------------------------
  // One solution of the whole model
  // ---------------------------------------------------------------------------

  /** The trail bitsets b || s of the states, as the callback stores them. */
  function Trail(ss: seq<GState>): (t: seq<seq<Ind>>)
    ensures |t| == |ss| && forall r :: 0 <= r < |ss| ==> t[r] == ss[r].b + ss[r].s
  {
    seq(|ss|, r requires 0 <= r < |ss| => ss[r].b + ss[r].s)
  }

  /** A solution of the whole model: a division trail from the round-0 monomial to the target. */
  predicate IsTrail(cube: seq<int>, flag: seq<int>, target: int, opt: Stage,
                    r0: GState, rounds: seq<RoundVars>, fin: FinalVars)
    requires |cube| == 96 && |flag| == 256
  {
    var ss := States(r0, rounds);
    InitialHolds(cube, flag, r0) && RoundsHold(r0, rounds) &&
    FinalHolds(ss[|rounds|], fin, target) && StageHolds(opt, Trail(ss))
  }

  /** h and the linear part on the copies: the output z of the round. */
  method OutputTaps(tb: array<Ind>, ts: array<Ind>, rv: RoundVars) returns (ok: bool)
    requires tb != ts && tb.Length == 128 && ts.Length == 128
    modifies tb, ts
    ensures ok == OutputHolds(Registers(old(tb[..]), old(ts[..])), rv)
    ensures Registers(tb[..], ts[..]) == OAfter(HAfter(Registers(old(tb[..]), old(ts[..])), rv.h), rv.o)
  {
    var okH, h := FuncH(tb, ts, rv.h, -1);
    var okO, o := FuncO(tb, ts, rv.o, -1);
    var z := rv.z;
    ok := okH && okO && z as int == h as int + o as int && z == Or(rv.z1, rv.z2);
  }

  /** f and g on the copies, and the two feedback bits. */
  method FeedbackTaps(tb: array<Ind>, ts: array<Ind>, rv: RoundVars) returns (ok: bool)
    requires tb != ts && tb.Length == 128 && ts.Length == 128
    modifies tb, ts
    ensures ok == FeedbackHolds(Registers(old(tb[..]), old(ts[..])), rv)
    ensures tb[..] == GAfter(old(tb[..]), rv.g) && ts[..] == FAfter(old(ts[..]), rv.f)
  {
    var okF, f := FuncF(ts, rv.f);
    var okG, g := FuncG(tb, rv.g);
    assert ts[0] == ts[..][0];
    ok := okF && okG && rv.news as int == rv.z1 as int + f as int &&
      rv.newb as int == rv.z2 as int + g as int + ts[0] as int;
  }

  /** The taps and constraints of one round, on the copies tmpb and tmps. */
  method RoundTaps(r: GState, rv: RoundVars) returns (ok: bool, tb: array<Ind>, ts: array<Ind>)
    ensures fresh(tb) && fresh(ts)
    ensures ok == RoundHolds(r, rv)
    ensures Registers(tb[..], ts[..]) == RoundTmp(r, rv)
  {
    tb := new Ind[128](i requires 0 <= i < 128 => r.b[i]);
    ts := new Ind[128](i requires 0 <= i < 128 => r.s[i]);
    assert Registers(tb[..], ts[..]) == r;
    var s0 := ts[0];
    var okOut := OutputTaps(tb, ts, rv);
    ghost var r2 := Registers(tb[..], ts[..]);
    assert r2 == OAfter(HAfter(r, rv.h), rv.o);
    var okFb := FeedbackTaps(tb, ts, rv);
    assert okFb == FeedbackHolds(r2, rv);
    ok := okOut && okFb && (1 - s0) + (1 - rv.z) >= 1;
  }

  /** The next round's register: tmp[1..127] moved down, the new bit at 127. */
  method ShiftInto(tmp: array<Ind>, nw: Ind) returns (nxt: seq<Ind>)
    requires tmp.Length == 128
    ensures nxt == tmp[1..] + [nw]
  {
    var a := new Ind[128];
    for i := 0 to 127
      invariant forall j :: 0 <= j < i ==> a[j] == tmp[j + 1]
    {
      a[i] := tmp[i + 1];
    }
    a[127] := nw;
    nxt := a[..];
  }

  /** One round of the construction. */
  method ApplyRound(r: GState, rv: RoundVars) returns (ok: bool, next: GState)
    ensures ok == RoundHolds(r, rv)
    ensures next == NextState(r, rv)
  {
    var tb, ts;
    ok, tb, ts := RoundTaps(r, rv);
    var nb := ShiftInto(tb, rv.newb);
    var ns := ShiftInto(ts, rv.news);
    next := Registers(nb, ns);
  }

  /** The last round's constraints, on copies of its registers. */
  method FinalConstraint(r: GState, fv: FinalVars, target: int) returns (ok: bool)
    ensures ok == FinalHolds(r, fv, target)
  {
    var tb := new Ind[128](i requires 0 <= i < 128 => r.b[i]);
    var ts := new Ind[128](i requires 0 <= i < 128 => r.s[i]);
    assert tb[..] == r.b && ts[..] == r.s;
    var okH, h := FuncH(tb, ts, fv.h, target);
    var okO, o := FuncO(tb, ts, fv.o, target);
    var okZ := ZeroCheck(Registers(tb[..], ts[..]));
    ok := okH && okO && fv.z as int == h as int + o as int && fv.z == 1 && okZ;
  }

  /** The constraints that every variable left in the copies is 0. */
  method ZeroCheck(r: GState) returns (ok: bool)
    ensures ok == AllZero(r)
  {
    ok := true;
    for i := 0 to 128
      invariant ok == forall j :: 0 <= j < i ==> r.b[j] == 0 && r.s[j] == 0
    {
      ok := ok && r.b[i] == 0 && r.s[i] == 0;
    }
  }

  /** One more round extends the states by its next state and the constraints by its own. */
  lemma RoundsHoldSnoc(r0: GState, rounds: seq<RoundVars>, r: nat)
    requires r < |rounds|
    ensures States(r0, rounds[..r + 1]) == States(r0, rounds[..r]) + [NextState(States(r0, rounds[..r])[r], rounds[r])]
    ensures RoundsHold(r0, rounds[..r + 1]) == (RoundsHold(r0, rounds[..r]) && RoundHolds(States(r0, rounds[..r])[r], rounds[r]))
  {
    assert rounds[..r + 1][..r] == rounds[..r];
  }

  /** The round loop of the construction: every round's constraints, and the states they lead to. */
  method BuildRounds(r0: GState, rounds: seq<RoundVars>) returns (ok: bool, ss: seq<GState>)
    ensures ss == States(r0, rounds)
    ensures ok == RoundsHold(r0, rounds)
  {
    ss := [r0];
    ok := true;
    for r := 0 to |rounds|
      invariant ss == States(r0, rounds[..r])
      invariant ok == RoundsHold(r0, rounds[..r])
    {
      ok, ss := RoundLoopStep(r0, rounds, r, ok, ss);
    }
    assert rounds[..|rounds|] == rounds;
  }

  /** One pass of the round loop: round r's constraints, and the state they lead to. */
  method RoundLoopStep(r0: GState, rounds: seq<RoundVars>, r: nat, ok: bool, ss: seq<GState>) returns (ok': bool, ss': seq<GState>)
    requires r < |rounds|
    requires ss == States(r0, rounds[..r]) && ok == RoundsHold(r0, rounds[..r])
    ensures ss' == States(r0, rounds[..r + 1]) && ok' == RoundsHold(r0, rounds[..r + 1])
  {
    var okr, next := ApplyRound(ss[r], rounds[r]);
    RoundsHoldSnoc(r0, rounds, r);
    ok' := ok && okr;
    ss' := ss + [next];
  }

  /**
    The model construction of the Grain-128a enumeration evaluated on one
    solution: it accepts exactly the division trails of the configured model.
   */
  method BuildModel(cube: seq<int>, flag: seq<int>, target: int, opt: Stage,
                    r0: GState, rounds: seq<RoundVars>, fin: FinalVars) returns (ok: bool, ss: seq<GState>)
    requires |cube| == 96 && |flag| == 256
    ensures ss == States(r0, rounds)
    ensures ok == IsTrail(cube, flag, target, opt, r0, rounds, fin)
  {
    var ok0 := InitialConstraints(cube, flag, r0);
    var okRounds;
    okRounds, ss := BuildRounds(r0, rounds);
    var okF := FinalConstraint(ss[|rounds|], fin, target);
    var okS := StageConstraint(opt, Trail(ss));
    ok := ok0 && okRounds && okF && okS;
  }
}
