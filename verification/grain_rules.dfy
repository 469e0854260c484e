/**
  GrainRules: the division-property models of the Grain-128a components h,
  the linear output part, f and g.

  Each component taps the register positions it reads. A tap copies the
  current variable x of a position into a fresh y, used by the component, and
  a fresh z that replaces x in the register: x = y OR z, which on binary
  values is the COPY rule. A position tapped twice (b12 and b95 in h, b95 in
  h and again in g) is copied from the variable the earlier tap left there.

  As for Trivium, a variable is represented by the value a solution gives it.
 */
module GrainRules {
  import opened Bits

  /** The variables of the NFSR b and of the LFSR s. */
  datatype Registers = Registers(b: seq<Ind>, s: seq<Ind>)

  type GState = r: Registers | |r.b| == 128 && |r.s| == 128
    witness Registers(seq(128, i => 0), seq(128, i => 0))

  /** The two fresh variables of one tap: y goes to the component, z stays in the register. */
  datatype TapVars = TapVars(y: Ind, z: Ind)

  /** The general OR constraint of a tap: x = y OR z. */
  predicate TapHolds(x: Ind, t: TapVars)
  {
    x == Or(t.y, t.z)
  }

  /** A tap is the COPY of the division property. */
  lemma TapIsCopyRule(x: Ind, t: TapVars)
    ensures TapHolds(x, t) <==> CopyRule(x, t.y, t.z)
  {
    CopyRuleIsOr(x, t.y, t.z);
  }

  /** tap: adds x = y OR z, rebinds the position to z and returns y. */
  method Tap(x: array<Ind>, i: nat, t: TapVars) returns (ok: bool, y: Ind)
    requires i < x.Length
    modifies x
    ensures ok == TapHolds(old(x[i]), t) && y == t.y
    ensures x[..] == old(x[..])[i := t.z]
  {
    ok := TapHolds(x[i], t);
    x[i] := t.z;
    y := t.y;
  }

  // ---------------------------------------------------------------------------
  // funcH: h = b12 s8 + s13 s20 + b95 s42 + s60 s79 + b12 b95 s94
  // ---------------------------------------------------------------------------

  /** The fresh variables of funcH, named after the taps in the order they are made. */
  datatype HVars = HVars(
    b12x: TapVars, s8: TapVars, s13: TapVars, s20: TapVars, b95x: TapVars, s42: TapVars,
    s60: TapVars, s79: TapVars, b12y: TapVars, b95y: TapVars, s94: TapVars, y: Ind)

  /**
    The evaluation target the h model is built for. 1: b12 b95 s94 (the copy b12y
    is 1); 2: s60 s79; 3: b95 s42; 4: s13 s20; 5: b12 s8; 6: h is 0, so only the
    linear part can reach the output. Any other target adds nothing.
   */
  predicate HTargetHolds(v: HVars, target: int)
  {
    if target == 1 then v.b12y.y == 1
    else if target == 2 then v.s60.y == 1
    else if target == 3 then v.b95x.y == 1
    else if target == 4 then v.s13.y == 1
    else if target == 5 then v.b12x.y == 1
    else if target == 6 then v.y == 0
    else true
  }

  /**
    The constraints of funcH on the registers r it is called with: the factors
    of each product are copied with one shared value, and y is the sum of one
    copy per product.
   */
  predicate HHolds(r: GState, v: HVars, target: int)
  {
    TapHolds(r.b[12], v.b12x) && TapHolds(r.s[8], v.s8) && v.b12x.y == v.s8.y &&
    TapHolds(r.s[13], v.s13) && TapHolds(r.s[20], v.s20) && v.s13.y == v.s20.y &&
    TapHolds(r.b[95], v.b95x) && TapHolds(r.s[42], v.s42) && v.b95x.y == v.s42.y &&
    TapHolds(r.s[60], v.s60) && TapHolds(r.s[79], v.s79) && v.s60.y == v.s79.y &&
    TapHolds(v.b12x.z, v.b12y) && TapHolds(v.b95x.z, v.b95y) && TapHolds(r.s[94], v.s94) &&
    v.b12y.y == v.b95y.y && v.b12y.y == v.s94.y &&
    v.y as int == v.b12x.y as int + v.s13.y as int + v.b95x.y as int + v.s60.y as int + v.b12y.y as int &&
    HTargetHolds(v, target)
  }

  /** The registers after funcH: every tapped position holds the z of its last tap. */
  function HAfter(r: GState, v: HVars): GState
  {
    Registers(
      r.b[12 := v.b12y.z][95 := v.b95y.z],
      r.s[8 := v.s8.z][13 := v.s13.z][20 := v.s20.z][42 := v.s42.z][60 := v.s60.z][79 := v.s79.z][94 := v.s94.z])
  }

  /** The taps of the four two-factor products of funcH. */
  method HProducts(b: array<Ind>, s: array<Ind>, v: HVars) returns (ok: bool)
    requires b != s && b.Length == 128 && s.Length == 128
    modifies b, s
    ensures ok == (
      TapHolds(old(b[12]), v.b12x) && TapHolds(old(s[8]), v.s8) && v.b12x.y == v.s8.y &&
      TapHolds(old(s[13]), v.s13) && TapHolds(old(s[20]), v.s20) && v.s13.y == v.s20.y &&
      TapHolds(old(b[95]), v.b95x) && TapHolds(old(s[42]), v.s42) && v.b95x.y == v.s42.y &&
      TapHolds(old(s[60]), v.s60) && TapHolds(old(s[79]), v.s79) && v.s60.y == v.s79.y)
    ensures b[..] == old(b[..])[12 := v.b12x.z][95 := v.b95x.z]
    ensures s[..] == old(s[..])[8 := v.s8.z][13 := v.s13.z][20 := v.s20.z][42 := v.s42.z][60 := v.s60.z][79 := v.s79.z]
  {
    var ok1, b12x := Tap(b, 12, v.b12x);
    var ok2, s8 := Tap(s, 8, v.s8);
    ok := ok1 && ok2 && b12x == s8;

    var ok3, s13 := Tap(s, 13, v.s13);
    var ok4, s20 := Tap(s, 20, v.s20);
    ok := ok && ok3 && ok4 && s13 == s20;

    var ok5, b95x := Tap(b, 95, v.b95x);
    var ok6, s42 := Tap(s, 42, v.s42);
    ok := ok && ok5 && ok6 && b95x == s42;

    var ok7, s60 := Tap(s, 60, v.s60);
    var ok8, s79 := Tap(s, 79, v.s79);
    ok := ok && ok7 && ok8 && s60 == s79;
  }

  method FuncH(b: array<Ind>, s: array<Ind>, v: HVars, target: int) returns (ok: bool, y: Ind)
    requires b != s && b.Length == 128 && s.Length == 128
    modifies b, s
    ensures ok == HHolds(Registers(old(b[..]), old(s[..])), v, target)
    ensures Registers(b[..], s[..]) == HAfter(Registers(old(b[..]), old(s[..])), v)
    ensures y == v.y
  {
    ghost var r := Registers(b[..], s[..]);
    var s94old := s[94];
    ok := HProducts(b, s, v);
    assert s[94] == s94old;

    var ok9, b12y := Tap(b, 12, v.b12y);
    var ok10, b95y := Tap(b, 95, v.b95y);
    var ok11, s94 := Tap(s, 94, v.s94);
    ok := ok && ok9 && ok10 && ok11 && b12y == b95y && b12y == s94;
    assert b[..] == r.b[12 := v.b12y.z][95 := v.b95y.z];

    y := v.y;
    ok := ok && y as int == v.b12x.y as int + v.s13.y as int + v.b95x.y as int + v.s60.y as int + b12y as int;

    if target == 1 {
      ok := ok && b12y == 1;
    } else if target == 2 {
      ok := ok && v.s60.y == 1;
    } else if target == 3 {
      ok := ok && v.b95x.y == 1;
    } else if target == 4 {
      ok := ok && v.s13.y == 1;
    } else if target == 5 {
      ok := ok && v.b12x.y == 1;
    } else if target == 6 {
      ok := ok && y == 0;
    }
  }

  /**
    What a solution of funcH means: a copy of a product is 1 only when every
    factor of that product is 1, at most one product reaches h, and y is 1
    exactly when one does.
   */
  lemma HSelectsOneProduct(r: GState, v: HVars, target: int)
    requires HHolds(r, v, target)
    ensures v.b12x.y == 1 ==> r.b[12] == 1 && r.s[8] == 1
    ensures v.s13.y == 1 ==> r.s[13] == 1 && r.s[20] == 1
    ensures v.b95x.y == 1 ==> r.b[95] == 1 && r.s[42] == 1
    ensures v.s60.y == 1 ==> r.s[60] == 1 && r.s[79] == 1
    ensures v.b12y.y == 1 ==> r.b[12] == 1 && r.b[95] == 1 && r.s[94] == 1
    ensures v.b12x.y as int + v.s13.y as int + v.b95x.y as int + v.s60.y as int + v.b12y.y as int <= 1
    ensures v.y == 1 <==> v.b12x.y as int + v.s13.y as int + v.b95x.y as int + v.s60.y as int + v.b12y.y as int == 1
  {
  }

  /**
    The other direction: when every factor of the chosen product p (numbered as
    the targets number them) is 1, the copies that send that product alone to h
    and keep every position's value form a solution of funcH for target p.
   */
  lemma HProductFeasible(r: GState, p: int)
    requires 1 <= p <= 5
    requires p == 5 ==> r.b[12] == 1 && r.s[8] == 1
    requires p == 4 ==> r.s[13] == 1 && r.s[20] == 1
    requires p == 3 ==> r.b[95] == 1 && r.s[42] == 1
    requires p == 2 ==> r.s[60] == 1 && r.s[79] == 1
    requires p == 1 ==> r.b[12] == 1 && r.b[95] == 1 && r.s[94] == 1
    ensures
      var keep := (x: Ind, sel: bool) => TapVars(if sel then 1 else 0, x);
      var v := HVars(
        keep(r.b[12], p == 5), keep(r.s[8], p == 5), keep(r.s[13], p == 4), keep(r.s[20], p == 4),
        keep(r.b[95], p == 3), keep(r.s[42], p == 3), keep(r.s[60], p == 2), keep(r.s[79], p == 2),
        keep(r.b[12], p == 1), keep(r.b[95], p == 1), keep(r.s[94], p == 1), 1);
      HHolds(r, v, p) && HAfter(r, v) == r
  {
    var keep := (x: Ind, sel: bool) => TapVars(if sel then 1 else 0, x);
    var v := HVars(
      keep(r.b[12], p == 5), keep(r.s[8], p == 5), keep(r.s[13], p == 4), keep(r.s[20], p == 4),
      keep(r.b[95], p == 3), keep(r.s[42], p == 3), keep(r.s[60], p == 2), keep(r.s[79], p == 2),
      keep(r.b[12], p == 1), keep(r.b[95], p == 1), keep(r.s[94], p == 1), 1);
    assert HAfter(r, v).b == r.b;
    assert HAfter(r, v).s == r.s;
  }

  // ---------------------------------------------------------------------------
  // funcO: the linear part s93 + b2 + b15 + b36 + b45 + b64 + b73 + b89
  // ---------------------------------------------------------------------------

  datatype OVars = OVars(
    s93: TapVars, b2: TapVars, b15: TapVars, b36: TapVars, b45: TapVars, b64: TapVars,
    b73: TapVars, b89: TapVars, y: Ind)

  function OSum(v: OVars): int
  {
    v.s93.y as int + v.b2.y as int + v.b15.y as int + v.b36.y as int +
    v.b45.y as int + v.b64.y as int + v.b73.y as int + v.b89.y as int
  }

  /** Target 6 makes the linear part the output (y = 1); targets 1..5 exclude it (y = 0). */
  predicate OHolds(r: GState, v: OVars, target: int)
  {
    TapHolds(r.s[93], v.s93) && TapHolds(r.b[2], v.b2) && TapHolds(r.b[15], v.b15) &&
    TapHolds(r.b[36], v.b36) && TapHolds(r.b[45], v.b45) && TapHolds(r.b[64], v.b64) &&
    TapHolds(r.b[73], v.b73) && TapHolds(r.b[89], v.b89) &&
    v.y as int == OSum(v) &&
    (if target == 6 then v.y == 1 else if target >= 1 then v.y == 0 else true)
  }

  function OAfter(r: GState, v: OVars): GState
  {
    Registers(
      r.b[2 := v.b2.z][15 := v.b15.z][36 := v.b36.z][45 := v.b45.z][64 := v.b64.z][73 := v.b73.z][89 := v.b89.z],
      r.s[93 := v.s93.z])
  }

  method FuncO(b: array<Ind>, s: array<Ind>, v: OVars, target: int) returns (ok: bool, y: Ind)
    requires b != s && b.Length == 128 && s.Length == 128
    modifies b, s
    ensures ok == OHolds(Registers(old(b[..]), old(s[..])), v, target)
    ensures Registers(b[..], s[..]) == OAfter(Registers(old(b[..]), old(s[..])), v)
    ensures y == v.y
  {
    var ok1, s93 := Tap(s, 93, v.s93);
    var ok2, b2 := Tap(b, 2, v.b2);
    var ok3, b15 := Tap(b, 15, v.b15);
    var ok4, b36 := Tap(b, 36, v.b36);
    var ok5, b45 := Tap(b, 45, v.b45);
    var ok6, b64 := Tap(b, 64, v.b64);
    var ok7, b73 := Tap(b, 73, v.b73);
    var ok8, b89 := Tap(b, 89, v.b89);
    y := v.y;
    ok := ok1 && ok2 && ok3 && ok4 && ok5 && ok6 && ok7 && ok8 &&
      y as int == s93 as int + b2 as int + b15 as int + b36 as int + b45 as int + b64 as int + b73 as int + b89 as int;
    if target == 6 {
      ok := ok && y == 1;
    } else if target >= 1 {
      ok := ok && y == 0;
    }
  }

  /** At most one linear term reaches the output, and only from a position holding 1. */
  lemma OSelectsOneTerm(r: GState, v: OVars, target: int)
    requires OHolds(r, v, target)
    ensures OSum(v) <= 1 && (v.y == 1 <==> OSum(v) == 1)
    ensures v.s93.y == 1 ==> r.s[93] == 1
    ensures v.b89.y == 1 ==> r.b[89] == 1
    ensures v.b2.y == 1 ==> r.b[2] == 1
    ensures v.b15.y == 1 ==> r.b[15] == 1
    ensures v.b36.y == 1 ==> r.b[36] == 1
    ensures v.b45.y == 1 ==> r.b[45] == 1
    ensures v.b64.y == 1 ==> r.b[64] == 1
    ensures v.b73.y == 1 ==> r.b[73] == 1
  {
  }

  // ---------------------------------------------------------------------------
  // funcF: f = s0 + s7 + s38 + s70 + s81 + s96
  // ---------------------------------------------------------------------------

  datatype FVars = FVars(s0: TapVars, s7: TapVars, s38: TapVars, s70: TapVars, s81: TapVars, s96: TapVars, f: Ind)

  predicate FHolds(s: seq<Ind>, v: FVars)
    requires |s| == 128
  {
    TapHolds(s[0], v.s0) && TapHolds(s[7], v.s7) && TapHolds(s[38], v.s38) &&
    TapHolds(s[70], v.s70) && TapHolds(s[81], v.s81) && TapHolds(s[96], v.s96) &&
    v.f as int == v.s0.y as int + v.s7.y as int + v.s38.y as int + v.s70.y as int + v.s81.y as int + v.s96.y as int
  }

  function FAfter(s: seq<Ind>, v: FVars): (s': seq<Ind>)
    requires |s| == 128
    ensures |s'| == 128
  {
    s[0 := v.s0.z][7 := v.s7.z][38 := v.s38.z][70 := v.s70.z][81 := v.s81.z][96 := v.s96.z]
  }

  method FuncF(s: array<Ind>, v: FVars) returns (ok: bool, f: Ind)
    requires s.Length == 128
    modifies s
    ensures ok == FHolds(old(s[..]), v)
    ensures s[..] == FAfter(old(s[..]), v)
    ensures f == v.f
  {
    var ok1, s0 := Tap(s, 0, v.s0);
    var ok2, s7 := Tap(s, 7, v.s7);
    var ok3, s38 := Tap(s, 38, v.s38);
    var ok4, s70 := Tap(s, 70, v.s70);
    var ok5, s81 := Tap(s, 81, v.s81);
    var ok6, s96 := Tap(s, 96, v.s96);
    f := v.f;
    ok := ok1 && ok2 && ok3 && ok4 && ok5 && ok6 &&
      f as int == s0 as int + s7 as int + s38 as int + s70 as int + s81 as int + s96 as int;
  }

  /** At most one tap of f reaches its output, and only from a position holding 1; the rest keep their value. */
  lemma FSelectsOneTap(s: seq<Ind>, v: FVars)
    requires |s| == 128 && FHolds(s, v)
    ensures v.s0.y as int + v.s7.y as int + v.s38.y as int + v.s70.y as int + v.s81.y as int + v.s96.y as int <= 1
    ensures v.s0.y == 1 ==> s[0] == 1
    ensures v.s7.y == 1 ==> s[7] == 1
    ensures v.s38.y == 1 ==> s[38] == 1
    ensures v.s70.y == 1 ==> s[70] == 1
    ensures v.s81.y == 1 ==> s[81] == 1
    ensures v.s96.y == 1 ==> s[96] == 1
    ensures v.s0.y == 0 ==> FAfter(s, v)[0] == s[0]
    ensures v.s7.y == 0 ==> FAfter(s, v)[7] == s[7]
    ensures v.s38.y == 0 ==> FAfter(s, v)[38] == s[38]
    ensures v.s70.y == 0 ==> FAfter(s, v)[70] == s[70]
    ensures v.s81.y == 0 ==> FAfter(s, v)[81] == s[81]
    ensures v.s96.y == 0 ==> FAfter(s, v)[96] == s[96]
  {
  }

  // ---------------------------------------------------------------------------
  // funcG: g = b0 + b26 + b56 + b91 + b96 + b3 b67 + b11 b13 + b17 b18 + b27 b59
  //            + b40 b48 + b61 b65 + b68 b84 + b88 b92 b93 b95 + b22 b24 b25 + b70 b78 b82
  // ---------------------------------------------------------------------------

  datatype GVars = GVars(
    b26: TapVars, b56: TapVars, b91: TapVars, b96: TapVars,
    b3: TapVars, b67: TapVars, b11: TapVars, b13: TapVars, b17: TapVars, b18: TapVars,
    b27: TapVars, b59: TapVars, b40: TapVars, b48: TapVars, b61: TapVars, b65: TapVars,
    b68: TapVars, b84: TapVars, b88: TapVars, b92: TapVars, b93: TapVars, b95: TapVars,
    b22: TapVars, b24: TapVars, b25: TapVars, b70: TapVars, b78: TapVars, b82: TapVars, g: Ind)

  /** The taps of funcG on the NFSR b, in order. */
  predicate GTapsHold(b: seq<Ind>, v: GVars)
    requires |b| == 128
  {
    TapHolds(b[26], v.b26) && TapHolds(b[56], v.b56) && TapHolds(b[91], v.b91) && TapHolds(b[96], v.b96) &&
    TapHolds(b[3], v.b3) && TapHolds(b[67], v.b67) && TapHolds(b[11], v.b11) && TapHolds(b[13], v.b13) &&
    TapHolds(b[17], v.b17) && TapHolds(b[18], v.b18) && TapHolds(b[27], v.b27) && TapHolds(b[59], v.b59) &&
    TapHolds(b[40], v.b40) && TapHolds(b[48], v.b48) && TapHolds(b[61], v.b61) && TapHolds(b[65], v.b65) &&
    TapHolds(b[68], v.b68) && TapHolds(b[84], v.b84) && TapHolds(b[88], v.b88) && TapHolds(b[92], v.b92) &&
    TapHolds(b[93], v.b93) && TapHolds(b[95], v.b95) && TapHolds(b[22], v.b22) && TapHolds(b[24], v.b24) &&
    TapHolds(b[25], v.b25) && TapHolds(b[70], v.b70) && TapHolds(b[78], v.b78) && TapHolds(b[82], v.b82)
  }

  /** The factors of each product are copied with one shared value. */
  predicate GProductsShare(v: GVars)
  {
    v.b3.y == v.b67.y && v.b11.y == v.b13.y && v.b17.y == v.b18.y && v.b27.y == v.b59.y &&
    v.b40.y == v.b48.y && v.b61.y == v.b65.y && v.b68.y == v.b84.y &&
    v.b88.y == v.b92.y && v.b88.y == v.b93.y && v.b88.y == v.b95.y &&
    v.b22.y == v.b24.y && v.b22.y == v.b25.y &&
    v.b70.y == v.b78.y && v.b70.y == v.b82.y
  }

  /** The terms of g that reach it: one copy per linear tap and per product. */
  function GTerms(v: GVars): int
  {
    v.b26.y as int + v.b56.y as int + v.b91.y as int + v.b96.y as int + v.b3.y as int + v.b11.y as int +
    v.b17.y as int + v.b27.y as int + v.b40.y as int + v.b61.y as int + v.b68.y as int + v.b88.y as int +
    v.b22.y as int + v.b70.y as int
  }

  /** b0 is not tapped: it enters g with the variable it has. */
  predicate GHolds(b: seq<Ind>, v: GVars)
    requires |b| == 128
  {
    GTapsHold(b, v) && GProductsShare(v) && v.g as int == b[0] as int + GTerms(v)
  }

  function GAfter(b: seq<Ind>, v: GVars): (b': seq<Ind>)
    requires |b| == 128
    ensures |b'| == 128
  {
    b[26 := v.b26.z][56 := v.b56.z][91 := v.b91.z][96 := v.b96.z]
     [3 := v.b3.z][67 := v.b67.z][11 := v.b11.z][13 := v.b13.z][17 := v.b17.z][18 := v.b18.z]
     [27 := v.b27.z][59 := v.b59.z][40 := v.b40.z][48 := v.b48.z][61 := v.b61.z][65 := v.b65.z]
     [68 := v.b68.z][84 := v.b84.z][88 := v.b88.z][92 := v.b92.z][93 := v.b93.z][95 := v.b95.z]
     [22 := v.b22.z][24 := v.b24.z][25 := v.b25.z][70 := v.b70.z][78 := v.b78.z][82 := v.b82.z]
  }

  /** The four linear taps and the first three products of funcG. */
  method GTapsLow(b: array<Ind>, v: GVars) returns (ok: bool)
    requires b.Length == 128
    modifies b
    ensures ok == (
      TapHolds(old(b[26]), v.b26) && TapHolds(old(b[56]), v.b56) && TapHolds(old(b[91]), v.b91) && TapHolds(old(b[96]), v.b96) &&
      TapHolds(old(b[3]), v.b3) && TapHolds(old(b[67]), v.b67) && TapHolds(old(b[11]), v.b11) && TapHolds(old(b[13]), v.b13) &&
      TapHolds(old(b[17]), v.b17) && TapHolds(old(b[18]), v.b18) &&
      v.b3.y == v.b67.y && v.b11.y == v.b13.y && v.b17.y == v.b18.y)
    ensures b[..] == old(b[..])[26 := v.b26.z][56 := v.b56.z][91 := v.b91.z][96 := v.b96.z]
     [3 := v.b3.z][67 := v.b67.z][11 := v.b11.z][13 := v.b13.z][17 := v.b17.z][18 := v.b18.z]
  {
    var ok1, b26 := Tap(b, 26, v.b26);
    var ok2, b56 := Tap(b, 56, v.b56);
    var ok3, b91 := Tap(b, 91, v.b91);
    var ok4, b96 := Tap(b, 96, v.b96);
    ok := ok1 && ok2 && ok3 && ok4;

    var ok5, b3 := Tap(b, 3, v.b3);
    var ok6, b67 := Tap(b, 67, v.b67);
    ok := ok && ok5 && ok6 && b3 == b67;

    var ok7, b11 := Tap(b, 11, v.b11);
    var ok8, b13 := Tap(b, 13, v.b13);
    ok := ok && ok7 && ok8 && b11 == b13;

    var ok9, b17 := Tap(b, 17, v.b17);
    var ok10, b18 := Tap(b, 18, v.b18);
    ok := ok && ok9 && ok10 && b17 == b18;
  }

  /** The products b27 b59, b40 b48, b61 b65 and b68 b84 of funcG. */
  method GTapsMid(b: array<Ind>, v: GVars) returns (ok: bool)
    requires b.Length == 128
    modifies b
    ensures ok == (
      TapHolds(old(b[27]), v.b27) && TapHolds(old(b[59]), v.b59) &&
      TapHolds(old(b[40]), v.b40) && TapHolds(old(b[48]), v.b48) && TapHolds(old(b[61]), v.b61) && TapHolds(old(b[65]), v.b65) &&
      TapHolds(old(b[68]), v.b68) && TapHolds(old(b[84]), v.b84) &&
      v.b27.y == v.b59.y && v.b40.y == v.b48.y && v.b61.y == v.b65.y && v.b68.y == v.b84.y)
    ensures b[..] == old(b[..])
     [27 := v.b27.z][59 := v.b59.z][40 := v.b40.z][48 := v.b48.z][61 := v.b61.z][65 := v.b65.z]
     [68 := v.b68.z][84 := v.b84.z]
  {
    var ok1, b27 := Tap(b, 27, v.b27);
    var ok2, b59 := Tap(b, 59, v.b59);
    ok := ok1 && ok2 && b27 == b59;

    var ok3, b40 := Tap(b, 40, v.b40);
    var ok4, b48 := Tap(b, 48, v.b48);
    ok := ok && ok3 && ok4 && b40 == b48;

    var ok5, b61 := Tap(b, 61, v.b61);
    var ok6, b65 := Tap(b, 65, v.b65);
    ok := ok && ok5 && ok6 && b61 == b65;

    var ok7, b68 := Tap(b, 68, v.b68);
    var ok8, b84 := Tap(b, 84, v.b84);
    ok := ok && ok7 && ok8 && b68 == b84;
  }

  /** The products b88 b92 b93 b95, b22 b24 b25 and b70 b78 b82 of funcG. */
  method GTapsTop(b: array<Ind>, v: GVars) returns (ok: bool)
    requires b.Length == 128
    modifies b
    ensures ok == (
      TapHolds(old(b[88]), v.b88) && TapHolds(old(b[92]), v.b92) &&
      TapHolds(old(b[93]), v.b93) && TapHolds(old(b[95]), v.b95) && TapHolds(old(b[22]), v.b22) && TapHolds(old(b[24]), v.b24) &&
      TapHolds(old(b[25]), v.b25) && TapHolds(old(b[70]), v.b70) && TapHolds(old(b[78]), v.b78) && TapHolds(old(b[82]), v.b82) &&
      v.b88.y == v.b92.y && v.b88.y == v.b93.y && v.b88.y == v.b95.y &&
      v.b22.y == v.b24.y && v.b22.y == v.b25.y && v.b70.y == v.b78.y && v.b70.y == v.b82.y)
    ensures b[..] == old(b[..])
     [88 := v.b88.z][92 := v.b92.z][93 := v.b93.z][95 := v.b95.z]
     [22 := v.b22.z][24 := v.b24.z][25 := v.b25.z][70 := v.b70.z][78 := v.b78.z][82 := v.b82.z]
  {
    var ok1, b88 := Tap(b, 88, v.b88);
    var ok2, b92 := Tap(b, 92, v.b92);
    var ok3, b93 := Tap(b, 93, v.b93);
    var ok4, b95 := Tap(b, 95, v.b95);
    ok := ok1 && ok2 && ok3 && ok4 && b88 == b92 && b88 == b93 && b88 == b95;

    var ok5, b22 := Tap(b, 22, v.b22);
    var ok6, b24 := Tap(b, 24, v.b24);
    var ok7, b25 := Tap(b, 25, v.b25);
    ok := ok && ok5 && ok6 && ok7 && b22 == b24 && b22 == b25;

    var ok8, b70 := Tap(b, 70, v.b70);
    var ok9, b78 := Tap(b, 78, v.b78);
    var ok10, b82 := Tap(b, 82, v.b82);
    ok := ok && ok8 && ok9 && ok10 && b70 == b78 && b70 == b82;
  }

  method FuncG(b: array<Ind>, v: GVars) returns (ok: bool, g: Ind)
    requires b.Length == 128
    modifies b
    ensures ok == GHolds(old(b[..]), v)
    ensures b[..] == GAfter(old(b[..]), v)
    ensures g == v.g
  {
    ghost var b0 := b[..];
    var x0 := b[0];
    var okLow := GTapsLow(b, v);
    ghost var b1 := b[..];
    var okMid := GTapsMid(b, v);
    ghost var b2 := b[..];
    assert forall i | i in {27, 59, 40, 48, 61, 65, 68, 84, 88, 92, 93, 95, 22, 24, 25, 70, 78, 82} :: b1[i] == b0[i];
    var okTop := GTapsTop(b, v);
    assert forall i | i in {88, 92, 93, 95, 22, 24, 25, 70, 78, 82} :: b2[i] == b0[i];
    g := v.g;
    ok := okLow && okMid && okTop && g as int == x0 as int + GTerms(v);
  }

  /**
    What a solution of funcG means: a product's copy is 1 only when all its
    factors are 1, and g is binary, so at most one term (b0, a linear tap or a
    product) reaches it.
   */
  lemma GSelectsOneTerm(b: seq<Ind>, v: GVars)
    requires |b| == 128 && GHolds(b, v)
    ensures b[0] as int + GTerms(v) <= 1
    ensures v.b26.y == 1 ==> b[26] == 1
    ensures v.b56.y == 1 ==> b[56] == 1
    ensures v.b91.y == 1 ==> b[91] == 1
    ensures v.b96.y == 1 ==> b[96] == 1
    ensures v.b3.y == 1 ==> b[3] == 1 && b[67] == 1
    ensures v.b11.y == 1 ==> b[11] == 1 && b[13] == 1
    ensures v.b17.y == 1 ==> b[17] == 1 && b[18] == 1
    ensures v.b27.y == 1 ==> b[27] == 1 && b[59] == 1
    ensures v.b40.y == 1 ==> b[40] == 1 && b[48] == 1
    ensures v.b61.y == 1 ==> b[61] == 1 && b[65] == 1
    ensures v.b68.y == 1 ==> b[68] == 1 && b[84] == 1
    ensures v.b88.y == 1 ==> b[88] == 1 && b[92] == 1 && b[93] == 1 && b[95] == 1
    ensures v.b22.y == 1 ==> b[22] == 1 && b[24] == 1 && b[25] == 1
    ensures v.b70.y == 1 ==> b[70] == 1 && b[78] == 1 && b[82] == 1
  {
  }
}
