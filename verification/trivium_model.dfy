/**
  TriviumModel: the constraint system of the Trivium enumeration, as a
  predicate over one solution, and the methods that build it round by round.

  A solution gives values to the 288 round-0 state variables and to the fresh
  variables of every round (three core steps per round). The state of round
  r + 1 is the state of round r after the three core steps, rotated by one
  position: s[r + 1][(i + 1) mod 288] = tmp[i].
 */
module TriviumModel {
  import opened Bits
  import opened TriviumRules
  import opened TwoStage

  const Width: nat := 288

  /** The three core steps of a round, in the order the round applies them. */
  const Core1: Core := Core(65, 170, 90, 91, 92)
  const Core2: Core := Core(161, 263, 174, 175, 176)
  const Core3: Core := Core(242, 68, 285, 286, 287)

  /** The positions whose sum is the key-stream bit (s66, s93, s162, s177, s243, s288). */
  const Outputs: seq<nat> := [65, 92, 161, 176, 242, 287]

  predicate IsOutput(i: int)
  {
    i == 65 || i == 92 || i == 161 || i == 176 || i == 242 || i == 287
  }

  /** The fresh variables of one round: one record per core step. */
  datatype RoundVars = RoundVars(c1: CoreVars, c2: CoreVars, c3: CoreVars)

  type State = s: seq<Ind> | |s| == 288 witness seq(288, i => 0)

  lemma CoresValid()
    ensures ValidCore(Core1, Width) && ValidCore(Core2, Width) && ValidCore(Core3, Width)
  {
  }

  /** tmp after the three core steps of one round. */
  function RoundTmp(x: State, rv: RoundVars): (t: State)
  {
    var t1 := CoreRebind(x, Core1, rv.c1);
    var t2 := CoreRebind(t1, Core2, rv.c2);
    CoreRebind(t2, Core3, rv.c3)
  }

  /** The constraints of the three core steps, each read on the variables current when it is called. */
  predicate RoundHolds(x: State, rv: RoundVars)
  {
    var t1 := CoreRebind(x, Core1, rv.c1);
    var t2 := CoreRebind(t1, Core2, rv.c2);
    CoreHolds(x, Core1, rv.c1) && CoreHolds(t1, Core2, rv.c2) && CoreHolds(t2, Core3, rv.c3)
  }

  /** The state of the next round. */
  function NextState(x: State, rv: RoundVars): (r: State)
  {
    Rotate(RoundTmp(x, rv))
  }

  /**
    The three core steps touch fifteen different positions, so each reads the
    round's incoming variables: the order of the calls does not matter.
   */
  lemma RoundReadsIncoming(x: State, rv: RoundVars)
    ensures RoundHolds(x, rv) <==>
            CoreHolds(x, Core1, rv.c1) && CoreHolds(x, Core2, rv.c2) && CoreHolds(x, Core3, rv.c3)
    ensures RoundTmp(x, rv) == CoreRebind(CoreRebind(CoreRebind(x, Core3, rv.c3), Core2, rv.c2), Core1, rv.c1)
  {
    var t1 := CoreRebind(x, Core1, rv.c1);
    var t2 := CoreRebind(t1, Core2, rv.c2);
    CoreRebindOnlyTouches(x, Core1, rv.c1);
    CoreRebindOnlyTouches(t1, Core2, rv.c2);
    assert t1[174] == x[174] && t1[175] == x[175] && t1[176] == x[176] && t1[161] == x[161] && t1[263] == x[263];
    assert t2[285] == x[285] && t2[286] == x[286] && t2[287] == x[287] && t2[242] == x[242] && t2[68] == x[68];
    var u1 := CoreRebind(x, Core3, rv.c3);
    var u2 := CoreRebind(u1, Core2, rv.c2);
    var u3 := CoreRebind(u2, Core1, rv.c1);
    var t3 := RoundTmp(x, rv);
    CoreRebindOnlyTouches(t2, Core3, rv.c3);
    CoreRebindOnlyTouches(x, Core3, rv.c3);
    CoreRebindOnlyTouches(u1, Core2, rv.c2);
    CoreRebindOnlyTouches(u2, Core1, rv.c1);
    forall j | 0 <= j < Width
      ensures t3[j] == u3[j]
    {
    }
  }

  /** Every position a round does not touch moves one place up with its variable. */
  lemma RoundMovesUntouched(x: State, rv: RoundVars, i: nat)
    requires i < Width && !Touches(Core1, i) && !Touches(Core2, i) && !Touches(Core3, i)
    ensures NextState(x, rv)[(i + 1) % Width] == x[i]
  {
    var t1 := CoreRebind(x, Core1, rv.c1);
    var t2 := CoreRebind(t1, Core2, rv.c2);
    CoreRebindOnlyTouches(x, Core1, rv.c1);
    CoreRebindOnlyTouches(t1, Core2, rv.c2);
    CoreRebindOnlyTouches(t2, Core3, rv.c3);
    RotateAt(RoundTmp(x, rv), i);
  }

  /** The states of rounds 0..|rounds| of one solution. */
  function States(s0: State, rounds: seq<RoundVars>): (ss: seq<State>)
    ensures |ss| == |rounds| + 1 && ss[0] == s0
  {
    if rounds == [] then [s0]
    else
      var n := |rounds| - 1;
      var prev := States(s0, rounds[..n]);
      prev + [NextState(prev[n], rounds[n])]
  }

  lemma StatesPrefix(s0: State, rounds: seq<RoundVars>, n: nat)
    requires n <= |rounds|
    ensures States(s0, rounds[..n]) == States(s0, rounds)[..n + 1]
  {
    var a, b := States(s0, rounds[..n]), States(s0, rounds)[..n + 1];
    forall r | 0 <= r < n + 1
      ensures a[r] == b[r]
    {
      StatesPrefixAt(s0, rounds, n, r);
    }
  }

  lemma {:induction false} StatesPrefixAt(s0: State, rounds: seq<RoundVars>, n: nat, r: nat)
    requires r <= n <= |rounds|
    ensures States(s0, rounds[..n])[r] == States(s0, rounds)[r]
  {
    if r > 0 {
      StatesPrefixAt(s0, rounds, n, r - 1);
      StatesStep(s0, rounds[..n], r - 1);
      StatesStep(s0, rounds, r - 1);
      assert rounds[..n][r - 1] == rounds[r - 1];
    }
  }

  /** Each state is the one before it after one round. */
  lemma {:induction false} StatesStep(s0: State, rounds: seq<RoundVars>, r: nat)
    requires r < |rounds|
    ensures States(s0, rounds)[r + 1] == NextState(States(s0, rounds)[r], rounds[r])
  {
    var n := |rounds| - 1;
    if r < n {
      StatesStep(s0, rounds[..n], r);
      assert rounds[..n][r] == rounds[r];
    }
  }

  /** Every round's constraints hold: those of the rounds before the last, and the last one's on its incoming state. */
  predicate RoundsHold(s0: State, rounds: seq<RoundVars>)
  {
    if rounds == [] then true
    else
      var n := |rounds| - 1;
      RoundsHold(s0, rounds[..n]) && RoundHolds(States(s0, rounds[..n])[n], rounds[n])
  }

  /** One more round extends the states by its next state and the constraints by its own. */
  lemma RoundsHoldSnoc(s0: State, rounds: seq<RoundVars>, r: nat)
    requires r < |rounds|
    ensures States(s0, rounds[..r + 1]) == States(s0, rounds[..r]) + [NextState(States(s0, rounds[..r])[r], rounds[r])]
    ensures RoundsHold(s0, rounds[..r + 1]) == (RoundsHold(s0, rounds[..r]) && RoundHolds(States(s0, rounds[..r])[r], rounds[r]))
  {
    assert rounds[..r + 1][..r] == rounds[..r];
  }

  // ---------------------------------------------------------------------------
  // Initial state and output target
  // ---------------------------------------------------------------------------

  /**
    The IV constraint (active cube bits are 1) and the constant-0 constraint
    (positions flagged 0 are 0).
   */
  predicate InitialHolds(cube: seq<int>, flag: seq<int>, s0: State)
    requires |cube| == 80 && |flag| == Width
  {
    (forall i :: 0 <= i < 80 && cube[i] == 1 ==> s0[93 + i] == 1) &&
    (forall i :: 0 <= i < Width && flag[i] == 0 ==> s0[i] == 0)
  }

  method InitialConstraints(cube: seq<int>, flag: seq<int>, s0: State) returns (ok: bool)
    requires |cube| == 80 && |flag| == Width
    ensures ok == InitialHolds(cube, flag, s0)
  {
    ok := true;
    for i := 0 to 80
      invariant ok == forall j :: 0 <= j < i && cube[j] == 1 ==> s0[93 + j] == 1
    {
      if cube[i] == 1 {
        ok := ok && s0[93 + i] == 1;
      }
    }
    var ok0 := true;
    for i := 0 to Width
      invariant ok0 == forall j :: 0 <= j < i && flag[j] == 0 ==> s0[j] == 0
    {
      if flag[i] == 0 {
        ok0 := ok0 && s0[i] == 0;
      }
    }
    ok := ok && ok0;
  }

  /**
    The output constraint. Target 0: every non-output position is 0 and the six
    outputs sum to 1. Targets 1..6: the one output s66, s93, s162, s177, s243 or
    s288 is 1 and every other position is 0. Any other target adds nothing.
   */
  predicate TargetHolds(x: State, target: int)
  {
    if target == 0 then
      (forall i :: 0 <= i < Width && !IsOutput(i) ==> x[i] == 0) &&
      x[65] as int + x[92] as int + x[161] as int + x[176] as int + x[242] as int + x[287] as int == 1
    else if 1 <= target <= 6 then
      forall i :: 0 <= i < Width ==> x[i] == (if i == Outputs[target - 1] then 1 else 0)
    else true
  }

  method TargetConstraint(x: State, target: int) returns (ok: bool)
    ensures ok == TargetHolds(x, target)
  {
    ok := true;
    if target == 0 {
      var ks: int := 0;
      for i := 0 to Width
        invariant ok == forall j :: 0 <= j < i && !IsOutput(j) ==> x[j] == 0
        invariant ks == OutputsBelow(x, i)
      {
        if i == 65 || i == 92 || i == 161 || i == 176 || i == 242 || i == 287 {
          ks := ks + x[i];
        } else {
          ok := ok && x[i] == 0;
        }
      }
      ok := ok && ks == 1;
    } else if 1 <= target <= 6 {
      var pos := Outputs[target - 1];
      for i := 0 to Width
        invariant ok == forall j :: 0 <= j < i ==> x[j] == (if j == pos then 1 else 0)
      {
        if i == pos {
          ok := ok && x[i] == 1;
        } else {
          ok := ok && x[i] == 0;
        }
      }
    }
  }

  /** The sum of the output positions below n. */
  function OutputsBelow(x: State, n: nat): int
  {
    (if 65 < n then x[65] as int else 0) + (if 92 < n then x[92] as int else 0) +
    (if 161 < n then x[161] as int else 0) + (if 176 < n then x[176] as int else 0) +
    (if 242 < n then x[242] as int else 0) + (if 287 < n then x[287] as int else 0)
  }

  /**
    The six single targets split target 0: a final state meets target 0 exactly
    when it meets one of the targets 1..6, and it meets at most one of them. So
    the six separate runs over one counting box count the trails of target 0.
   */
  lemma TargetsPartitionTargetZero(x: State)
    ensures TargetHolds(x, 0) <==> exists t :: 1 <= t <= 6 && TargetHolds(x, t)
    ensures forall t1, t2 :: 1 <= t1 <= 6 && 1 <= t2 <= 6 && TargetHolds(x, t1) && TargetHolds(x, t2) ==> t1 == t2
  {
    if TargetHolds(x, 0) {
      var t := if x[65] == 1 then 1 else if x[92] == 1 then 2 else if x[161] == 1 then 3
               else if x[176] == 1 then 4 else if x[242] == 1 then 5 else 6;
      forall i | 0 <= i < Width
        ensures x[i] == (if i == Outputs[t - 1] then 1 else 0)
      {
      }
      assert TargetHolds(x, t);
    }
    forall t | 1 <= t <= 6 && TargetHolds(x, t)
      ensures TargetHolds(x, 0)
    {
      var p := Outputs[t - 1];
      assert x[p] == 1;
      forall i | 0 <= i < Width && IsOutput(i)
        ensures x[i] == (if i == p then 1 else 0)
      {
      }
    }
    forall t1, t2 | 1 <= t1 <= 6 && 1 <= t2 <= 6 && TargetHolds(x, t1) && TargetHolds(x, t2)
      ensures t1 == t2
    {
      assert x[Outputs[t1 - 1]] == 1;
      assert x[Outputs[t1 - 1]] == (if Outputs[t1 - 1] == Outputs[t2 - 1] then 1 else 0);
    }
  }

  // ---------------------------------------------------------------------------
  // One solution of the whole model
  // ---------------------------------------------------------------------------

  /** A solution of the whole model: a division trail from the round-0 monomial to the target. */
  predicate IsTrail(cube: seq<int>, flag: seq<int>, target: int, opt: Stage, s0: State, rounds: seq<RoundVars>)
    requires |cube| == 80 && |flag| == Width
  {
    var ss := States(s0, rounds);
    InitialHolds(cube, flag, s0) && RoundsHold(s0, rounds) &&
    TargetHolds(ss[|rounds|], target) && StageHolds(opt, ss)
  }

  /** The three core steps of one round, applied in place to tmp, a copy of the round's state. */
  method CoreSteps(x: State, rv: RoundVars) returns (ok: bool, tmp: array<Ind>)
    ensures fresh(tmp)
    ensures ok == RoundHolds(x, rv)
    ensures tmp[..] == RoundTmp(x, rv)
  {
    CoresValid();
    tmp := new Ind[Width](i requires 0 <= i < Width => x[i]);
    assert tmp[..] == x;
    var ok1 := TriviumCoreThree(tmp, Core1, rv.c1);
    var ok2 := TriviumCoreThree(tmp, Core2, rv.c2);
    var ok3 := TriviumCoreThree(tmp, Core3, rv.c3);
    ok := ok1 && ok2 && ok3;
  }

  /** The rotation into the next round's variables: s[r + 1][(i + 1) mod 288] = tmp[i]. */
  method RotateInto(tmp: array<Ind>) returns (nxt: array<Ind>)
    requires tmp.Length == Width
    ensures fresh(nxt)
    ensures nxt[..] == Rotate(tmp[..])
  {
    nxt := new Ind[Width];
    for i := 0 to Width
      invariant forall j :: 0 <= j < i ==> nxt[(j + 1) % Width] == tmp[j]
    {
      nxt[(i + 1) % Width] := tmp[i];
    }
    var t := tmp[..];
    forall p | 0 <= p < Width
      ensures nxt[p] == Rotate(t)[p]
    {
      var j := if p == 0 then Width - 1 else p - 1;
      assert (j + 1) % Width == p;
      RotateAt(t, j);
    }
  }

  /** One round of the construction: three core steps on a copy, then the rotation. */
  method ApplyRound(x: State, rv: RoundVars) returns (ok: bool, next: State)
    ensures ok == RoundHolds(x, rv)
    ensures next == NextState(x, rv)
  {
    var tmp;
    ok, tmp := CoreSteps(x, rv);
    var nxt := RotateInto(tmp);
    next := nxt[..];
  }

  /** The round loop of the construction: every round's constraints, and the states they lead to. */
  method BuildRounds(s0: State, rounds: seq<RoundVars>) returns (ok: bool, ss: seq<State>)
    ensures ss == States(s0, rounds)
    ensures ok == RoundsHold(s0, rounds)
  {
    ss := [s0];
    ok := true;
    for r := 0 to |rounds|
      invariant ss == States(s0, rounds[..r])
      invariant ok == RoundsHold(s0, rounds[..r])
    {
      ok, ss := RoundLoopStep(s0, rounds, r, ok, ss);
    }
    assert rounds[..|rounds|] == rounds;
  }

  /** One pass of the round loop: round r's constraints, and the state they lead to. */
  method RoundLoopStep(s0: State, rounds: seq<RoundVars>, r: nat, ok: bool, ss: seq<State>) returns (ok': bool, ss': seq<State>)
    requires r < |rounds|
    requires ss == States(s0, rounds[..r]) && ok == RoundsHold(s0, rounds[..r])
    ensures ss' == States(s0, rounds[..r + 1]) && ok' == RoundsHold(s0, rounds[..r + 1])
  {
    var okr, next := ApplyRound(ss[r], rounds[r]);
    RoundsHoldSnoc(s0, rounds, r);
    ok' := ok && okr;
    ss' := ss + [next];
  }

  /**
    The model construction of the Trivium enumeration evaluated on one solution:
    it accepts exactly the division trails of the configured model.
   */
  method BuildModel(cube: seq<int>, flag: seq<int>, target: int, opt: Stage, s0: State, rounds: seq<RoundVars>)
    returns (ok: bool, ss: seq<State>)
    requires |cube| == 80 && |flag| == Width
    ensures ss == States(s0, rounds)
    ensures ok == IsTrail(cube, flag, target, opt, s0, rounds)
  {
    var ok0 := InitialConstraints(cube, flag, s0);
    var okRounds;
    okRounds, ss := BuildRounds(s0, rounds);
    var okT := TargetConstraint(ss[|rounds|], target);
    var okS := StageConstraint(opt, ss);
    ok := ok0 && okRounds && okT && okS;
  }
}
