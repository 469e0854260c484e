/**
  Disproof855: the model that checks a claimed 855-round superpoly monomial.

  It is the Trivium three-subset division property model with a fixed cube I
  and a fixed key monomial J, and one change: at round 210 the variable of
  state position 93 is cut off. A fresh p takes its value through
  s[210][93] = OR(p, newvar), where newvar is bounded to [0, 0]; position 93
  then continues as newvar, that is as the constant 0, and a further fresh o
  with q = o + p, q = 1 records the complement of p.
 */
module Disproof855 {
  import opened Bits
  import opened TriviumRules
  import opened TriviumModel

  /** The round at whose state position 93 is cut off. */
  const CutRound: nat := 210

  /** The position that is cut off. */
  const CutPos: nat := 93

  /** The values of the variables of the cut: p, o and q (newvar is the constant 0). */
  datatype Cut = Cut(p: Ind, o: Ind, q: Ind)

  /**
    The constraints of the cut, read on the state of round 210 before position
    93 is rebound: x[93] = OR(p, 0), q = o + p and q = 1.
   */
  predicate CutHolds(x: State, c: Cut)
  {
    x[CutPos] == Or(c.p, 0) && c.q as int == c.o as int + c.p as int && c.q == 1
  }

  /**
    The cut never excludes a state: for every value of position 93 it has
    exactly one solution, p equal to that value and o its complement.
   */
  lemma CutHasOneSolution(x: State, c: Cut)
    ensures CutHolds(x, c) <==> c == Cut(x[CutPos], 1 - x[CutPos], 1)
  {
  }

  /** The constraints of the cut and the state that goes on: position 93 now holds newvar = 0. */
  method Substitute(x: State, c: Cut) returns (ok: bool, y: State)
    ensures ok == CutHolds(x, c)
    ensures y[CutPos] == 0 && forall i :: 0 <= i < Width && i != CutPos ==> y[i] == x[i]
  {
    ok := x[CutPos] == Or(c.p, 0);
    ok := ok && c.q as int == c.o as int + c.p as int;
    ok := ok && c.q == 1;
    y := x[CutPos := 0];
  }

  /** The state of round r + 1 of the cut model: the Trivium round, then the cut at round 210. */
  function CutNext(x: State, rv: RoundVars, r: nat): State
  {
    var nxt := NextState(x, rv);
    if r + 1 == CutRound then nxt[CutPos := 0] else nxt
  }

  /** The states of rounds 0..|rounds| of one solution of the cut model. */
  function CutStates(s0: State, rounds: seq<RoundVars>): (ss: seq<State>)
    ensures |ss| == |rounds| + 1 && ss[0] == s0
  {
    if rounds == [] then [s0]
    else
      var n := |rounds| - 1;
      var prev := CutStates(s0, rounds[..n]);
      prev + [CutNext(prev[n], rounds[n], n)]
  }

  /** The IV constraint s[0][93 + I[i]] = 1 and the key constraint s[0][J[j]] = 1. */
  predicate InitialHolds855(I: seq<int>, J: seq<int>, s0: State)
    requires forall i :: 0 <= i < |I| ==> 0 <= 93 + I[i] < Width
    requires forall j :: 0 <= j < |J| ==> 0 <= J[j] < Width
  {
    (forall i :: 0 <= i < |I| ==> s0[93 + I[i]] == 1) &&
    (forall j :: 0 <= j < |J| ==> s0[J[j]] == 1)
  }

  method InitialConstraints855(I: seq<int>, J: seq<int>, s0: State) returns (ok: bool)
    requires forall i :: 0 <= i < |I| ==> 0 <= 93 + I[i] < Width
    requires forall j :: 0 <= j < |J| ==> 0 <= J[j] < Width
    ensures ok == InitialHolds855(I, J, s0)
  {
    ok := true;
    for i := 0 to |I|
      invariant ok == forall k :: 0 <= k < i ==> s0[93 + I[k]] == 1
    {
      ok := ok && s0[93 + I[i]] == 1;
    }
    var okJ := true;
    for j := 0 to |J|
      invariant okJ == forall k :: 0 <= k < j ==> s0[J[k]] == 1
    {
      okJ := okJ && s0[J[j]] == 1;
    }
    ok := ok && okJ;
  }

  /**
    A solution of the whole model: the initial constraints, every round's core
    steps read on the cut states, the cut (when the model reaches round 210)
    read on the uncut state of round 210, and the output target.
   */
  predicate IsCutTrail(I: seq<int>, J: seq<int>, target: int, s0: State, rounds: seq<RoundVars>, c: Cut)
    requires forall i :: 0 <= i < |I| ==> 0 <= 93 + I[i] < Width
    requires forall j :: 0 <= j < |J| ==> 0 <= J[j] < Width
  {
    var ss := CutStates(s0, rounds);
    InitialHolds855(I, J, s0) &&
    CutModelHolds(s0, rounds, c) &&
    TargetHolds(ss[|rounds|], target)
  }

  /** When the model reaches round 210, the cut holds on the uncut state of round 210. */
  predicate CutApplied(s0: State, rounds: seq<RoundVars>, c: Cut)
  {
    |rounds| >= CutRound ==> CutHolds(NextState(CutStates(s0, rounds)[CutRound - 1], rounds[CutRound - 1]), c)
  }

  /** Every round's core steps hold, each read on its incoming cut state. */
  predicate CutRoundsHold(s0: State, rounds: seq<RoundVars>)
  {
    if rounds == [] then true
    else
      var n := |rounds| - 1;
      CutRoundsHold(s0, rounds[..n]) && RoundHolds(CutStates(s0, rounds[..n])[n], rounds[n])
  }

  /** One more round extends the cut states by its next state and the constraints by its own. */
  lemma CutStatesSnoc(s0: State, rounds: seq<RoundVars>, r: nat)
    requires r < |rounds|
    ensures CutStates(s0, rounds[..r + 1]) ==
            CutStates(s0, rounds[..r]) + [CutNext(CutStates(s0, rounds[..r])[r], rounds[r], r)]
    ensures CutRoundsHold(s0, rounds[..r + 1]) ==
            (CutRoundsHold(s0, rounds[..r]) && RoundHolds(CutStates(s0, rounds[..r])[r], rounds[r]))
  {
    assert rounds[..r + 1][..r] == rounds[..r];
  }

  /** The cut is added by the round that reaches round 210 and by no other. */
  lemma CutAppliedSnoc(s0: State, rounds: seq<RoundVars>, r: nat, c: Cut)
    requires r < |rounds|
    ensures CutApplied(s0, rounds[..r + 1], c) ==
            if r + 1 < CutRound then true
            else if r + 1 == CutRound then CutHolds(NextState(CutStates(s0, rounds[..r])[r], rounds[r]), c)
            else CutApplied(s0, rounds[..r], c)
  {
    CutStatesSnoc(s0, rounds, r);
    if r + 1 > CutRound {
      assert CutStates(s0, rounds[..r + 1])[CutRound - 1] == CutStates(s0, rounds[..r])[CutRound - 1];
      assert rounds[..r + 1][CutRound - 1] == rounds[..r][CutRound - 1];
    }
  }

  /** One round of veryfi855: the Trivium round, and at round 210 the cut. */
  method CutRoundStep(x: State, rv: RoundVars, r: nat, c: Cut) returns (okr: bool, okc: bool, next: State)
    ensures okr == RoundHolds(x, rv)
    ensures r + 1 == CutRound ==> okc == CutHolds(NextState(x, rv), c)
    ensures next == CutNext(x, rv, r)
  {
    okr, next := ApplyRound(x, rv);
    okc := true;
    if r + 1 == CutRound {
      var y;
      okc, y := Substitute(next, c);
      assert y == next[CutPos := 0];
      next := y;
    }
  }

  /** The round constraints and the cut of the rounds done so far. */
  predicate CutModelHolds(s0: State, rounds: seq<RoundVars>, c: Cut)
  {
    CutRoundsHold(s0, rounds) && CutApplied(s0, rounds, c)
  }

  /** One pass of the round loop: round r, its constraints, and the cut when it reaches round 210. */
  method CutLoopStep(s0: State, rounds: seq<RoundVars>, c: Cut, r: nat, ok: bool, ss: seq<State>)
    returns (ok': bool, ss': seq<State>)
    requires r < |rounds| && ss == CutStates(s0, rounds[..r]) && ok == CutModelHolds(s0, rounds[..r], c)
    ensures ss' == CutStates(s0, rounds[..r + 1]) && ok' == CutModelHolds(s0, rounds[..r + 1], c)
  {
    CutStatesSnoc(s0, rounds, r);
    CutAppliedSnoc(s0, rounds, r, c);
    var okr, okc, next := CutRoundStep(ss[r], rounds[r], r, c);
    ok' := ok && okr && (r + 1 != CutRound || okc);
    ss' := ss + [next];
  }

  /** The round loop of veryfi855: the three core steps and the rotation, and after round 210 the cut. */
  method BuildCutRounds(s0: State, rounds: seq<RoundVars>, c: Cut) returns (ok: bool, ss: seq<State>)
    ensures ss == CutStates(s0, rounds)
    ensures ok == CutModelHolds(s0, rounds, c)
  {
    ss := [s0];
    ok := true;
    for r := 0 to |rounds|
      invariant ss == CutStates(s0, rounds[..r]) && ok == CutModelHolds(s0, rounds[..r], c)
    {
      ok, ss := CutLoopStep(s0, rounds, c, r, ok, ss);
    }
    assert rounds[..|rounds|] == rounds;
  }

  /** veryfi855's model construction evaluated on one solution: it accepts exactly the trails of the cut model. */
  method BuildCutModel(I: seq<int>, J: seq<int>, target: int, s0: State, rounds: seq<RoundVars>, c: Cut)
    returns (ok: bool, ss: seq<State>)
    requires forall i :: 0 <= i < |I| ==> 0 <= 93 + I[i] < Width
    requires forall j :: 0 <= j < |J| ==> 0 <= J[j] < Width
    ensures ss == CutStates(s0, rounds)
    ensures ok == IsCutTrail(I, J, target, s0, rounds, c)
  {
    var ok0 := InitialConstraints855(I, J, s0);
    var okR;
    okR, ss := BuildCutRounds(s0, rounds, c);
    var okT := TargetConstraint(ss[|rounds|], target);
    ok := ok0 && okR && okT;
  }

  // ---------------------------------------------------------------------------
  // The cut model against the Trivium model
  // ---------------------------------------------------------------------------

  /**
    Up to round 209 the cut model has the Trivium states; at round 210 it has
    the Trivium state with position 93 cleared.
   */
  lemma {:induction false} CutStatesAgree(s0: State, rounds: seq<RoundVars>)
    ensures forall r :: 0 <= r <= |rounds| && r < CutRound ==> CutStates(s0, rounds)[r] == States(s0, rounds)[r]
    ensures |rounds| >= CutRound ==> CutStates(s0, rounds)[CutRound] == States(s0, rounds)[CutRound][CutPos := 0]
  {
    if rounds != [] {
      var n := |rounds| - 1;
      CutStatesAgree(s0, rounds[..n]);
      StatesStep(s0, rounds, n);
      StatesPrefix(s0, rounds, n);
      assert rounds[..n] + [rounds[n]] == rounds;
    }
  }

  /**
    When the cut position carries no division property at round 210 (or the
    model stops before it) the cut changes nothing: the cut model has exactly
    the Trivium states.
   */
  lemma {:induction false} CutInactive(s0: State, rounds: seq<RoundVars>)
    requires |rounds| >= CutRound ==> States(s0, rounds)[CutRound][CutPos] == 0
    ensures CutStates(s0, rounds) == States(s0, rounds)
  {
    if rounds != [] {
      var n := |rounds| - 1;
      StatesPrefix(s0, rounds, n);
      if n >= CutRound {
        assert States(s0, rounds[..n])[CutRound] == States(s0, rounds)[CutRound];
      }
      CutInactive(s0, rounds[..n]);
      StatesStep(s0, rounds, n);
      if n + 1 == CutRound {
        var x := States(s0, rounds)[CutRound];
        assert x[CutPos := 0] == x;
      }
    }
  }

  /** In the state of round 210 the cut position is 0, in every solution. */
  lemma CutPositionCleared(s0: State, rounds: seq<RoundVars>)
    requires |rounds| >= CutRound
    ensures CutStates(s0, rounds)[CutRound][CutPos] == 0
  {
    CutStatesAgree(s0, rounds);
  }
}
