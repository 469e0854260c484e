/**
  TriviumRules: the constraints one call of the Trivium core step adds.

  The core step updates x[i5] <- x[i5] + x[i3] x[i4] + x[i2] + x[i1] and keeps
  every other position. Its three-subset division property model creates eight
  fresh binary variables, relates them to the current variables of positions
  i1..i5, and then rebinds those five positions to fresh variables; every other
  position keeps its variable.

  A variable is represented here by the value a solution gives it, so
  "rebinding position i to variable y" is writing the value of y at index i.
 */
module TriviumRules {
  import opened Bits

  /** The five positions one core step touches. */
  datatype Core = Core(i1: nat, i2: nat, i3: nat, i4: nat, i5: nat)

  predicate ValidCore(c: Core, n: nat)
  {
    c.i1 < n && c.i2 < n && c.i3 < n && c.i4 < n && c.i5 < n &&
    c.i1 != c.i2 && c.i1 != c.i3 && c.i1 != c.i4 && c.i1 != c.i5 &&
    c.i2 != c.i3 && c.i2 != c.i4 && c.i2 != c.i5 &&
    c.i3 != c.i4 && c.i3 != c.i5 &&
    c.i4 != c.i5
  }

  predicate Touches(c: Core, j: int)
  {
    j == c.i1 || j == c.i2 || j == c.i3 || j == c.i4 || j == c.i5
  }

  /** Values of the eight fresh variables y1..y5, z1, z2 and a of one call. */
  datatype CoreVars = CoreVars(y1: Ind, y2: Ind, y3: Ind, y4: Ind, y5: Ind, z1: Ind, z2: Ind, a: Ind)

  /**
    The constraints of one call, read on the values before the rebinding:
    copies at i1 and i2, one AND selector a shared by the copies of i3 and i4,
    and y5 = x[i5] + a + z1 + z2.
   */
  predicate CoreHolds(x: seq<Ind>, c: Core, v: CoreVars)
    requires ValidCore(c, |x|)
  {
    CopyRule(x[c.i1], v.y1, v.z1) &&
    CopyRule(x[c.i2], v.y2, v.z2) &&
    CopyRule(x[c.i3], v.y3, v.a) &&
    CopyRule(x[c.i4], v.y4, v.a) &&
    v.y5 as int == x[c.i5] as int + v.a as int + v.z1 as int + v.z2 as int
  }

  /** The state after the call: positions i1..i5 now hold y1..y5, the rest is unchanged. */
  function CoreRebind(x: seq<Ind>, c: Core, v: CoreVars): (r: seq<Ind>)
    requires ValidCore(c, |x|)
    ensures |r| == |x|
  {
    x[c.i1 := v.y1][c.i2 := v.y2][c.i3 := v.y3][c.i4 := v.y4][c.i5 := v.y5]
  }

  /** The call rebinds positions i1..i5 to y1..y5 and leaves every other position's variable in place. */
  lemma CoreRebindOnlyTouches(x: seq<Ind>, c: Core, v: CoreVars)
    requires ValidCore(c, |x|)
    ensures var r := CoreRebind(x, c, v);
      r[c.i1] == v.y1 && r[c.i2] == v.y2 && r[c.i3] == v.y3 && r[c.i4] == v.y4 && r[c.i5] == v.y5 &&
      forall j :: 0 <= j < |x| && !Touches(c, j) ==> r[j] == x[j]
  {
  }

  /** triviumCoreThree: adds the constraints and rebinds x[i1..i5] in place. */
  method TriviumCoreThree(x: array<Ind>, c: Core, v: CoreVars) returns (ok: bool)
    requires ValidCore(c, x.Length)
    modifies x
    ensures ok == CoreHolds(old(x[..]), c, v)
    ensures x[..] == CoreRebind(old(x[..]), c, v)
  {
    ok := CopyRule(x[c.i1], v.y1, v.z1);
    ok := ok && CopyRule(x[c.i2], v.y2, v.z2);
    ok := ok && CopyRule(x[c.i3], v.y3, v.a);
    ok := ok && CopyRule(x[c.i4], v.y4, v.a);
    ok := ok && v.y5 as int == x[c.i5] as int + v.a as int + v.z1 as int + v.z2 as int;
    x[c.i1] := v.y1;
    x[c.i2] := v.y2;
    x[c.i3] := v.y3;
    x[c.i4] := v.y4;
    x[c.i5] := v.y5;
  }

  /**
    What a feasible call means: the AND selector can only be 1 when both factors
    are 1, each factor keeps what the selector does not take, and the XOR sum
    being binary lets at most one of x[i5], x[i3] x[i4], x[i2], x[i1] reach the new x[i5].
   */
  lemma CoreSelectorAndSum(x: seq<Ind>, c: Core, v: CoreVars)
    requires ValidCore(c, |x|) && CoreHolds(x, c, v)
    ensures v.a == 1 ==> x[c.i3] == 1 && x[c.i4] == 1
    ensures v.y3 + v.a >= x[c.i3] && v.y4 + v.a >= x[c.i4]
    ensures x[c.i5] as int + v.a as int + v.z1 as int + v.z2 as int <= 1
    ensures v.y5 == 1 <==> x[c.i5] as int + v.a as int + v.z1 as int + v.z2 as int == 1
  {
  }

  /**
    The other direction: choosing which term of x[i5] + x[i3] x[i4] + x[i2] + x[i1]
    reaches the new x[i5] (when x holds it) and which copies stay, gives a
    feasible call with exactly those values.
   */
  lemma CoreChoiceFeasible(x: seq<Ind>, c: Core, keep1: bool, keep2: bool, keep3: bool, keep4: bool, term: nat)
    requires ValidCore(c, |x|) && term <= 4
    requires term == 0 ==> x[c.i5] == 0
    requires term == 1 ==> x[c.i5] == 1
    requires term == 2 ==> x[c.i5] == 0 && x[c.i3] == 1 && x[c.i4] == 1
    requires term == 3 ==> x[c.i5] == 0 && x[c.i2] == 1
    requires term == 4 ==> x[c.i5] == 0 && x[c.i1] == 1
    ensures
      var a: Ind := if term == 2 then 1 else 0;
      var z2: Ind := if term == 3 then 1 else 0;
      var z1: Ind := if term == 4 then 1 else 0;
      var y1: Ind := if x[c.i1] == 1 && (keep1 || z1 == 0) then 1 else 0;
      var y2: Ind := if x[c.i2] == 1 && (keep2 || z2 == 0) then 1 else 0;
      var y3: Ind := if x[c.i3] == 1 && (keep3 || a == 0) then 1 else 0;
      var y4: Ind := if x[c.i4] == 1 && (keep4 || a == 0) then 1 else 0;
      var y5: Ind := if term == 0 then 0 else 1;
      CoreHolds(x, c, CoreVars(y1, y2, y3, y4, y5, z1, z2, a))
  {
  }
}
