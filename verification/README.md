# Three-subset division property without unknown subset: a Dafny model

The repository searches for cube-attack superpolies of Trivium and Grain-128a
with the three-subset bit-based division property. It writes the propagation
of the division property through R initialisation rounds as a mixed-integer
linear program. Every feasible solution of that program is a division trail.
The solver enumerates the trails, and the program counts them per round-0
monomial u in a "counting box". A monomial with an odd number of trails
appears in the superpoly. A monomial with an even number cancels.

The solver is external, so this project models everything around it:

- the propagation rules (Trivium's core step, Grain-128a's `tap`, `funcH`,
  `funcO`, `funcF`, `funcG`) as relations over {0,1} values. Each rule
  constrains its inputs and fresh outputs and rebinds the state positions it
  has read;
- the round wiring, the initial-state and final-target constraints, and the
  resulting predicate "this round-indexed assignment is a division trail";
- the two-stage search. The lazy blocking constraint is a Hamming distance.
  Stage 2 pins the midpoint, and splitting at the midpoint preserves the
  counts (J[u] = sum over k' of J[u -> k'] J[k' -> k]);
- the counting box and what is done with it: storing a solution pool, the
  projection that clears cube and constant positions and re-sums, and the
  odd/even split;
- the reference computations used as an oracle: `roundFuncTrivium`,
  `roundFuncGrain128a`, `encryptionSum` (the cube sum) and `theoreticalSum`
  (the superpoly evaluated from the odd monomials);
- the 855-round disproof model. It is the Trivium model with fixed cube and
  key indices, and state position 93 is cut off at round 210.

## Representation

- A solver variable is represented by the value one solution gives it: `Ind`
  is an integer in {0, 1}, as `GRB_BINARY` prescribes.
- A constraint-building function becomes a method that takes the solution's
  values for the variables it creates. Its result `ok` says whether the
  constraints it adds hold. It rewrites the state array in place, as the C++
  rebinds entries of a `vector<GRBVar>&`.
- Its contract ties `ok` to a predicate and the new state to a function of
  the old one. Lemmas then state what those predicates mean.
- A bitset is a `seq<bool>`.
- A counting box is a `map<seq<bool>, nat>`. A missing key reads 0, as
  `std::map::operator[]` does.

Modules:

| file | module | what |
|---|---|---|
| bits.dfy | Bits | indicators, COPY/OR, bitset order, Hamming distance, rotation, integers as bit vectors |
| trivium_rules.dfy | TriviumRules | `triviumCoreThree` |
| trivium_model.dfy | TriviumModel | Trivium rounds, IV/flag constraints, output targets, trails |
| grain_rules.dfy | GrainRules | `tap`, `funcH`, `funcO`, `funcF`, `funcG` |
| grain_model.dfy | GrainModel | Grain-128a rounds, IV constraints, final round, trails |
| counting.dfy | CountingBox | storing pools, projection, totals, parity split |
| two_stage.dfy | TwoStage | blocking expression, stage-2 pinning, two-stage search and its equivalence |
| path_count.dfy | PathCount | the layered path-count identity |
| cube_sums.dfy | CubeSums | cube index map and loading a counter into the cube bits |
| trivium_cipher.dfy | TriviumCipher | `roundFuncTrivium`, `encryptionSum`, `theoreticalSum`, Trivium aggregation |
| grain_cipher.dfy | GrainCipher | `roundFuncGrain128a`, `encryptionSum`, `theoreticalSum`, Grain-128a aggregation |
| disproof855.dfy | Disproof855 | `veryfi855` |

## Model

| member | source | states |
|---|---|---|
| Bits.CmpBitset | code/recovery/trivium.cpp:4-14 | the comparator answers "a < b" exactly when `a` is lexicographically smaller: at the first differing index, `a` holds 0 and `b` holds 1 |
| Bits.LexLessStrictTotal | code/recovery/trivium.cpp:4-14 | the comparator's order is irreflexive and asymmetric, and it relates any two distinct bitsets of one length one way or the other |
| Bits.LexLessTransitive | code/recovery/grain128.cpp:4-14 | the comparator's order is transitive, so both map comparators are strict weak orders |
| Bits.CopyOutcomes | code/recovery/trivium.cpp:57-67 | the copies a value admits: 0 admits only (0,0), and 1 admits exactly (1,0), (0,1) and (1,1) |
| Bits.CopyRuleIsOr | code/recovery/grain128.cpp:50-59 | the three inequalities y <= x, z <= x, y + z >= x hold exactly when x = y OR z |
| Bits.HammingZeroIffEqual | code/recovery/trivium.cpp:155-164 | the Hamming distance is 0 exactly when the two bitsets are equal |
| Bits.HammingConcat | code/recovery/grain128.cpp:338-355 | the distance between the 256-bit b-then-s midpoints is the sum of the distances of the two registers |
| Bits.RotateAt | code/recovery/trivium.cpp:264-266 | position i of the round's temporary goes to position (i + 1) mod 288 |
| Bits.RotateBijective | code/recovery/trivium.cpp:264-266 | the rotation has an inverse on both sides and moves every variable exactly once, so it is a bijection on positions |
| Bits.BitsValueRoundTrip | code/recovery/trivium.cpp:689-694 | every assignment of D cube bits is the bit pattern of one counter value below 2^D |
| Bits.BitsDetermine | code/recovery/trivium.cpp:689-694 | two counter values below 2^D with the same low D bits are equal |
| CountingBox.StoreSolutions | code/recovery/trivium.cpp:418-433 | a pool of at least 2,000,000,000 solutions is refused; otherwise every key's count grows by the number of pool solutions with that round-0 bitset, and no other key appears |
| CountingBox.StoreKeys | code/recovery/trivium.cpp:427-433 | after the loop every key's count has grown by its number of occurrences among the solutions' keys, and the box holds exactly the old keys and those keys |
| CountingBox.ParityStep | code/recovery/trivium.cpp:715-730 | XOR-ing in one monomial flips the parity of the weighted total exactly when its count is odd and its value is 1 |
| CountingBox.Aggregate | code/recovery/trivium.cpp:598-611 | each projected key receives the sum of the counts of the keys that project onto it; the keys are exactly the projections; the number of trails and every weighted total blind to the cleared positions are unchanged |
| CountingBox.OddKeysDecideParity | code/recovery/trivium.cpp:16-18 | even counts cancel: every weighted total of the box has the parity of its sum over the odd list alone, and the even list's sum is even |
| CountingBox.OddPartDecides | code/recovery/trivium.cpp:613-642 | over any keys of the box, a weighted sum has the same parity as its part over the keys with an odd count |
| CountingBox.ParitySplit | code/recovery/grain128.cpp:777-809 | the odd and even lists are disjoint and together list every entry of the box |
| CubeSums.CubeIndices | code/recovery/trivium.cpp:679-686 | the index map lists exactly the cube positions, in increasing order |
| CubeSums.CubeMap | code/recovery/trivium.cpp:679-686 | the loop builds that index map, and DATA_SIZE is its length |
| CubeSums.LoadCounter | code/recovery/trivium.cpp:689-694 | the loop writes bit i of the counter into the i-th cube position of a copy of the loaded state |
| CubeSums.LoadCubeAt | code/recovery/trivium.cpp:689-694 | after loading, cube position i holds bit i of the counter, and every other position keeps its value |
| CubeSums.CubeAssignmentsInjective | code/recovery/grain128.cpp:1033-1037 | distinct counter values below 2^D load distinct states |
| CubeSums.CubeAssignmentsOnto | code/recovery/grain128.cpp:1033-1037 | every assignment of the cube bits is loaded by some counter value below 2^D, so the loop visits every assignment exactly once |
| CubeSums.LoadCubeOverwrites | code/recovery/trivium.cpp:689-694 | two states that differ only at cube positions load to the same state |
| TwoStage.BlockingValue | code/recovery/trivium.cpp:155-164 | the blocking expression evaluates to the Hamming distance between the found midpoint and the solution's midpoint |
| TwoStage.BlockingExcludesExactlyMidpoint | code/recovery/trivium.cpp:164 | "blocking expression >= 1" holds exactly when the midpoint differs from the blocked one |
| TwoStage.AdmittedIffNotBlocked | code/recovery/grain128.cpp:338-355 | a solution satisfies every lazy constraint added so far exactly when its midpoint is none of the blocked midpoints |
| TwoStage.PinnedToHint | code/recovery/trivium.cpp:356-361 | the stage-2 fixing constraints hold exactly when the midpoint state equals the hint |
| TwoStage.StageConstraint | code/recovery/grain128.cpp:511-525 | the constraints that each kind of call adds: none for a plain call; for a stage-1 call, the lazy constraints of the callback (grain128.cpp:338-355), a Hamming distance of at least 1 between the midpoint and every blocked midpoint of its width; for a stage-2 call, the midpoint pinned to the hint (an out-of-range round or a hint of the wrong width admits nothing) |
| TwoStage.TwoStageSearch | code/recovery/trivium.cpp:122-164 | assuming every incumbent respects the blocking constraints added before it, the stage-1 midpoints are pairwise distinct; the search is refused exactly when some stage-2 pool reaches the limit; otherwise each key's count grows by its number of occurrences over all stage-2 pools |
| TwoStage.SplitKeysComplete | code/recovery/trivium.cpp:21-26 | grouping a set of trails by distinct midpoints loses none and counts none twice |
| TwoStage.TwoStageEquivalence | code/recovery/trivium.cpp:140-142 | if each stage-2 pool holds exactly the trails through its midpoint, and every trail passes through a found midpoint, the stage-2 pools together hold exactly the keys of all trails |
| TwoStage.AllKeysIsSplit | code/recovery/trivium.cpp:140-142 | the stage-2 pools together hold the keys of the trails grouped by midpoint |
| PathCount.Split | code/recovery/trivium.cpp:21-26 | the number of paths u -> k through R rounds is the sum over the midpoints k' of (paths u -> k') times (paths k' -> k) |
| PathCount.SplitFrom | code/recovery/trivium.cpp:21-26 | the same identity for the paths that leave u through a given set of first-round edges |
| PathCount.MidSumEmpty | code/recovery/trivium.cpp:21-26 | with an empty first stage the only midpoint is u itself |
| TriviumRules.CoreRebindOnlyTouches | code/recovery/trivium.cpp:84-88 | the core step rebinds positions i1..i5 to their new variables and leaves every other position unchanged |
| TriviumRules.TriviumCoreThree | code/recovery/trivium.cpp:48-90 | the constraints it adds hold exactly as the core relation says, and the array afterwards is the rebound state |
| TriviumRules.CoreSelectorAndSum | code/recovery/trivium.cpp:54-82 | the AND selector is 1 only if both factors are 1, each factor keeps or passes its value, at most one of x[i5], a, z1, z2 is 1, and y5 is 1 exactly when one is |
| TriviumRules.CoreChoiceFeasible | code/recovery/trivium.cpp:63-82 | every choice of which contributor reaches y5, allowed by the inputs, is a solution of the core step |
| TriviumModel.RoundReadsIncoming | code/recovery/trivium.cpp:257-263 | the three core steps of a round read only positions the others do not touch, so each reads the round's incoming state |
| TriviumModel.RoundMovesUntouched | code/recovery/trivium.cpp:264-266 | a position no core step touches moves unchanged to the next position |
| TriviumModel.StatesStep | code/recovery/trivium.cpp:257-267 | the state of round r + 1 is the rotated round applied to the state of round r |
| TriviumModel.CoreSteps | code/recovery/trivium.cpp:258-262 | the three core steps on a copy of the state add constraints that hold exactly when the round's relation holds |
| TriviumModel.RotateInto | code/recovery/trivium.cpp:264-266 | the rotation loop fills the next state with the rotated temporary |
| TriviumModel.ApplyRound | code/recovery/trivium.cpp:257-267 | one round: its constraints, and the next state |
| TriviumModel.BuildRounds | code/recovery/trivium.cpp:257-267 | the round loop produces the states of every round, and its constraints hold exactly when every round's relation holds |
| TriviumModel.InitialConstraints | code/recovery/trivium.cpp:245-255 | cube IV bits are 1 and positions of flag 0 are 0 |
| TriviumModel.TargetConstraint | code/recovery/trivium.cpp:269-342 | targets 1..6 force exactly one output position to 1 and every other position to 0; target 0 forces the non-output positions to 0 and the six outputs to sum to 1 |
| TriviumModel.TargetsPartitionTargetZero | code/recovery/trivium.cpp:269-342 | target 0 admits a final state exactly when one of targets 1..6 does, and never two of them |
| TriviumModel.BuildModel | code/recovery/trivium.cpp:240-361 | the whole model accepts a solution exactly when it is a division trail: initial, round and target constraints, and the stage-2 pin |
| TriviumCipher.KeystreamIsOutputParity | code/recovery/trivium.cpp:648-656 | the key-stream bit is the parity of the six output positions the target constraints name |
| TriviumCipher.UpdateIsCoreSteps | code/recovery/trivium.cpp:648-665 | each feedback assignment of the cipher round computes, in bits, the relation of one core step of the model |
| TriviumCipher.LoadState | code/recovery/trivium.cpp:668-677 | the key goes to positions 0..79, the IV to 93..172, ones to 285..287, and zero elsewhere |
| TriviumCipher.LastKeystreamBit | code/recovery/trivium.cpp:696-699 | the value of z after evalNumRounds + 1 calls is the key-stream bit of the state clocked evalNumRounds times |
| TriviumCipher.EncryptionSum | code/recovery/trivium.cpp:666-704 | the result is the XOR, over all 2^D counter values, of the last key-stream bit after loading that value into the cube bits |
| TriviumCipher.CubeSumIgnoresCubeIV | code/recovery/trivium.cpp:689-694 | the cube sum does not depend on the IV values at cube positions |
| TriviumCipher.MonomialValue | code/recovery/trivium.cpp:713-725 | the product is 1 exactly when every key factor and every non-cube IV factor of the monomial is 1 |
| TriviumCipher.TheoreticalSum | code/recovery/trivium.cpp:705-735 | the result is the parity of the sum of count times monomial value over the box, whatever order the map is walked in |
| TriviumCipher.ZeroSet | code/recovery/trivium.cpp:602-609 | the projection clears exactly the cube IV positions and 285..287, never a key position |
| TriviumCipher.ZeroSetKeepsWeight | code/recovery/trivium.cpp:598-611 | clearing those positions never changes the value of a monomial |
| TriviumCipher.AggregateTrivium | code/recovery/trivium.cpp:598-611 | countingBox2 holds the re-summed counts, the number of trails is unchanged, and so is the superpoly the box predicts for every key and IV |
| GrainRules.TapIsCopyRule | code/recovery/grain128.cpp:50-59 | the OR constraint of a tap is the COPY rule |
| GrainRules.Tap | code/recovery/grain128.cpp:50-59 | tap adds x = y OR z, returns y and rebinds the position to z |
| GrainRules.HProducts | code/recovery/grain128.cpp:82-102 | the taps of the products of h, each with a shared selector, and the positions they rebind |
| GrainRules.FuncH | code/recovery/grain128.cpp:80-122 | the constraints of h, with the target selection of the code, and the registers afterwards |
| GrainRules.HSelectsOneProduct | code/recovery/grain128.cpp:82-118 | a selected product has all its factors 1, at most one product is selected, and h is 1 exactly when one is |
| GrainRules.HProductFeasible | code/recovery/grain128.cpp:80-122 | when the factors of product p are all 1, selecting p alone and keeping every value is a solution for target p |
| GrainRules.FuncO | code/recovery/grain128.cpp:140-159 | the linear part taps its eight positions, sums them, and is forced to 1 for target 6 and to 0 for targets 1..5 |
| GrainRules.OSelectsOneTerm | code/recovery/grain128.cpp:140-159 | at most one linear term reaches the output, and only from a position holding 1 |
| GrainRules.FuncF | code/recovery/grain128.cpp:171-183 | f taps its six LFSR positions and is their sum |
| GrainRules.FSelectsOneTap | code/recovery/grain128.cpp:171-183 | at most one tap of f reaches it, only from a position holding 1, and an unselected position keeps its value |
| GrainRules.GTapsLow | code/recovery/grain128.cpp:197-212 | the linear taps of g and the positions they rebind |
| GrainRules.GTapsMid | code/recovery/grain128.cpp:214-228 | the two-factor products of g tap their factors with one shared selector |
| GrainRules.GTapsTop | code/recovery/grain128.cpp:230-248 | the three- and four-factor products of g tap their factors with one shared selector |
| GrainRules.FuncG | code/recovery/grain128.cpp:195-255 | the constraints of g, with b0 read directly, and the NFSR afterwards |
| GrainRules.GSelectsOneTerm | code/recovery/grain128.cpp:195-255 | at most one of b0 and the terms of g reaches the output, and a selected product has all its factors 1 |
| GrainModel.OReadsIncoming | code/recovery/grain128.cpp:456-457 | the linear part reads the incoming state: h has not rebound any position it taps |
| GrainModel.FReadsIncoming | code/recovery/grain128.cpp:466-467 | f reads the incoming LFSR |
| GrainModel.GReadsIncoming | code/recovery/grain128.cpp:467 | g reads the incoming NFSR, except b95, where it reads the copy h left there |
| GrainModel.RoundReadsIncoming | code/recovery/grain128.cpp:451-484 | the round's constraints, restated on the incoming state: z = h + o, z = z1 OR z2, news = z1 + f, newb = z2 + g + s0, and (s0, z) is not (1, 1) |
| GrainModel.NfsrMovesUntouched | code/recovery/grain128.cpp:475-479 | an NFSR position no component taps moves down by one unchanged |
| GrainModel.LfsrMovesUntouched | code/recovery/grain128.cpp:475-479 | an LFSR position no component taps moves down by one unchanged |
| GrainModel.StatesStep | code/recovery/grain128.cpp:451-484 | the state of round r + 1 is the round applied to the state of round r |
| GrainModel.OutputTaps | code/recovery/grain128.cpp:456-462 | h and the linear part: their constraints and the registers afterwards |
| GrainModel.FeedbackTaps | code/recovery/grain128.cpp:466-467 | f and g: their constraints and the registers afterwards |
| GrainModel.RoundTaps | code/recovery/grain128.cpp:452-473 | the components of one round on copies of the registers, with the constraints holding exactly when the round's relation does |
| GrainModel.ShiftInto | code/recovery/grain128.cpp:475-480 | positions 0..126 take the temporary's positions 1..127, and position 127 takes the new bit |
| GrainModel.ApplyRound | code/recovery/grain128.cpp:451-484 | one round: its constraints, and the next state |
| GrainModel.BuildRounds | code/recovery/grain128.cpp:451-485 | the round loop produces the states of every round, and its constraints hold exactly when every round's relation holds |
| GrainModel.InitialConstraints | code/recovery/grain128.cpp:439-446 | cube IV bits are 1, non-cube IV bits of flag 0 are 0, and s127 is 0 |
| GrainModel.StoredKeyLastBitClear | code/recovery/grain128.cpp:571-581 | every key read back from a solution has bit 255 (s127) clear |
| GrainModel.FinalConstraint | code/recovery/grain128.cpp:486-499 | in the last round z = h + o = 1, and every remaining register variable is 0 |
| GrainModel.ZeroCheck | code/recovery/grain128.cpp:495-498 | the constraints on the last round's 256 register variables hold exactly when every one of them is 0 |
| GrainModel.FinalTargetsPartition | code/recovery/grain128.cpp:486-499 | target -1 admits a final state exactly when one of targets 1..6 does, and never two of them |
| GrainModel.Trail | code/recovery/grain128.cpp:309-320 | the stored trail of a round is the NFSR followed by the LFSR |
| GrainModel.BuildModel | code/recovery/grain128.cpp:432-525 | the whole model accepts a solution exactly when it is a division trail: initial, round and final constraints, and the stage-2 pin |
| GrainCipher.OutputIsTargetParity | code/recovery/grain128.cpp:994-1000 | the pre-output bit is the parity of the terms that targets 1..6 select |
| GrainCipher.LoadState | code/recovery/grain128.cpp:1012-1019 | the key goes to the NFSR and the IV to the LFSR |
| GrainCipher.LastOutputBit | code/recovery/grain128.cpp:1039-1042 | the value of z after evalNumRounds + 1 calls is the output bit of the state clocked evalNumRounds times |
| GrainCipher.EncryptionSum | code/recovery/grain128.cpp:1010-1047 | the result is the XOR, over all 2^D counter values, of the last output bit after loading that value into the cube bits |
| GrainCipher.CounterTrial | code/recovery/grain128.cpp:1031-1043 | one counter value's trial (copy, load, clock, read) contributes exactly the next term of the cube sum |
| GrainCipher.CubeSumIgnoresCubeIV | code/recovery/grain128.cpp:1033-1037 | the cube sum does not depend on the IV values at cube positions |
| GrainCipher.MonomialValue | code/recovery/grain128.cpp:1057-1066 | the product is 1 exactly when every key factor and every non-cube IV factor of the monomial is 1 |
| GrainCipher.AsWrittenDropsIVFactor | code/recovery/grain128.cpp:1062-1064 | the loop as written gives a monomial on IV bit 96 the value 1 while the IV bit is 0 |
| GrainCipher.AsWrittenAgrees | code/recovery/grain128.cpp:1062-1064 | the loop as written agrees with the corrected one when the IV bits whose out-of-range cube entry is not 0 are 1 |
| GrainCipher.TheoreticalSum | code/recovery/grain128.cpp:1048-1077 | the result is the parity of the sum of count times monomial value over the box |
| GrainCipher.ZeroSet | code/recovery/grain128.cpp:765-772 | the projection clears exactly the cube IV positions 128 + i and 224..255, never a key position |
| GrainCipher.ZeroSetSubSame | code/recovery/grain128.cpp:920-927 | the grain128aSub projection clears the same positions, whatever it reads past the cube |
| GrainCipher.ZeroSetKeepsWeight | code/recovery/grain128.cpp:761-775 | for IVs whose bits 96..126 are 1 and keys with bit 255 clear, clearing those positions never changes a monomial's value |
| GrainCipher.AggregateGrain | code/recovery/grain128.cpp:761-775 | countingBox2 holds the re-summed counts, the number of trails is unchanged, and so is the superpoly the box predicts |
| Disproof855.CutHasOneSolution | code/855disproof/main.cpp:124-134 | for each value of s[210][93], the cut has exactly one solution: p is that value, o its complement, q = 1 |
| Disproof855.Substitute | code/855disproof/main.cpp:124-134 | the cut's constraints hold exactly as the cut says, and position 93 continues as the constant 0 |
| Disproof855.InitialConstraints855 | code/855disproof/main.cpp:104-112 | the given cube IV positions and key positions are 1, and nothing else is constrained |
| Disproof855.CutRoundStep | code/855disproof/main.cpp:114-134 | one Trivium round, then at round 210 the cut |
| Disproof855.BuildCutRounds | code/855disproof/main.cpp:114-135 | the round loop produces the cut states, with the round and cut constraints |
| Disproof855.BuildCutModel | code/855disproof/main.cpp:97-195 | the model accepts a solution exactly when it is a trail of the cut model |
| Disproof855.CutStatesAgree | code/855disproof/main.cpp:114-134 | up to round 209 the cut model has the Trivium states; at round 210 it has the Trivium state with position 93 cleared |
| Disproof855.CutInactive | code/855disproof/main.cpp:124-134 | when position 93 is already 0 at round 210, the cut model has exactly the Trivium states |
| Disproof855.CutPositionCleared | code/855disproof/main.cpp:129 | in the state of round 210 of the cut model, position 93 holds 0 |

## Left out

- The solver itself is not modelled: the environment parameters, `optimize`, solution pools, callbacks and `addLazy`, start hints (`GRB_DoubleAttr_Start`) and status codes. A pool is a sequence of solutions. That the solver finds every solution is a hypothesis of `TwoStage.TwoStageEquivalence`.
- The objective functions (`sumKey`, `sumMiddle`) are not modelled. They only steer the search.
- Thread counts, logging to files and the console, monomial printing and run times are not modelled.
- `round(getSolution(...))` is not modelled. Solver values are exact 0/1.
- `exit(0)` on a pool of at least 2,000,000,000 solutions becomes the `TooManySolutions` result.
- The drivers `trivium`, `grain128a` and `grain128aSub` are modelled only in their aggregation and parity split; their cube and flag set-up is not. `practicalTestTrivium`, `practicalTestGrain128a`, both `main` functions and the argument parsing are also left out: they hold random inputs, console output and dispatch.
- The Trivium and Grain-128a `encryptionSum` keep IV and key entries as booleans. The Grain version leaves an LFSR bit 0 when its IV entry is neither 0 nor 1; the model has no such entries.
- TriviumCipher.EncryptionSum: requires at most 30 cube bits, because `1 << DATA_SIZE` overflows an `int` beyond that; the model does not say what the C++ computes then.
- GrainCipher.EncryptionSum: requires at most 30 cube bits, for the same reason.
- GrainCipher.AggregateGrain: the superpoly is shown unchanged only for IVs whose bits 96..126 are 1 and for keys with bit 255 clear. Clearing those positions changes a monomial's value otherwise. The test driver pads the IV with ones, and every stored key has bit 255 clear (`GrainModel.StoredKeyLastBitClear`).
- Counts are unbounded naturals in the model (`Box` maps keys to `nat`). The C++ counts are `int`: `countingBox[tmp]++` and `countingBox2[tmp] += ...` can wrap once a box gathers more than 2^31 - 1 trails over many pools and targets. A wrapped, negative odd count has `% 2 == -1`, so the C++ would list it as neither odd nor even and `theoreticalSum` would skip it. The model does not capture this.
- TwoStage.TwoStageSearch: the model assumes each stage-1 incumbent satisfies the lazy blocking constraints added before it (its requires). The callbacks (trivium.cpp:122-164, grain128.cpp:299-356) do not check for a repeated midpoint; if the solver reported one again, its stage-2 pool would be counted twice, changing the parities. The model does not capture that case.
- CountingBox.Aggregate: the weighted total is shown unchanged only for weights that do not see the cleared positions of the box's keys.
- `grain128aSub` reads `cube[96..127]` of a 96-entry vector. The model gives those reads arbitrary values (`pad`) and shows that the result does not depend on them.

## Findings

| source | as written | input that shows it | evidently intended | confidence | as-written member | corrected member |
|---|---|---|---|---|---|---|
| code/recovery/grain128.cpp:1063 | `theoreticalSum` reads `cube[i - 128]` for every LFSR position. For i >= 224 that is past the 96 cube entries, and a non-zero value found there drops the IV factor | key, IV and cube all 0, a non-zero value past the cube, and the monomial s96 (bit 224): the product is 1 while IV bit 96 is 0 | LFSR positions past the cube are non-cube IV bits and always contribute their IV factor | not executed | GrainCipher.AsWrittenDropsIVFactor | GrainCipher.TheoreticalSum |
