# Groth16 group-operation cost simulation, modelled in Dafny

The program estimates how long Groth16 proving and verification take. It runs the same
group operations over the BLS12-381 curve that a prover and a verifier run, on random
operands, and times them. It has two parts:

- `src/main.rs`:
  - `simulate_group_ops` takes a schedule: a number of scalar multiplications in G1, a list
    of `(count, size)` multi-exponentiation entries in G1, the same two for G2, a number of
    single pairings and a list of `(count, size)` multi-pairing entries.
  - It first draws every operand from a random source. Then it starts a clock and makes
    every call of the schedule in a fixed order. Then it stops the clock.
  - `simulate_groth(n, k, t, l)` builds the prover's and the verifier's schedules from the
    circuit parameters and runs both. `multi_pairing` runs one Miller loop over zipped
    (G1, G2) pairs and then one final exponentiation.
- `src/group_ops_simulation.rs` is a reusable builder, `GroupOpsSimulation`:
  - Its convenience methods (`g1_exps`, `g2_exps`, `g1_multi_exps`, `g2_multi_exps`,
    `pairings`, `multi_pairings`) each build one workload item (`Exps`, `MultiExps`,
    `Pairings`, `MultiPairings`). Building an item samples its operands from the shared
    random source, and the method appends the item to the builder.
  - `simulate` runs the items in insertion order.

The model has four modules:

- `GroupOps` (`group_ops.dfy`) writes the library calls, the random draws and the clock
  reads as an event trace:
  - A library call is an uninterpreted event that records its operands.
  - A drawn value is identified by its kind and the position of the draw that produced it.
  - `Profile` erases the operands of a trace and `Cost` counts its calls kind by kind.
- `GroupOpsSimulation` (`group_ops_simulation.dfy`) covers the builder:
  - the items as a datatype;
  - the builder as a class whose `items` sequence the convenience methods extend;
  - the random source as an `Rng` object whose draw counter they advance.
- `CostModel` (`cost_model.dfy`) covers three things:
  - the schedules of `simulate_groth`;
  - an independent statement of the calls each schedule asks for and what they cost;
  - `RunLog`, the trace of a whole `simulate_group_ops` run, defined through the builder's
    item constructors.
- `SimulateGroupOps` (`simulate_group_ops.dfy`) has two jobs:
  - It holds the imperative `simulate_group_ops` and `simulate_groth`, with the sampling
    loops and the timed loops of the source. Each is proved to produce `RunLog`, so the
    direct path and the builder path sample and call identically.
  - It proves what a trace promises: all sampling comes before the clock starts, the
    timed region holds only library calls, and those calls cost what the Groth16 schedule
    lists, whatever values the source yields.

## Model

| member | source | states |
|---|---|---|
| `GroupOps.Sample` | src/main.rs:30-31 | `count` consecutive draws of one kind from the source, the `i`-th being draw `at + i`, as each sampling line maps a range to fresh random values and collects them |
| `GroupOps.Zip` | src/main.rs:32 | the zipped sequence is as long as the shorter input, and pair `i` is element `i` of each input |
| `GroupOps.MultiPairing` | src/main.rs:8-17 | exactly two calls: a Miller loop over as many pairs as the shorter input has, pair `i` being `(lhs[i], rhs[i])`, then one final exponentiation |
| `GroupOps.CostRepeatCall` | src/main.rs:65 | making one call `n` times costs `n` calls of that kind and size |
| `GroupOps.CostRepeatMultiPairing` | src/group_ops_simulation.rs:155-159 | `n` multi-pairing rounds over `p` pairs cost `n` Miller loops of size `p` and `n` final exponentiations, and nothing else |
| `GroupOpsSimulation.New` | src/group_ops_simulation.rs:51-148 | the four item constructors: `Exps::new` and `MultiExps::new` draw `num` (or `size`) bases of their group and then as many scalars, and `MultiExps` keeps its count; `Pairings::new` and `MultiPairings::new` draw the G1 points and then the G2 points |
| `GroupOpsSimulation.ItemOps` | src/group_ops_simulation.rs:61-160 | the four `simulate` bodies: one scalar multiplication per zipped (base, scalar) pair; `num` multi-exponentiations over the stored operands; one pairing per zipped (G1, G2) pair; `num` rounds of `multi_pairing` over the stored points |
| `GroupOpsSimulation.RunAll` | src/group_ops_simulation.rs:182-186 | the builder's `simulate`: every item's calls, item after item, in insertion order |
| `GroupOpsSimulation.NewShape` | src/group_ops_simulation.rs:51-148 | an item built by any of the four constructors has the requested kind, count and size whatever the source yields; it takes exactly `2·size` (or `2·num`) values, and operand `i` is draw `at + i`, bases or G1 points first |
| `GroupOpsSimulation.ExpsPairPositionally` | src/group_ops_simulation.rs:61-69 | `Exps::simulate` makes one scalar multiplication per base, and call `i` multiplies base `i` by scalar `i` |
| `GroupOpsSimulation.MultiExpsReuseOperands` | src/group_ops_simulation.rs:95-101 | `MultiExps::simulate` makes exactly `num` multi-exponentiations, each over the bases and scalars fixed at construction |
| `GroupOpsSimulation.PairingsPairPositionally` | src/group_ops_simulation.rs:122-132 | `Pairings::simulate` makes one independent pairing per G1 point, and call `i` pairs G1 point `i` with G2 point `i` |
| `GroupOpsSimulation.ItemProfile` | src/group_ops_simulation.rs:59-160 | the calls an item makes, with operands erased, depend only on its kind, count and size, not on the sampled values |
| `GroupOpsSimulation.RunAllAppend` | src/group_ops_simulation.rs:182-186 | running a list of items is running its first part, then its second part |
| `GroupOpsSimulation.BuildItemsDraws` | src/group_ops_simulation.rs:188-212 | items added one after another take consecutive values from the shared source, each exactly once and in order, `TotalDraws` in all |
| `GroupOpsSimulation.BuildItemsProfile` | src/group_ops_simulation.rs:182-212 | the calls made by the items a sequence of convenience calls adds depend only on those calls' arguments |
| `GroupOpsSimulation.SimulateItem` | src/group_ops_simulation.rs:37-39 | dispatching `simulate` on an item makes that item's calls |
| `GroupOpsSimulation.SimulateMultiPairings` | src/group_ops_simulation.rs:151-160 | the loop makes `num` back-to-back `multi_pairing` rounds over the same operands |
| `GroupOpsSimulation.Simulation.constructor` | src/group_ops_simulation.rs:175-180 | a new builder holds no items and borrows the given source |
| `GroupOpsSimulation.Simulation.Simulate` | src/group_ops_simulation.rs:182-186 | the calls are those of every item, in insertion order, and no value is drawn |
| `GroupOpsSimulation.Simulation.G1Exps` | src/group_ops_simulation.rs:189-192 | appends one G1 `Exps` item built at the source's current position, leaves the earlier items alone, advances the source by `2·num`, and returns the builder itself |
| `GroupOpsSimulation.Simulation.G2Exps` | src/group_ops_simulation.rs:193-196 | the same for a G2 `Exps` item |
| `GroupOpsSimulation.Simulation.G1MultiExps` | src/group_ops_simulation.rs:197-200 | appends one G1 `MultiExps` item of the given count and size and advances the source by `2·size`; the count draws nothing |
| `GroupOpsSimulation.Simulation.G2MultiExps` | src/group_ops_simulation.rs:201-204 | the same for a G2 `MultiExps` item |
| `GroupOpsSimulation.Simulation.Pairings` | src/group_ops_simulation.rs:205-208 | appends one `Pairings` item and advances the source by `2·num` |
| `GroupOpsSimulation.Simulation.MultiPairings` | src/group_ops_simulation.rs:209-212 | appends one `MultiPairings` item and advances the source by `2·size` |
| `CostModel.Groth16` | src/main.rs:77-105 | the schedule arithmetic of `simulate_groth`: the prover's and the verifier's scalar-multiplication counts, `(count, size)` multi-exponentiation lists in G1 and G2, pairing count and multi-pairing list, entry for entry |
| `CostModel.RunLog` | src/main.rs:27-70 | the trace of `simulate_group_ops`: every operand drawn in sampling order (the items the builder's constructors would build from the same position), then the clock start, every item's calls in schedule order, and the clock stop |
| `CostModel.ScheduleRunProfile` | src/main.rs:63-69 | the timed calls are the schedule's calls in the order G1 scalar multiplications, G1 multi-exponentiations by entry, G2 the same, pairings, multi-pairings by entry, for any source |
| `CostModel.MultiExpProfileCost` | src/main.rs:65-67 | a multi-exponentiation list costs one call per unit of count, each of its entry's size, in list order |
| `CostModel.MultiPairingProfileCost` | src/main.rs:69 | a multi-pairing list costs one Miller loop of its entry's size and one final exponentiation per unit of count |
| `CostModel.ScheduleCost` | src/main.rs:19-25 | the calls a schedule lists cost exactly its scalar-multiplication counts, the expanded size lists and the multi-pairing count |
| `CostModel.RunCost` | src/main.rs:19-72 | whatever the source yields, running a schedule costs what the schedule promises |
| `CostModel.ScheduleDraws` | src/main.rs:30-61 | a run draws twice the sum of the single-operation counts and of every entry's size; an entry's count draws nothing |
| `CostModel.ProverCost` | src/main.rs:77-85 | the prover makes `n+2k+l+2` G1 scalar multiplications, two G1 multi-exponentiations of size `n` and `nk+n+k+l+1` of size 2, `t+1` G2 scalar multiplications and nothing else; it draws `2(2n+2k+l+t+5)` values |
| `CostModel.VerifierG1` | src/main.rs:88-97 | the verifier's seven G1 multi-exponentiation entries give `n+8` calls with the listed sizes in order, over `2n+2k+2l+knl+8` sampled bases |
| `CostModel.VerifierCost` | src/main.rs:87-105 | the verifier makes `n+2` G1 scalar multiplications, the G1 multi-exponentiations above, one G2 scalar multiplication, G2 multi-exponentiations of size `t+1` and `k`, no single pairing, and one three-pair multi-pairing; it draws `2(3n+3k+2l+knl+t+15)` values |
| `CostModel.MainCase` | src/main.rs:110-112 | with `n=1000, k=16, t=666, l=50` the prover makes 1084 G1 and 667 G2 scalar multiplications and `2 + 17067` G1 multi-exponentiations; the verifier's third entry is 1000 calls of size 17, and it makes 1008 G1 multi-exponentiations |
| `CostModel.DegenerateProver` | src/main.rs:77-85 | with every parameter zero the prover still makes two size-0 multi-exponentiations and one of size 2, and draws 10 values |
| `CostModel.DegenerateVerifier` | src/main.rs:87-105 | with every parameter zero the count-0 entry makes no call but draws its operands, the size-0 entries make calls over no operands, and 30 values are drawn |
| `SimulateGroupOps.SampleMultiExps` | src/main.rs:34-39 | the sampling loop (also lines 45-50 for G2) records, entry by entry, the items the builder's `MultiExps::new` would build from the same source position, and advances the source by their draws |
| `SimulateGroupOps.SampleMultiPairings` | src/main.rs:56-61 | the same for the multi-pairing list, with `MultiPairings::new` |
| `SimulateGroupOps.RunMultiExps` | src/main.rs:65 | the nested loop (also line 67) makes, entry by entry, `count` multi-exponentiations over that entry's operands |
| `SimulateGroupOps.RunMultiPairings` | src/main.rs:69 | the nested loop makes, entry by entry, `count` rounds of `multi_pairing` over that entry's points |
| `SimulateGroupOps.SimulateGroupOps` | src/main.rs:19-72 | the direct run produces `RunLog`, which is the builder's items for the schedule drawn and then run between two clock reads, and it advances the source by `TotalDraws` |
| `SimulateGroupOps.SimulateEstimate` | src/main.rs:76-105 | the prover's schedule runs from the source's position and the verifier's from where the prover's run stopped, on the one shared generator; each trace costs what its schedule promises |
| `SimulateGroupOps.SimulateGroth` | src/main.rs:74-108 | the prover's run draws `2(2n+2k+l+t+5)` values, the verifier's run starts there and draws `2(3n+3k+2l+knl+t+15)`; their calls cost exactly the prover's and the verifier's Groth16 totals |
| `SimulateGroupOps.RunLogShape` | src/main.rs:27-70 | a trace is `TotalDraws` draws at consecutive source positions, then the clock start, then the items' calls, then the clock stop |
| `SimulateGroupOps.SamplingPrecedesTiming` | src/main.rs:30-70 | an event is a draw if and only if it precedes the clock start; the clock starts exactly once; every event between the two clock reads is a library call |
| `SimulateGroupOps.RunLogCost` | src/main.rs:63-69 | the library calls of a whole trace are the schedule's calls in order, and they cost what the schedule promises |
| `SimulateGroupOps.RandomnessIrrelevant` | src/main.rs:27-61 | two runs of one schedule from any two source positions make the same calls and have traces of equal length |
| `SimulateGroupOps.AddMultiExps` | src/group_ops_simulation.rs:197-204 | adding a multi-exponentiation list entry by entry appends the same items the direct sampling loop records, and advances the source likewise |
| `SimulateGroupOps.AddMultiPairings` | src/group_ops_simulation.rs:209-212 | the same for a multi-pairing list |
| `SimulateGroupOps.BuildSchedule` | src/group_ops_simulation.rs:188-212 | building a schedule with the convenience methods, in `simulate_group_ops` order, appends exactly the items the direct run samples, drawing the same values |
| `SimulateGroupOps.RunScheduleOnBuilder` | src/group_ops_simulation.rs:164-212 | a fresh builder on a source at position `p`, loaded with a schedule and simulated, makes exactly the timed calls of the direct run from `p` and draws as many values |

## Left out

- Curve arithmetic is left out. Scalar multiplication, multi-exponentiation, pairing,
  the Miller loop and the final exponentiation are uninterpreted events, so nothing about
  the values they compute is modelled.
- `to_affine` and `G2Prepared::from` are folded into the events that consume their
  results (src/main.rs:11, 52-53; src/group_ops_simulation.rs:13, 116-117). They are
  conversions inside the curve library.
- The `MultiExp` trait and its two impls (src/group_ops_simulation.rs:21-35) forward to
  the library and become the `MultiExp` event.
- The values the random source yields are not modelled. An operand is named by the
  position of its draw. `thread_rng()` (src/main.rs:27) becomes the starting position
  parameter, so every property above holds for any starting position. `thread_rng()`
  returns a handle to one generator per thread, so in `SimulateGroupOps.SimulateGroth`
  the verifier's run continues at the position where the prover's run stopped.
- Timing is left out. The clock reads (src/main.rs:63, 70) are the `ClockStart` and
  `ClockStop` events, and the measured duration and every `println!` (src/main.rs:71,
  75-76, 86) are output only.
- `black_box` (src/group_ops_simulation.rs:64, 98, 126, 156) only stops the compiler from
  removing the calls. The model keeps every call, and results are discarded as in the
  source.
- Lifetimes and the boxed trait objects of the builder (src/group_ops_simulation.rs:164-169)
  become a `seq<Item>` field and a shared `Rng` object.
- `main` (src/main.rs:110-112) is covered by `CostModel.MainCase` for its parameters.
  Printing is left out.
- The proof that the direct path and the builder path agree (`SimulateGroupOps.SimulateGroupOps`
  against `RunLog`) covers the items and the draws. The builder itself has no clock, so
  `SimulateGroupOps.RunScheduleOnBuilder` is stated on the calls only.
- Machine integers are unbounded here. The source's `usize` arithmetic in
  `simulate_groth` (for example `k*n*l + l + 1`) could overflow for huge parameters.
  The model computes exactly instead.
- `multi_pairing` with inputs of different lengths does not fail. A size mismatch
  could be treated as a programming error. The code does not check for it: like `zip`,
  it truncates to the shorter input. The model follows the code (`GroupOps.MultiPairing`
  states the truncation). No call site in the source passes unequal lengths.
- The field inversion the verifier would need to merge its three pairings into one
  multi-pairing (src/main.rs:106-107) is not simulated by the source. It is not charged
  here either.
