/** The Groth16 operation-count cost model of `src/main.rs`: the schedule of group
    operations a prover and a verifier perform for circuit parameters (n, k, t, l), and
    `simulate_group_ops`, which samples every operand of a schedule and then runs it
    between two clock reads. */
module CostModel {
  import opened GroupOps
  import opened GroupOpsSimulation

  /** One entry of a multi-exponentiation or multi-pairing list: `count` calls, each over
      `size` operands (the `(usize, usize)` pairs of `simulate_group_ops`). */
  datatype Batch = Batch(count: nat, size: nat)

  /** The arguments of `simulate_group_ops`. */
  datatype Schedule = Schedule(
    expsG1: nat, multiExpsG1: seq<Batch>,
    expsG2: nat, multiExpsG2: seq<Batch>,
    pairings: nat, multiPairings: seq<Batch>)

  datatype Estimate = Estimate(prover: Schedule, verifier: Schedule)

  /** The schedules `simulate_groth(n, k, t, l)` hands to `simulate_group_ops`: n
      multiplication gates, k public inputs, t the degree bound of the evaluation domain,
      l linear-combination outputs. The verifier merges its three pairings into one
      multi-pairing of size 3; the field inversion this takes is deliberately not charged. */
  function Groth16(n: nat, k: nat, t: nat, l: nat): Estimate
  {
    Estimate(
      prover := Schedule(
        n + 2 * k + l + 2,
        [Batch(2, n), Batch(n * k + n + k + l + 1, 2)],
        t + 1,
        [],
        0,
        []),
      verifier := Schedule(
        n + 2,
        [Batch(1, 2), Batch(2, n + 1), Batch(n, k + 1), Batch(1, l + 1),
         Batch(1, k * n * l + l + 1), Batch(1, n + 2), Batch(2, k)],
        1,
        [Batch(1, t + 1), Batch(1, k)],
        0,
        [Batch(1, 3)]))
  }

  // ---------------------------------------------------------------------------------
  // What running a schedule does, stated through the workload items it samples.

  function MultiExpRequests(g: Group, bs: seq<Batch>): seq<Request>
  {
    seq(|bs|, i requires 0 <= i < |bs| => MultiExpsOf(g, bs[i].count, bs[i].size))
  }

  function MultiPairingRequests(bs: seq<Batch>): seq<Request>
  {
    seq(|bs|, i requires 0 <= i < |bs| => MultiPairingsOf(bs[i].count, bs[i].size))
  }

  /** The workload items of a schedule, in the order `simulate_group_ops` samples and runs
      them: G1 exponentiations, G1 multi-exponentiations, G2 exponentiations, G2
      multi-exponentiations, pairings, multi-pairings. */
  function Requests(s: Schedule): seq<Request>
  {
    [ExpsOf(G1, s.expsG1)] + (MultiExpRequests(G1, s.multiExpsG1) +
    ([ExpsOf(G2, s.expsG2)] + (MultiExpRequests(G2, s.multiExpsG2) +
    ([PairingsOf(s.pairings)] + MultiPairingRequests(s.multiPairings)))))
  }

  function ScheduleItems(s: Schedule, at: nat): seq<Item>
  {
    BuildItems(Requests(s), at)
  }

  /** One `Draw` event per sampled operand. */
  function Draws(es: seq<Element>): seq<Event>
  {
    if es == [] then [] else [Draw(es[0])] + Draws(es[1..])
  }

  /** The observable run of `simulate_group_ops(s)` on a random source at position `at`:
      every operand is drawn, then the clock starts, every call runs, and the clock stops. */
  function RunLog(s: Schedule, at: nat): seq<Event>
  {
    var items := ScheduleItems(s, at);
    Draws(AllSamples(items)) + [ClockStart] + RunAll(items) + [ClockStop]
  }

  // ---------------------------------------------------------------------------------
  // An independent statement of the calls a schedule asks for, read off its fields.

  function MultiExpProfile(g: Group, bs: seq<Batch>): seq<Call>
  {
    if bs == [] then [] else Repeat(bs[0].count, [MultiExpCall(g, bs[0].size)]) + MultiExpProfile(g, bs[1..])
  }

  function MultiPairingProfile(bs: seq<Batch>): seq<Call>
  {
    if bs == [] then []
    else Repeat(bs[0].count, [MillerLoopCall(bs[0].size), FinalExponentiationCall]) + MultiPairingProfile(bs[1..])
  }

  /** The calls of a schedule in execution order: `expsG1` G1 scalar multiplications, then
      each G1 multi-exponentiation entry (count calls of its size) in list order, then the
      same for G2, then the pairings, then each multi-pairing entry in list order. */
  function ScheduleProfile(s: Schedule): seq<Call>
  {
    Repeat(s.expsG1, [ScalarMulCall(G1)]) + (MultiExpProfile(G1, s.multiExpsG1) +
    (Repeat(s.expsG2, [ScalarMulCall(G2)]) + (MultiExpProfile(G2, s.multiExpsG2) +
    (Repeat(s.pairings, [PairingCall]) + MultiPairingProfile(s.multiPairings)))))
  }

  /** The sizes of a list's calls, one per call: entry (count, size) gives count copies of size. */
  function Expand(bs: seq<Batch>): seq<nat>
  {
    if bs == [] then [] else Repeat(bs[0].count, [bs[0].size]) + Expand(bs[1..])
  }

  /** The number of calls a list asks for: the sum of its counts. */
  function CallCount(bs: seq<Batch>): nat
  {
    if bs == [] then 0 else bs[0].count + CallCount(bs[1..])
  }

  /** The number of operands of each kind a list samples: the sum of its sizes. */
  function SizeSum(bs: seq<Batch>): nat
  {
    if bs == [] then 0 else bs[0].size + SizeSum(bs[1..])
  }

  /** The cost a schedule promises, kind by kind. */
  function Promised(s: Schedule): Tally
  {
    Tally(s.expsG1, Expand(s.multiExpsG1), s.expsG2, Expand(s.multiExpsG2),
          s.pairings, Expand(s.multiPairings), CallCount(s.multiPairings))
  }

  // ---------------------------------------------------------------------------------
  // Lemmas: the executed calls are exactly the schedule.

  lemma {:induction false} ExpandLength(bs: seq<Batch>)
    ensures |Expand(bs)| == CallCount(bs)
  {
    if bs != [] {
      RepeatLength(bs[0].count, [bs[0].size]);
      ExpandLength(bs[1..]);
    }
  }

  lemma {:induction false} MultiExpRequestsProfile(g: Group, bs: seq<Batch>)
    ensures RequestsProfile(MultiExpRequests(g, bs)) == MultiExpProfile(g, bs)
  {
    if bs != [] {
      assert MultiExpRequests(g, bs)[1..] == MultiExpRequests(g, bs[1..]);
      MultiExpRequestsProfile(g, bs[1..]);
    }
  }

  lemma {:induction false} MultiPairingRequestsProfile(bs: seq<Batch>)
    ensures RequestsProfile(MultiPairingRequests(bs)) == MultiPairingProfile(bs)
  {
    if bs != [] {
      assert MultiPairingRequests(bs)[1..] == MultiPairingRequests(bs[1..]);
      MultiPairingRequestsProfile(bs[1..]);
    }
  }

  lemma RequestsProfileCons(r: Request, rest: seq<Request>)
    ensures RequestsProfile([r] + rest) == RequestProfile(r) + RequestsProfile(rest)
  {
    assert ([r] + rest)[0] == r && ([r] + rest)[1..] == rest;
  }

  lemma RequestsProfileOfSchedule(s: Schedule)
    ensures RequestsProfile(Requests(s)) == ScheduleProfile(s)
  {
    var m1 := MultiExpRequests(G1, s.multiExpsG1);
    var m2 := MultiExpRequests(G2, s.multiExpsG2);
    var mp := MultiPairingRequests(s.multiPairings);
    var tail3 := [PairingsOf(s.pairings)] + mp;
    var tail2 := m2 + tail3;
    var tail1 := [ExpsOf(G2, s.expsG2)] + tail2;
    var tail0 := m1 + tail1;
    RequestsProfileCons(PairingsOf(s.pairings), mp);
    RequestsProfileAppend(m2, tail3);
    RequestsProfileCons(ExpsOf(G2, s.expsG2), tail2);
    RequestsProfileAppend(m1, tail1);
    RequestsProfileCons(ExpsOf(G1, s.expsG1), tail0);
    MultiExpRequestsProfile(G1, s.multiExpsG1);
    MultiExpRequestsProfile(G2, s.multiExpsG2);
    MultiPairingRequestsProfile(s.multiPairings);
  }

  /** Running a schedule makes exactly the calls the schedule lists, in its order, and
      which values the random source yields changes none of them. */
  lemma ScheduleRunProfile(s: Schedule, at: nat)
    ensures Profile(RunAll(ScheduleItems(s, at))) == ScheduleProfile(s)
  {
    BuildItemsProfile(Requests(s), at);
    RequestsProfileOfSchedule(s);
  }

  /** The cost of `sizes` multi-exponentiations in group `g`, one per listed size. */
  function MultiExpCost(g: Group, sizes: seq<nat>): Tally
  {
    if g == G1 then Tally(0, sizes, 0, [], 0, [], 0) else Tally(0, [], 0, sizes, 0, [], 0)
  }

  lemma MultiExpCostStep(g: Group, n: nat, size: nat, rest: seq<nat>)
    ensures Add(Many(n, MultiExpCall(g, size)), MultiExpCost(g, rest)) == MultiExpCost(g, Repeat(n, [size]) + rest)
  {
  }

  lemma {:induction false} MultiExpProfileCost(g: Group, bs: seq<Batch>)
    ensures Cost(MultiExpProfile(g, bs)) == MultiExpCost(g, Expand(bs))
  {
    if bs != [] {
      var c := MultiExpCall(g, bs[0].size);
      CostAppend(Repeat(bs[0].count, [c]), MultiExpProfile(g, bs[1..]));
      CostRepeatCall(bs[0].count, c);
      MultiExpProfileCost(g, bs[1..]);
      MultiExpCostStep(g, bs[0].count, bs[0].size, Expand(bs[1..]));
    }
  }

  /** The cost of `calls` multi-pairings whose Miller loops run over `sizes` pairs. */
  function MultiPairingCost(sizes: seq<nat>, calls: nat): Tally
  {
    Tally(0, [], 0, [], 0, sizes, calls)
  }

  lemma {:induction false} MultiPairingProfileCost(bs: seq<Batch>)
    ensures Cost(MultiPairingProfile(bs)) == MultiPairingCost(Expand(bs), CallCount(bs))
  {
    if bs != [] {
      var round := [MillerLoopCall(bs[0].size), FinalExponentiationCall];
      var head := Repeat(bs[0].count, round);
      var tail := MultiPairingProfile(bs[1..]);
      calc {
        Cost(MultiPairingProfile(bs));
        Cost(head + tail);
        { CostAppend(head, tail); }
        Add(Cost(head), Cost(tail));
        { CostRepeatMultiPairing(bs[0].count, bs[0].size); MultiPairingProfileCost(bs[1..]); }
        Add(MultiPairingCost(Repeat(bs[0].count, [bs[0].size]), bs[0].count),
            MultiPairingCost(Expand(bs[1..]), CallCount(bs[1..])));
        MultiPairingCost(Repeat(bs[0].count, [bs[0].size]) + Expand(bs[1..]), bs[0].count + CallCount(bs[1..]));
        MultiPairingCost(Expand(bs), CallCount(bs));
      }
    }
  }

  lemma PromisedParts(s: Schedule)
    ensures Add(Many(s.expsG1, ScalarMulCall(G1)), Add(MultiExpCost(G1, Expand(s.multiExpsG1)),
      Add(Many(s.expsG2, ScalarMulCall(G2)), Add(MultiExpCost(G2, Expand(s.multiExpsG2)),
      Add(Many(s.pairings, PairingCall), MultiPairingCost(Expand(s.multiPairings), CallCount(s.multiPairings))))))) ==
      Promised(s)
  {
  }

  /** The calls a schedule lists cost exactly what the schedule promises. */
  lemma ScheduleCost(s: Schedule)
    ensures Cost(ScheduleProfile(s)) == Promised(s)
  {
    var a := Repeat(s.expsG1, [ScalarMulCall(G1)]);
    var b := MultiExpProfile(G1, s.multiExpsG1);
    var c := Repeat(s.expsG2, [ScalarMulCall(G2)]);
    var d := MultiExpProfile(G2, s.multiExpsG2);
    var e := Repeat(s.pairings, [PairingCall]);
    var f := MultiPairingProfile(s.multiPairings);
    CostAppend(e, f);
    CostAppend(d, e + f);
    CostAppend(c, d + (e + f));
    CostAppend(b, c + (d + (e + f)));
    CostAppend(a, b + (c + (d + (e + f))));
    CostRepeatCall(s.expsG1, ScalarMulCall(G1));
    CostRepeatCall(s.expsG2, ScalarMulCall(G2));
    CostRepeatCall(s.pairings, PairingCall);
    MultiExpProfileCost(G1, s.multiExpsG1);
    MultiExpProfileCost(G2, s.multiExpsG2);
    MultiPairingProfileCost(s.multiPairings);
    PromisedParts(s);
  }

  /** What running a schedule costs, whatever the random source yields. */
  lemma RunCost(s: Schedule, at: nat)
    ensures Cost(Profile(RunAll(ScheduleItems(s, at)))) == Promised(s)
  {
    ScheduleRunProfile(s, at);
    ScheduleCost(s);
  }

  // ---------------------------------------------------------------------------------
  // How many values a schedule draws.

  lemma {:induction false} MultiExpRequestsDraws(g: Group, bs: seq<Batch>)
    ensures TotalDraws(MultiExpRequests(g, bs)) == 2 * SizeSum(bs)
  {
    if bs != [] {
      assert MultiExpRequests(g, bs)[1..] == MultiExpRequests(g, bs[1..]);
      MultiExpRequestsDraws(g, bs[1..]);
    }
  }

  lemma {:induction false} MultiPairingRequestsDraws(bs: seq<Batch>)
    ensures TotalDraws(MultiPairingRequests(bs)) == 2 * SizeSum(bs)
  {
    if bs != [] {
      assert MultiPairingRequests(bs)[1..] == MultiPairingRequests(bs[1..]);
      MultiPairingRequestsDraws(bs[1..]);
    }
  }

  /** A schedule draws two values per scalar multiplication and per pairing (a base and a
      scalar, or a point of each group) and two per operand position of each list entry,
      however many calls that entry makes. */
  lemma ScheduleDraws(s: Schedule)
    ensures TotalDraws(Requests(s)) ==
      2 * (s.expsG1 + SizeSum(s.multiExpsG1) + s.expsG2 + SizeSum(s.multiExpsG2) +
           s.pairings + SizeSum(s.multiPairings))
  {
    var m1 := MultiExpRequests(G1, s.multiExpsG1);
    var m2 := MultiExpRequests(G2, s.multiExpsG2);
    var mp := MultiPairingRequests(s.multiPairings);
    var tail3 := [PairingsOf(s.pairings)] + mp;
    var tail2 := m2 + tail3;
    var tail1 := [ExpsOf(G2, s.expsG2)] + tail2;
    var tail0 := m1 + tail1;
    TotalDrawsAppend([PairingsOf(s.pairings)], mp);
    TotalDrawsAppend(m2, tail3);
    TotalDrawsAppend([ExpsOf(G2, s.expsG2)], tail2);
    TotalDrawsAppend(m1, tail1);
    TotalDrawsAppend([ExpsOf(G1, s.expsG1)], tail0);
    BuildItemsSingle(PairingsOf(s.pairings), 0);
    BuildItemsSingle(ExpsOf(G2, s.expsG2), 0);
    BuildItemsSingle(ExpsOf(G1, s.expsG1), 0);
    MultiExpRequestsDraws(G1, s.multiExpsG1);
    MultiExpRequestsDraws(G2, s.multiExpsG2);
    MultiPairingRequestsDraws(s.multiPairings);
  }

  // ---------------------------------------------------------------------------------
  // The Groth16 schedules, written out.

  lemma ExpandCons(b: Batch, rest: seq<Batch>)
    ensures Expand([b] + rest) == Repeat(b.count, [b.size]) + Expand(rest)
    ensures CallCount([b] + rest) == b.count + CallCount(rest)
    ensures SizeSum([b] + rest) == b.size + SizeSum(rest)
  {
    assert ([b] + rest)[0] == b && ([b] + rest)[1..] == rest;
  }

  lemma ExpandOne(b: Batch)
    ensures Expand([b]) == Repeat(b.count, [b.size])
    ensures CallCount([b]) == b.count && SizeSum([b]) == b.size
  {
    ExpandCons(b, []);
    assert [b] + [] == [b];
  }

  lemma ExpandTwo(b0: Batch, b1: Batch)
    ensures Expand([b0, b1]) == Repeat(b0.count, [b0.size]) + Repeat(b1.count, [b1.size])
    ensures CallCount([b0, b1]) == b0.count + b1.count
    ensures SizeSum([b0, b1]) == b0.size + b1.size
  {
    assert [b0, b1] == [b0] + [b1];
    ExpandCons(b0, [b1]);
    ExpandOne(b1);
  }

  lemma RepeatOne(x: nat)
    ensures Repeat(1, [x]) == [x]
  {
    assert Repeat(1, [x]) == [x] + Repeat(0, [x]);
  }

  /** The prover's operation counts in closed form. */
  function ProverTally(n: nat, k: nat, t: nat, l: nat): Tally
  {
    Tally(n + 2 * k + l + 2, Repeat<nat>(2, [n]) + Repeat<nat>(n * k + n + k + l + 1, [2]), t + 1, [], 0, [], 0)
  }

  /** The prover: n + 2k + l + 2 scalar multiplications in G1, two G1 multi-exponentiations
      of size n and n·k + n + k + l + 1 of size 2 (n·k + n + k + l + 3 in all), t + 1 scalar
      multiplications in G2, and nothing else. */
  lemma ProverCost(n: nat, k: nat, t: nat, l: nat)
    ensures Promised(Groth16(n, k, t, l).prover) == ProverTally(n, k, t, l)
    ensures CallCount(Groth16(n, k, t, l).prover.multiExpsG1) == n * k + n + k + l + 3
    ensures TotalDraws(Requests(Groth16(n, k, t, l).prover)) == 2 * (2 * n + 2 * k + l + t + 5)
  {
    var p := Groth16(n, k, t, l).prover;
    ExpandTwo(Batch(2, n), Batch(n * k + n + k + l + 1, 2));
    ScheduleDraws(p);
  }

  /** The sizes of the verifier's G1 multi-exponentiations, one per call, in order. */
  function VerifierG1Sizes(n: nat, k: nat, l: nat): seq<nat>
  {
    [2] + (Repeat<nat>(2, [n + 1]) + (Repeat<nat>(n, [k + 1]) + ([l + 1] + ([k * n * l + l + 1] + ([n + 2] + Repeat<nat>(2, [k]))))))
  }

  /** The verifier's operation counts in closed form. */
  function VerifierTally(n: nat, k: nat, t: nat, l: nat): Tally
  {
    Tally(n + 2, VerifierG1Sizes(n, k, l), 1, [t + 1, k], 0, [3], 1)
  }

  /** The verifier's G1 multi-exponentiation list: the sizes of its calls, in order, how many
      calls it makes and how many bases it samples. */
  lemma VerifierG1(n: nat, k: nat, t: nat, l: nat)
    ensures Expand(Groth16(n, k, t, l).verifier.multiExpsG1) == VerifierG1Sizes(n, k, l)
    ensures CallCount(Groth16(n, k, t, l).verifier.multiExpsG1) == n + 8
    ensures SizeSum(Groth16(n, k, t, l).verifier.multiExpsG1) == 2 * n + 2 * k + 2 * l + k * n * l + 8
  {
    var big := k * n * l + l + 1;
    var b0, b1, b2, b3, b4, b5, b6 :=
      Batch(1, 2), Batch(2, n + 1), Batch(n, k + 1), Batch(1, l + 1), Batch(1, big), Batch(1, n + 2), Batch(2, k);
    var t5 := [b5, b6];
    var t4 := [b4] + t5;
    var t3 := [b3] + t4;
    var t2 := [b2] + t3;
    var t1 := [b1] + t2;
    assert Groth16(n, k, t, l).verifier.multiExpsG1 == [b0] + t1;
    assert Expand(t5) == [n + 2] + Repeat<nat>(2, [k]) && CallCount(t5) == 3 && SizeSum(t5) == n + 2 + k by {
      ExpandTwo(b5, b6);
      RepeatOne(n + 2);
    }
    assert Expand(t4) == [big] + Expand(t5) && CallCount(t4) == 1 + CallCount(t5)
      && SizeSum(t4) == big + SizeSum(t5) by {
      ExpandCons(b4, t5);
      RepeatOne(big);
    }
    assert Expand(t3) == [l + 1] + Expand(t4) && CallCount(t3) == 1 + CallCount(t4)
      && SizeSum(t3) == l + 1 + SizeSum(t4) by {
      ExpandCons(b3, t4);
      RepeatOne(l + 1);
    }
    assert Expand(t2) == Repeat<nat>(n, [k + 1]) + Expand(t3) && CallCount(t2) == n + CallCount(t3)
      && SizeSum(t2) == k + 1 + SizeSum(t3) by {
      ExpandCons(b2, t3);
    }
    assert Expand(t1) == Repeat<nat>(2, [n + 1]) + Expand(t2) && CallCount(t1) == 2 + CallCount(t2)
      && SizeSum(t1) == n + 1 + SizeSum(t2) by {
      ExpandCons(b1, t2);
    }
    assert Expand([b0] + t1) == [2] + Expand(t1) && CallCount([b0] + t1) == 1 + CallCount(t1)
      && SizeSum([b0] + t1) == 2 + SizeSum(t1) by {
      ExpandCons(b0, t1);
      RepeatOne(2);
    }
  }

  /** The verifier: n + 2 scalar multiplications in G1, the seven G1 multi-exponentiation
      entries (n + 8 calls), one scalar multiplication in G2, G2 multi-exponentiations of
      size t + 1 and k, no single pairing, and one multi-pairing over three pairs. */
  lemma VerifierCost(n: nat, k: nat, t: nat, l: nat)
    ensures Promised(Groth16(n, k, t, l).verifier) == VerifierTally(n, k, t, l)
    ensures CallCount(Groth16(n, k, t, l).verifier.multiExpsG1) == n + 8
    ensures TotalDraws(Requests(Groth16(n, k, t, l).verifier)) ==
      2 * (3 * n + 3 * k + 2 * l + k * n * l + t + 15)
  {
    var v := Groth16(n, k, t, l).verifier;
    VerifierG1(n, k, t, l);
    assert Expand(v.multiExpsG2) == [t + 1, k] && SizeSum(v.multiExpsG2) == t + 1 + k by {
      ExpandTwo(Batch(1, t + 1), Batch(1, k));
      RepeatOne(t + 1);
      RepeatOne(k);
    }
    assert Expand(v.multiPairings) == [3] && CallCount(v.multiPairings) == 1 && SizeSum(v.multiPairings) == 3 by {
      ExpandOne(Batch(1, 3));
      RepeatOne(3);
    }
    ScheduleDraws(v);
  }

  /** The parameters `main` runs with: n = 1000, k = 16, t = 666, l = 50. */
  lemma MainCase()
    ensures Promised(Groth16(1000, 16, 666, 50).prover) ==
      Tally(1084, Repeat<nat>(2, [1000]) + Repeat<nat>(17067, [2]), 667, [], 0, [], 0)
    ensures Groth16(1000, 16, 666, 50).verifier.multiExpsG1[2] == Batch(1000, 17)
    ensures CallCount(Groth16(1000, 16, 666, 50).verifier.multiExpsG1) == 1008
  {
    ProverCost(1000, 16, 666, 50);
    VerifierCost(1000, 16, 666, 50);
  }

  /** All parameters zero, prover side: the schedule stays well formed, and its two G1
      multi-exponentiations of size zero are still made although they draw nothing. */
  lemma DegenerateProver()
    ensures Promised(Groth16(0, 0, 0, 0).prover) == Tally(2, [0, 0, 2], 1, [], 0, [], 0)
    ensures TotalDraws(Requests(Groth16(0, 0, 0, 0).prover)) == 10
  {
    assert Repeat<nat>(2, [0]) == [0, 0] by {
      assert Repeat<nat>(2, [0]) == [0] + Repeat<nat>(1, [0]);
      RepeatOne(0);
    }
    RepeatOne(2);
    ProverCost(0, 0, 0, 0);
  }

  /** All parameters zero, verifier side: the entry of count zero makes no call but still
      draws its operands, and the entries of size zero make their calls over no operands. */
  lemma DegenerateVerifier()
    ensures Promised(Groth16(0, 0, 0, 0).verifier) == Tally(2, [2, 1, 1, 1, 1, 2, 0, 0], 1, [1, 0], 0, [3], 1)
    ensures TotalDraws(Requests(Groth16(0, 0, 0, 0).verifier)) == 30
  {
    assert VerifierG1Sizes(0, 0, 0) == [2, 1, 1, 1, 1, 2, 0, 0] by {
      assert Repeat<nat>(2, [1]) == [1] + Repeat<nat>(1, [1]);
      assert Repeat<nat>(2, [0]) == [0] + Repeat<nat>(1, [0]);
      RepeatOne(0);
      RepeatOne(1);
      assert Repeat<nat>(0, [1]) == [];
    }
    VerifierCost(0, 0, 0, 0);
  }

}
