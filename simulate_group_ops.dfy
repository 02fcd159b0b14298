/** `simulate_group_ops` of `src/main.rs`: sample every operand a schedule needs, then
    start the clock, run every call of the schedule in a fixed order, and stop the clock. */
module SimulateGroupOps {
  import opened GroupOps
  import opened GroupOpsSimulation
  import opened CostModel

  // ---------------------------------------------------------------------------------
  // Sampling (src/main.rs:30-61).

  /** The loop over a multi-exponentiation list: entry `(count, size)` draws `size` bases and
      then `size` scalars and records `(count, bases, scalars)`, entry after entry. */
  method SampleMultiExps(g: Group, bs: seq<Batch>, at: nat) returns (args: seq<Item>, next: nat)
    ensures args == BuildItems(MultiExpRequests(g, bs), at)
    ensures next == at + TotalDraws(MultiExpRequests(g, bs))
    ensures forall i :: 0 <= i < |args| ==> args[i].MultiExps?
  {
    ghost var reqs := MultiExpRequests(g, bs);
    args, next := [], at;
    for i := 0 to |bs|
      invariant args == BuildItems(reqs[..i], at)
      invariant next == at + TotalDraws(reqs[..i])
      invariant forall j :: 0 <= j < |args| ==> args[j].MultiExps?
    {
      var bases := Sample(Point(g), next, bs[i].size);
      var scalars := Sample(Scalar, next + bs[i].size, bs[i].size);
      BuildItemsSnoc(reqs, i, at);
      args := args + [MultiExps(g, bs[i].count, bases, scalars)];
      next := next + 2 * bs[i].size;
    }
    assert reqs[..|bs|] == reqs;
  }

  /** The loop over the multi-pairing list: entry `(count, size)` draws `size` G1 points and
      then `size` G2 points and records `(count, points of G1, points of G2)`. */
  method SampleMultiPairings(bs: seq<Batch>, at: nat) returns (args: seq<Item>, next: nat)
    ensures args == BuildItems(MultiPairingRequests(bs), at)
    ensures next == at + TotalDraws(MultiPairingRequests(bs))
    ensures forall i :: 0 <= i < |args| ==> args[i].MultiPairings?
  {
    ghost var reqs := MultiPairingRequests(bs);
    args, next := [], at;
    for i := 0 to |bs|
      invariant args == BuildItems(reqs[..i], at)
      invariant next == at + TotalDraws(reqs[..i])
      invariant forall j :: 0 <= j < |args| ==> args[j].MultiPairings?
    {
      var pointsG1 := Sample(Point(G1), next, bs[i].size);
      var pointsG2 := Sample(Point(G2), next + bs[i].size, bs[i].size);
      BuildItemsSnoc(reqs, i, at);
      args := args + [MultiPairings(bs[i].count, pointsG1, pointsG2)];
      next := next + 2 * bs[i].size;
    }
    assert reqs[..|bs|] == reqs;
  }

  // ---------------------------------------------------------------------------------
  // The timed calls (src/main.rs:64-69).

  /** For each recorded entry, in order, `count` multi-exponentiations over its operands. */
  method RunMultiExps(args: seq<Item>) returns (ops: seq<Event>)
    requires forall i :: 0 <= i < |args| ==> args[i].MultiExps?
    ensures ops == RunAll(args)
  {
    ops := [];
    for i := 0 to |args|
      invariant ops == RunAll(args[..i])
    {
      var call := MultiExp(args[i].group, args[i].bases, args[i].scalars);
      var calls := [];
      for j := 0 to args[i].num
        invariant calls == Repeat(j, [call])
      {
        RepeatSnoc(j, [call]);
        calls := calls + [call];
      }
      RunAllSnoc(args, i);
      ops := ops + calls;
    }
    assert args[..|args|] == args;
  }

  /** For each recorded entry, in order, `count` rounds of `multi_pairing` over its points. */
  method RunMultiPairings(args: seq<Item>) returns (ops: seq<Event>)
    requires forall i :: 0 <= i < |args| ==> args[i].MultiPairings?
    ensures ops == RunAll(args)
  {
    ops := [];
    for i := 0 to |args|
      invariant ops == RunAll(args[..i])
    {
      var rounds := SimulateMultiPairings(args[i].num, args[i].argsG1, args[i].argsG2);
      RunAllSnoc(args, i);
      ops := ops + rounds;
    }
    assert args[..|args|] == args;
  }

  // ---------------------------------------------------------------------------------
  // The whole run.

  /** Items built from a list `m` followed by one request `r` and then `rest`. */
  lemma BuildItemsAround(m: seq<Request>, r: Request, rest: seq<Request>, at: nat, mid: nat, after: nat)
    requires mid == at + TotalDraws(m) && after == mid + DrawCount(r)
    ensures BuildItems(m + ([r] + rest), at) == BuildItems(m, at) + ([New(r, mid)] + BuildItems(rest, after))
    ensures TotalDraws(m + ([r] + rest)) == TotalDraws(m) + DrawCount(r) + TotalDraws(rest)
  {
    BuildItemsAppend(m, [r] + rest, at);
    BuildItemsPrepend(r, rest, mid);
  }

  lemma ScheduleItemsSplit(s: Schedule, at0: nat, at1: nat, at2: nat, at3: nat, at4: nat, at5: nat)
    requires at1 == at0 + 2 * s.expsG1
    requires at2 == at1 + TotalDraws(MultiExpRequests(G1, s.multiExpsG1))
    requires at3 == at2 + 2 * s.expsG2
    requires at4 == at3 + TotalDraws(MultiExpRequests(G2, s.multiExpsG2))
    requires at5 == at4 + 2 * s.pairings
    ensures ScheduleItems(s, at0) ==
      [New(ExpsOf(G1, s.expsG1), at0)] + (BuildItems(MultiExpRequests(G1, s.multiExpsG1), at1) +
      ([New(ExpsOf(G2, s.expsG2), at2)] + (BuildItems(MultiExpRequests(G2, s.multiExpsG2), at3) +
      ([New(PairingsOf(s.pairings), at4)] + BuildItems(MultiPairingRequests(s.multiPairings), at5)))))
    ensures at0 + TotalDraws(Requests(s)) == at5 + TotalDraws(MultiPairingRequests(s.multiPairings))
  {
    var m1 := MultiExpRequests(G1, s.multiExpsG1);
    var m2 := MultiExpRequests(G2, s.multiExpsG2);
    var mp := MultiPairingRequests(s.multiPairings);
    var tail2 := m2 + ([PairingsOf(s.pairings)] + mp);
    var tail0 := m1 + ([ExpsOf(G2, s.expsG2)] + tail2);
    BuildItemsAround(m2, PairingsOf(s.pairings), mp, at3, at4, at5);
    BuildItemsAround(m1, ExpsOf(G2, s.expsG2), tail2, at1, at2, at3);
    BuildItemsPrepend(ExpsOf(G1, s.expsG1), tail0, at0);
  }

  lemma RunAllSplit(x1: Item, m1: seq<Item>, x2: Item, m2: seq<Item>, x3: Item, m3: seq<Item>)
    ensures RunAll([x1] + (m1 + ([x2] + (m2 + ([x3] + m3))))) ==
      ItemOps(x1) + (RunAll(m1) + (ItemOps(x2) + (RunAll(m2) + (ItemOps(x3) + RunAll(m3)))))
  {
    RunAllPrepend(x3, m3);
    RunAllAppend(m2, [x3] + m3);
    RunAllPrepend(x2, m2 + ([x3] + m3));
    RunAllAppend(m1, [x2] + (m2 + ([x3] + m3)));
    RunAllPrepend(x1, m1 + ([x2] + (m2 + ([x3] + m3))));
  }

  /** `simulate_group_ops(s)` on a random source that has handed out `start` values: the
      trace is `RunLog(s, start)` (every draw, then the timed calls between two clock reads),
      and the source ends `TotalDraws(Requests(s))` values further on. */
  method SimulateGroupOps(s: Schedule, start: nat) returns (log: seq<Event>, next: nat)
    ensures log == RunLog(s, start)
    ensures next == start + TotalDraws(Requests(s))
  {
    var basesG1 := Sample(Point(G1), start, s.expsG1);
    var scalarsG1 := Sample(Scalar, start + s.expsG1, s.expsG1);
    var at1 := start + 2 * s.expsG1;
    var multiExpArgsG1, at2 := SampleMultiExps(G1, s.multiExpsG1, at1);
    var basesG2 := Sample(Point(G2), at2, s.expsG2);
    var scalarsG2 := Sample(Scalar, at2 + s.expsG2, s.expsG2);
    var at3 := at2 + 2 * s.expsG2;
    var multiExpArgsG2, at4 := SampleMultiExps(G2, s.multiExpsG2, at3);
    var pairingArgsG1 := Sample(Point(G1), at4, s.pairings);
    var pairingArgsG2 := Sample(Point(G2), at4 + s.pairings, s.pairings);
    var at5 := at4 + 2 * s.pairings;
    var multiPairingArgs;
    multiPairingArgs, next := SampleMultiPairings(s.multiPairings, at5);

    var exps1, exps2 := Exps(G1, basesG1, scalarsG1), Exps(G2, basesG2, scalarsG2);
    var pairings := Pairings(pairingArgsG1, pairingArgsG2);
    var items := [exps1] + (multiExpArgsG1 + ([exps2] + (multiExpArgsG2 + ([pairings] + multiPairingArgs))));
    assert items == ScheduleItems(s, start) by {
      assert exps1 == New(ExpsOf(G1, s.expsG1), start);
      assert exps2 == New(ExpsOf(G2, s.expsG2), at2);
      assert pairings == New(PairingsOf(s.pairings), at4);
      ScheduleItemsSplit(s, start, at1, at2, at3, at4, at5);
    }
    assert next == start + TotalDraws(Requests(s)) by {
      ScheduleItemsSplit(s, start, at1, at2, at3, at4, at5);
    }
    log := Draws(AllSamples(items)) + [ClockStart];

    var expOpsG1 := ExpOps(G1, Zip(basesG1, scalarsG1));
    var multiExpOpsG1 := RunMultiExps(multiExpArgsG1);
    var expOpsG2 := ExpOps(G2, Zip(basesG2, scalarsG2));
    var multiExpOpsG2 := RunMultiExps(multiExpArgsG2);
    var pairingOps := PairingOps(Zip(pairingArgsG1, pairingArgsG2));
    var multiPairingOps := RunMultiPairings(multiPairingArgs);
    ghost var run := expOpsG1 + (multiExpOpsG1 + (expOpsG2 + (multiExpOpsG2 + (pairingOps + multiPairingOps))));
    assert run == RunAll(items) by {
      RunAllSplit(exps1, multiExpArgsG1, exps2, multiExpArgsG2, pairings, multiPairingArgs);
    }
    log := log + (expOpsG1 + (multiExpOpsG1 + (expOpsG2 + (multiExpOpsG2 + (pairingOps + multiPairingOps)))));
    log := log + [ClockStop];
  }

  /** The body of `simulate_groth`: the prover's schedule and then the verifier's, each run
      by `simulate_group_ops`. Both runs draw from the one thread-local generator, so the
      verifier's run starts at `middle`, where the prover's stopped. */
  method SimulateEstimate(e: Estimate, start: nat)
    returns (proverLog: seq<Event>, middle: nat, verifierLog: seq<Event>, next: nat)
    ensures proverLog == RunLog(e.prover, start)
    ensures middle == start + TotalDraws(Requests(e.prover))
    ensures verifierLog == RunLog(e.verifier, middle)
    ensures next == middle + TotalDraws(Requests(e.verifier))
    ensures Cost(Profile(proverLog)) == Promised(e.prover)
    ensures Cost(Profile(verifierLog)) == Promised(e.verifier)
  {
    proverLog, middle := SimulateGroupOps(e.prover, start);
    verifierLog, next := SimulateGroupOps(e.verifier, middle);
    RunLogCost(e.prover, start);
    RunLogCost(e.verifier, middle);
  }

  /** `simulate_groth(n, k, t, l)` on a generator that has handed out `start` values: the
      prover's run draws `2(2n + 2k + l + t + 5)` values, the verifier's run starts where it
      stopped and draws `2(3n + 3k + 2l + knl + t + 15)`. The prover's calls cost exactly the
      prover column of the Groth16 estimate and the verifier's the verifier column. */
  method SimulateGroth(n: nat, k: nat, t: nat, l: nat, start: nat)
    returns (proverLog: seq<Event>, middle: nat, verifierLog: seq<Event>, next: nat)
    ensures proverLog == RunLog(Groth16(n, k, t, l).prover, start)
    ensures middle == start + 2 * (2 * n + 2 * k + l + t + 5)
    ensures verifierLog == RunLog(Groth16(n, k, t, l).verifier, middle)
    ensures next == middle + 2 * (3 * n + 3 * k + 2 * l + k * n * l + t + 15)
    ensures Cost(Profile(proverLog)) == ProverTally(n, k, t, l)
    ensures Cost(Profile(verifierLog)) == VerifierTally(n, k, t, l)
  {
    proverLog, middle, verifierLog, next := SimulateEstimate(Groth16(n, k, t, l), start);
    ProverCost(n, k, t, l);
    VerifierCost(n, k, t, l);
  }

  // ---------------------------------------------------------------------------------
  // What the trace of a run says.

  lemma {:induction false} DrawsShape(es: seq<Element>)
    ensures |Draws(es)| == |es|
    ensures forall i :: 0 <= i < |es| ==> Draws(es)[i] == Draw(es[i])
  {
    if es != [] {
      DrawsShape(es[1..]);
      assert Draws(es) == [Draw(es[0])] + Draws(es[1..]);
    }
  }

  lemma {:induction false} DrawsProfile(es: seq<Element>)
    ensures Profile(Draws(es)) == []
  {
    if es != [] {
      ProfileAppend([Draw(es[0])], Draws(es[1..]));
      DrawsProfile(es[1..]);
    }
  }

  /** The trace of a run: `TotalDraws(Requests(s))` draws, in source order, then the clock
      starts, then the calls of the items, then the clock stops. */
  lemma RunLogShape(s: Schedule, at: nat)
    ensures |RunLog(s, at)| == TotalDraws(Requests(s)) + |RunAll(ScheduleItems(s, at))| + 2
    ensures forall i :: 0 <= i < TotalDraws(Requests(s)) ==>
      RunLog(s, at)[i].Draw? && RunLog(s, at)[i].sample.draw == at + i
    ensures RunLog(s, at)[TotalDraws(Requests(s))] == ClockStart
    ensures RunLog(s, at)[TotalDraws(Requests(s)) + 1 .. |RunLog(s, at)| - 1] == RunAll(ScheduleItems(s, at))
    ensures RunLog(s, at)[|RunLog(s, at)| - 1] == ClockStop
  {
    var items := ScheduleItems(s, at);
    var samples := AllSamples(items);
    BuildItemsDraws(Requests(s), at);
    DrawsShape(samples);
    var log := RunLog(s, at);
    var d := |samples|;
    assert log == Draws(samples) + [ClockStart] + RunAll(items) + [ClockStop];
    assert log[d + 1 .. |log| - 1] == RunAll(items);
  }

  /** Where events sit in a trace made of draws, a clock start, library calls and a clock stop. */
  lemma TraceOrder(draws: seq<Event>, run: seq<Event>, log: seq<Event>)
    requires forall i :: 0 <= i < |draws| ==> draws[i].Draw?
    requires AllCalls(run)
    requires log == draws + [ClockStart] + run + [ClockStop]
    ensures forall i :: 0 <= i < |log| ==> (log[i].Draw? <==> i < |draws|)
    ensures forall i :: 0 <= i < |log| ==> (log[i] == ClockStart <==> i == |draws|)
    ensures forall i :: |draws| < i < |log| - 1 ==> IsCall(log[i])
  {
    forall i | 0 <= i < |log|
      ensures log[i].Draw? <==> i < |draws|
      ensures log[i] == ClockStart <==> i == |draws|
      ensures |draws| < i < |log| - 1 ==> IsCall(log[i])
    {
      if i < |draws| {
        assert log[i] == draws[i];
      } else if i == |draws| {
      } else if i < |log| - 1 {
        assert log[i] == run[i - |draws| - 1];
      } else {
        assert log[i] == ClockStop;
      }
    }
  }

  /** All sampling happens before the timed region: an event of the trace is a draw exactly
      when it comes before the clock starts, the clock starts once, and everything between
      the two clock reads is a library call. */
  lemma SamplingPrecedesTiming(s: Schedule, at: nat)
    ensures forall i :: 0 <= i < |RunLog(s, at)| ==>
      (RunLog(s, at)[i].Draw? <==> i < TotalDraws(Requests(s)))
    ensures forall i :: 0 <= i < |RunLog(s, at)| ==>
      (RunLog(s, at)[i] == ClockStart <==> i == TotalDraws(Requests(s)))
    ensures forall i :: TotalDraws(Requests(s)) < i < |RunLog(s, at)| - 1 ==> IsCall(RunLog(s, at)[i])
  {
    var items := ScheduleItems(s, at);
    var draws := Draws(AllSamples(items));
    assert |draws| == TotalDraws(Requests(s)) && forall i :: 0 <= i < |draws| ==> draws[i].Draw? by {
      BuildItemsDraws(Requests(s), at);
      DrawsShape(AllSamples(items));
    }
    RunAllCalls(items);
    TraceOrder(draws, RunAll(items), RunLog(s, at));
  }

  /** Draws and clock reads add nothing to the calls of a trace. */
  lemma TraceProfile(draws: seq<Event>, run: seq<Event>, log: seq<Event>)
    requires Profile(draws) == []
    requires log == draws + [ClockStart] + run + [ClockStop]
    ensures Profile(log) == Profile(run)
  {
    ProfileAppend(draws + [ClockStart] + run, [ClockStop]);
    ProfileAppend(draws + [ClockStart], run);
    ProfileAppend(draws, [ClockStart]);
  }

  /** The library calls of a run are the calls of its schedule, in the schedule's order,
      and they cost what the schedule promises; the values drawn change neither. */
  lemma RunLogCost(s: Schedule, at: nat)
    ensures Profile(RunLog(s, at)) == ScheduleProfile(s)
    ensures Cost(Profile(RunLog(s, at))) == Promised(s)
  {
    var items := ScheduleItems(s, at);
    var draws := Draws(AllSamples(items));
    assert Profile(draws) == [] by {
      DrawsProfile(AllSamples(items));
    }
    TraceProfile(draws, RunAll(items), RunLog(s, at));
    ScheduleRunProfile(s, at);
    ScheduleCost(s);
  }

  /** Two runs of one schedule from any two source positions make the same calls and draw
      the same number of values: only the operands differ. */
  lemma RandomnessIrrelevant(s: Schedule, a: nat, b: nat)
    ensures Profile(RunLog(s, a)) == Profile(RunLog(s, b))
    ensures |RunLog(s, a)| == |RunLog(s, b)|
  {
    RunLogCost(s, a);
    RunLogCost(s, b);
    RunLogShape(s, a);
    RunLogShape(s, b);
    ScheduleRunProfile(s, a);
    ScheduleRunProfile(s, b);
    RunAllCalls(ScheduleItems(s, a));
    RunAllCalls(ScheduleItems(s, b));
    ProfileOfCalls(RunAll(ScheduleItems(s, a)));
    ProfileOfCalls(RunAll(ScheduleItems(s, b)));
  }

  // ---------------------------------------------------------------------------------
  // The same schedule through the builder.

  /** Adds one multi-exponentiation item per list entry, in list order. */
  method AddMultiExps(sim: Simulation, g: Group, bs: seq<Batch>)
    modifies sim, sim.rng
    ensures sim.items == old(sim.items) + BuildItems(MultiExpRequests(g, bs), old(sim.rng.draws))
    ensures sim.rng.draws == old(sim.rng.draws) + TotalDraws(MultiExpRequests(g, bs))
  {
    ghost var reqs := MultiExpRequests(g, bs);
    ghost var items0, at0 := sim.items, sim.rng.draws;
    for i := 0 to |bs|
      invariant sim.items == items0 + BuildItems(reqs[..i], at0)
      invariant sim.rng.draws == at0 + TotalDraws(reqs[..i])
    {
      var self;
      if g == G1 {
        self := sim.G1MultiExps(bs[i].count, bs[i].size);
      } else {
        self := sim.G2MultiExps(bs[i].count, bs[i].size);
      }
      BuildItemsSnoc(reqs, i, at0);
    }
    assert reqs[..|bs|] == reqs;
  }

  /** Adds one multi-pairing item per list entry, in list order. */
  method AddMultiPairings(sim: Simulation, bs: seq<Batch>)
    modifies sim, sim.rng
    ensures sim.items == old(sim.items) + BuildItems(MultiPairingRequests(bs), old(sim.rng.draws))
    ensures sim.rng.draws == old(sim.rng.draws) + TotalDraws(MultiPairingRequests(bs))
  {
    ghost var reqs := MultiPairingRequests(bs);
    ghost var items0, at0 := sim.items, sim.rng.draws;
    for i := 0 to |bs|
      invariant sim.items == items0 + BuildItems(reqs[..i], at0)
      invariant sim.rng.draws == at0 + TotalDraws(reqs[..i])
    {
      var self := sim.MultiPairings(bs[i].count, bs[i].size);
      BuildItemsSnoc(reqs, i, at0);
    }
    assert reqs[..|bs|] == reqs;
  }

  lemma Regroup<T>(a: seq<T>, x1: T, b1: seq<T>, x2: T, b2: seq<T>, x3: T, b3: seq<T>)
    ensures a + [x1] + b1 + [x2] + b2 + [x3] + b3 == a + ([x1] + (b1 + ([x2] + (b2 + ([x3] + b3)))))
  {
  }

  /** Adds the items of schedule `s` to a builder with its convenience methods, in the order
      `simulate_group_ops` samples them. */
  method BuildSchedule(sim: Simulation, s: Schedule)
    modifies sim, sim.rng
    ensures sim.items == old(sim.items) + ScheduleItems(s, old(sim.rng.draws))
    ensures sim.rng.draws == old(sim.rng.draws) + TotalDraws(Requests(s))
  {
    ghost var items0, at0 := sim.items, sim.rng.draws;
    var self := sim.G1Exps(s.expsG1);
    ghost var at1, x1 := sim.rng.draws, New(ExpsOf(G1, s.expsG1), at0);
    AddMultiExps(sim, G1, s.multiExpsG1);
    ghost var at2, b1 := sim.rng.draws, BuildItems(MultiExpRequests(G1, s.multiExpsG1), at1);
    self := sim.G2Exps(s.expsG2);
    ghost var at3, x2 := sim.rng.draws, New(ExpsOf(G2, s.expsG2), at2);
    AddMultiExps(sim, G2, s.multiExpsG2);
    ghost var at4, b2 := sim.rng.draws, BuildItems(MultiExpRequests(G2, s.multiExpsG2), at3);
    self := sim.Pairings(s.pairings);
    ghost var at5, x3 := sim.rng.draws, New(PairingsOf(s.pairings), at4);
    AddMultiPairings(sim, s.multiPairings);
    ghost var b3 := BuildItems(MultiPairingRequests(s.multiPairings), at5);
    assert sim.items == items0 + [x1] + b1 + [x2] + b2 + [x3] + b3;
    Regroup(items0, x1, b1, x2, b2, x3, b3);
    ScheduleItemsSplit(s, at0, at1, at2, at3, at4, at5);
  }

  /** Running a schedule through a fresh builder makes exactly the calls of the timed
      region of `simulate_group_ops` (see `RunLogShape`) and draws as many values. */
  method RunScheduleOnBuilder(s: Schedule, rng: Rng) returns (ops: seq<Event>)
    modifies rng
    ensures ops == RunAll(ScheduleItems(s, old(rng.draws)))
    ensures rng.draws == old(rng.draws) + TotalDraws(Requests(s))
  {
    var sim := new Simulation(rng);
    BuildSchedule(sim, s);
    assert sim.items == ScheduleItems(s, old(rng.draws));
    ops := sim.Simulate();
  }
}
