/** The reusable workload builder of `src/group_ops_simulation.rs`: workload items that
    sample their operands once, when they are built, and a builder that appends items in
    order and later runs them in that same order. */
module GroupOpsSimulation {
  import opened GroupOps

  /** One workload item, with the operand vectors its constructor sampled: the structs
      `Exps<T>`, `MultiExps<T>`, `Pairings` and `MultiPairings`. */
  datatype Item =
    | Exps(group: Group, bases: seq<Element>, scalars: seq<Element>)
    | MultiExps(group: Group, num: nat, bases: seq<Element>, scalars: seq<Element>)
    | Pairings(argsG1: seq<Element>, argsG2: seq<Element>)
    | MultiPairings(num: nat, argsG1: seq<Element>, argsG2: seq<Element>)

  /** The arguments of one convenience method of the builder (`g1_exps(num)`,
      `g1_multi_exps(num, size)`, `pairings(num)`, ...): the shape of the item it adds. */
  datatype Request =
    | ExpsOf(group: Group, num: nat)
    | MultiExpsOf(group: Group, num: nat, size: nat)
    | PairingsOf(num: nat)
    | MultiPairingsOf(num: nat, size: nat)

  /** How many values the item's constructor takes from the random source. */
  function DrawCount(r: Request): nat
  {
    match r
    case ExpsOf(_, num) => 2 * num
    case MultiExpsOf(_, _, size) => 2 * size
    case PairingsOf(num) => 2 * num
    case MultiPairingsOf(_, size) => 2 * size
  }

  /** The operands of an item, in the order its constructor drew them. */
  function Samples(it: Item): seq<Element>
  {
    match it
    case Exps(_, bases, scalars) => bases + scalars
    case MultiExps(_, _, bases, scalars) => bases + scalars
    case Pairings(argsG1, argsG2) => argsG1 + argsG2
    case MultiPairings(_, argsG1, argsG2) => argsG1 + argsG2
  }

  /** The shape of an item, read back from its fields. */
  function RequestOf(it: Item): Request
  {
    match it
    case Exps(g, bases, _) => ExpsOf(g, |bases|)
    case MultiExps(g, num, bases, _) => MultiExpsOf(g, num, |bases|)
    case Pairings(argsG1, _) => PairingsOf(|argsG1|)
    case MultiPairings(num, argsG1, _) => MultiPairingsOf(num, |argsG1|)
  }

  /** The constructors `Exps::new`, `MultiExps::new`, `Pairings::new` and
      `MultiPairings::new`, run on a random source that has handed out `at` values so far:
      bases (or G1 points) first, then scalars (or G2 points). */
  function New(r: Request, at: nat): Item
  {
    match r
    case ExpsOf(g, num) =>
      Exps(g, Sample(Point(g), at, num), Sample(Scalar, at + num, num))
    case MultiExpsOf(g, num, size) =>
      MultiExps(g, num, Sample(Point(g), at, size), Sample(Scalar, at + size, size))
    case PairingsOf(num) =>
      Pairings(Sample(Point(G1), at, num), Sample(Point(G2), at + num, num))
    case MultiPairingsOf(num, size) =>
      MultiPairings(num, Sample(Point(G1), at, size), Sample(Point(G2), at + size, size))
  }

  /** The shape of a built item is the request, whatever the source yields, and the
      constructor takes exactly `DrawCount(r)` values from it, in order: operand `i` is the
      value drawn at position `at + i`. */
  lemma NewShape(r: Request, at: nat)
    ensures RequestOf(New(r, at)) == r
    ensures |Samples(New(r, at))| == DrawCount(r)
    ensures forall i :: 0 <= i < |Samples(New(r, at))| ==> Samples(New(r, at))[i].draw == at + i
  {
  }

  /** The scalar multiplications of `Exps::simulate`, one per zipped (base, scalar) pair. */
  function ExpOps(g: Group, z: seq<(Element, Element)>): seq<Event>
  {
    if z == [] then [] else [ScalarMul(g, z[0].0, z[0].1)] + ExpOps(g, z[1..])
  }

  /** The pairings of `Pairings::simulate`, one per zipped (G1, G2) pair. */
  function PairingOps(z: seq<(Element, Element)>): seq<Event>
  {
    if z == [] then [] else [Pairing(z[0].0, z[0].1)] + PairingOps(z[1..])
  }

  /** `simulate` of one item: the library calls it makes, in order. */
  function ItemOps(it: Item): seq<Event>
  {
    match it
    case Exps(g, bases, scalars) => ExpOps(g, Zip(bases, scalars))
    case MultiExps(g, num, bases, scalars) => Repeat(num, [MultiExp(g, bases, scalars)])
    case Pairings(argsG1, argsG2) => PairingOps(Zip(argsG1, argsG2))
    case MultiPairings(num, argsG1, argsG2) => Repeat(num, MultiPairing(argsG1, argsG2))
  }

  /** The calls an item of shape `r` makes, independently of its operands. */
  function RequestProfile(r: Request): seq<Call>
  {
    match r
    case ExpsOf(g, num) => Repeat(num, [ScalarMulCall(g)])
    case MultiExpsOf(g, num, size) => Repeat(num, [MultiExpCall(g, size)])
    case PairingsOf(num) => Repeat(num, [PairingCall])
    case MultiPairingsOf(num, size) => Repeat(num, [MillerLoopCall(size), FinalExponentiationCall])
  }

  lemma {:induction false} ExpOpsAt(g: Group, z: seq<(Element, Element)>, i: nat)
    requires i < |z|
    ensures |ExpOps(g, z)| == |z| && ExpOps(g, z)[i] == ScalarMul(g, z[i].0, z[i].1)
  {
    if i > 0 {
      ExpOpsAt(g, z[1..], i - 1);
    } else if |z| > 1 {
      ExpOpsAt(g, z[1..], 0);
    }
  }

  lemma {:induction false} PairingOpsAt(z: seq<(Element, Element)>, i: nat)
    requires i < |z|
    ensures |PairingOps(z)| == |z| && PairingOps(z)[i] == Pairing(z[i].0, z[i].1)
  {
    if i > 0 {
      PairingOpsAt(z[1..], i - 1);
    } else if |z| > 1 {
      PairingOpsAt(z[1..], 0);
    }
  }

  /** `Exps::simulate` does one scalar multiplication per base, base `i` with scalar `i`. */
  lemma ExpsPairPositionally(it: Item)
    requires it.Exps? && |it.bases| == |it.scalars|
    ensures |ItemOps(it)| == |it.bases|
    ensures forall i :: 0 <= i < |it.bases| ==>
      ItemOps(it)[i] == ScalarMul(it.group, it.bases[i], it.scalars[i])
  {
    var z := Zip(it.bases, it.scalars);
    if z == [] {
    } else {
      ExpOpsAt(it.group, z, 0);
    }
    forall i | 0 <= i < |it.bases|
      ensures ItemOps(it)[i] == ScalarMul(it.group, it.bases[i], it.scalars[i])
    {
      ExpOpsAt(it.group, z, i);
    }
  }

  /** `Pairings::simulate` does one independent pairing per G1 point, point `i` with G2 point `i`. */
  lemma PairingsPairPositionally(it: Item)
    requires it.Pairings? && |it.argsG1| == |it.argsG2|
    ensures |ItemOps(it)| == |it.argsG1|
    ensures forall i :: 0 <= i < |it.argsG1| ==>
      ItemOps(it)[i] == Pairing(it.argsG1[i], it.argsG2[i])
  {
    var z := Zip(it.argsG1, it.argsG2);
    if z == [] {
    } else {
      PairingOpsAt(z, 0);
    }
    forall i | 0 <= i < |it.argsG1|
      ensures ItemOps(it)[i] == Pairing(it.argsG1[i], it.argsG2[i])
    {
      PairingOpsAt(z, i);
    }
  }

  /** `MultiExps::simulate` makes `num` multi-exponentiation calls, every one over the same
      bases and scalars, those fixed at construction. */
  lemma MultiExpsReuseOperands(it: Item)
    requires it.MultiExps?
    ensures |ItemOps(it)| == it.num
    ensures forall i :: 0 <= i < it.num ==>
      ItemOps(it)[i] == MultiExp(it.group, it.bases, it.scalars)
  {
    RepeatLength(it.num, [MultiExp(it.group, it.bases, it.scalars)]);
    forall i | 0 <= i < it.num
      ensures ItemOps(it)[i] == MultiExp(it.group, it.bases, it.scalars)
    {
      RepeatAt(it.num, MultiExp(it.group, it.bases, it.scalars), i);
    }
  }

  lemma {:induction false} ExpOpsProfile(g: Group, z: seq<(Element, Element)>)
    ensures Profile(ExpOps(g, z)) == Repeat(|z|, [ScalarMulCall(g)])
  {
    if z != [] {
      ProfileAppend([ScalarMul(g, z[0].0, z[0].1)], ExpOps(g, z[1..]));
      ExpOpsProfile(g, z[1..]);
    }
  }

  lemma {:induction false} PairingOpsProfile(z: seq<(Element, Element)>)
    ensures Profile(PairingOps(z)) == Repeat(|z|, [PairingCall])
  {
    if z != [] {
      ProfileAppend([Pairing(z[0].0, z[0].1)], PairingOps(z[1..]));
      PairingOpsProfile(z[1..]);
    }
  }

  /** The calls an item makes depend only on the request it was built from, never on the
      values drawn from the random source. */
  lemma ItemProfile(r: Request, at: nat)
    ensures Profile(ItemOps(New(r, at))) == RequestProfile(r)
  {
    var it := New(r, at);
    match r
    case ExpsOf(g, num) =>
      ExpOpsProfile(g, Zip(it.bases, it.scalars));
    case MultiExpsOf(g, num, size) =>
      assert Profile([MultiExp(g, it.bases, it.scalars)]) == [MultiExpCall(g, size)];
      ProfileRepeat(num, [MultiExp(g, it.bases, it.scalars)]);
    case PairingsOf(num) =>
      PairingOpsProfile(Zip(it.argsG1, it.argsG2));
    case MultiPairingsOf(num, size) =>
      var round := MultiPairing(it.argsG1, it.argsG2);
      assert round == [round[0]] + [round[1]];
      ProfileAppend([round[0]], [round[1]]);
      assert Profile(round) == [MillerLoopCall(size), FinalExponentiationCall];
      ProfileRepeat(num, round);
  }

  /** The builder's `simulate`: each item's calls, item after item, in insertion order. */
  function RunAll(items: seq<Item>): seq<Event>
  {
    if items == [] then [] else ItemOps(items[0]) + RunAll(items[1..])
  }

  /** Every operand of every item, in the order the items drew them. */
  function AllSamples(items: seq<Item>): seq<Element>
  {
    if items == [] then [] else Samples(items[0]) + AllSamples(items[1..])
  }

  /** The items that a run of convenience methods adds, on a source at position `at`. */
  function BuildItems(reqs: seq<Request>, at: nat): seq<Item>
  {
    if reqs == [] then [] else [New(reqs[0], at)] + BuildItems(reqs[1..], at + DrawCount(reqs[0]))
  }

  function TotalDraws(reqs: seq<Request>): nat
  {
    if reqs == [] then 0 else DrawCount(reqs[0]) + TotalDraws(reqs[1..])
  }

  function RequestsProfile(reqs: seq<Request>): seq<Call>
  {
    if reqs == [] then [] else RequestProfile(reqs[0]) + RequestsProfile(reqs[1..])
  }

  /** Running a list of items is running its first part, then its second part. */
  lemma {:induction false} RunAllAppend(a: seq<Item>, b: seq<Item>)
    ensures RunAll(a + b) == RunAll(a) + RunAll(b)
  {
    if a != [] {
      assert (a + b)[0] == a[0] && (a + b)[1..] == a[1..] + b;
      RunAllAppend(a[1..], b);
    } else {
      assert a + b == b;
    }
  }

  lemma {:induction false} AllSamplesAppend(a: seq<Item>, b: seq<Item>)
    ensures AllSamples(a + b) == AllSamples(a) + AllSamples(b)
  {
    if a != [] {
      assert (a + b)[0] == a[0] && (a + b)[1..] == a[1..] + b;
      AllSamplesAppend(a[1..], b);
    } else {
      assert a + b == b;
    }
  }

  /** Adding the items of `b` after those of `a` continues drawing where `a` stopped. */
  lemma {:induction false} TotalDrawsAppend(a: seq<Request>, b: seq<Request>)
    ensures TotalDraws(a + b) == TotalDraws(a) + TotalDraws(b)
  {
    if a != [] {
      assert (a + b)[0] == a[0] && (a + b)[1..] == a[1..] + b;
      TotalDrawsAppend(a[1..], b);
    } else {
      assert a + b == b;
    }
  }

  lemma BuildItemsCons(a: seq<Request>, b: seq<Request>, at: nat, first: Item, next: nat)
    requires a != [] && first == New(a[0], at) && next == at + DrawCount(a[0])
    ensures BuildItems(a + b, at) == [first] + BuildItems(a[1..] + b, next)
  {
    assert (a + b)[0] == a[0] && (a + b)[1..] == a[1..] + b;
  }

  lemma {:induction false} BuildItemsAppend(a: seq<Request>, b: seq<Request>, at: nat)
    ensures BuildItems(a + b, at) == BuildItems(a, at) + BuildItems(b, at + TotalDraws(a))
    ensures TotalDraws(a + b) == TotalDraws(a) + TotalDraws(b)
  {
    TotalDrawsAppend(a, b);
    if a != [] {
      var first, next := New(a[0], at), at + DrawCount(a[0]);
      calc {
        BuildItems(a + b, at);
        { BuildItemsCons(a, b, at, first, next); }
        [first] + BuildItems(a[1..] + b, next);
        { BuildItemsAppend(a[1..], b, next); }
        [first] + (BuildItems(a[1..], next) + BuildItems(b, next + TotalDraws(a[1..])));
        ([first] + BuildItems(a[1..], next)) + BuildItems(b, at + TotalDraws(a));
        BuildItems(a, at) + BuildItems(b, at + TotalDraws(a));
      }
    } else {
      assert a + b == b;
    }
  }

  lemma {:induction false} RequestsProfileAppend(a: seq<Request>, b: seq<Request>)
    ensures RequestsProfile(a + b) == RequestsProfile(a) + RequestsProfile(b)
  {
    if a != [] {
      assert (a + b)[0] == a[0] && (a + b)[1..] == a[1..] + b;
      RequestsProfileAppend(a[1..], b);
    } else {
      assert a + b == b;
    }
  }

  /** The items built from `reqs` take `TotalDraws(reqs)` values from the source, each
      exactly once and in order: the i-th operand is draw number `at + i`. */
  lemma {:induction false} BuildItemsDraws(reqs: seq<Request>, at: nat)
    ensures |AllSamples(BuildItems(reqs, at))| == TotalDraws(reqs)
    ensures forall i :: 0 <= i < TotalDraws(reqs) ==> AllSamples(BuildItems(reqs, at))[i].draw == at + i
  {
    if reqs != [] {
      var first := New(reqs[0], at);
      var rest := BuildItems(reqs[1..], at + DrawCount(reqs[0]));
      NewShape(reqs[0], at);
      BuildItemsDraws(reqs[1..], at + DrawCount(reqs[0]));
      assert AllSamples(BuildItems(reqs, at)) == Samples(first) + AllSamples(rest);
    }
  }

  /** The calls made by items built from `reqs` depend only on `reqs`, not on the source. */
  lemma {:induction false} BuildItemsProfile(reqs: seq<Request>, at: nat)
    ensures Profile(RunAll(BuildItems(reqs, at))) == RequestsProfile(reqs)
  {
    if reqs != [] {
      var first := New(reqs[0], at);
      var rest := BuildItems(reqs[1..], at + DrawCount(reqs[0]));
      assert BuildItems(reqs, at) == [first] + rest;
      assert RunAll([first] + rest) == ItemOps(first) + RunAll(rest);
      ProfileAppend(ItemOps(first), RunAll(rest));
      ItemProfile(reqs[0], at);
      BuildItemsProfile(reqs[1..], at + DrawCount(reqs[0]));
    }
  }

  lemma BuildItemsSingle(r: Request, at: nat)
    ensures BuildItems([r], at) == [New(r, at)] && TotalDraws([r]) == DrawCount(r)
  {
    assert [r][1..] == [];
  }

  lemma BuildItemsPrepend(r: Request, rest: seq<Request>, at: nat)
    ensures BuildItems([r] + rest, at) == [New(r, at)] + BuildItems(rest, at + DrawCount(r))
    ensures TotalDraws([r] + rest) == DrawCount(r) + TotalDraws(rest)
  {
    assert ([r] + rest)[0] == r && ([r] + rest)[1..] == rest;
  }

  /** Building one more item continues from the draws of the items built so far. */
  lemma BuildItemsPush(done: seq<Request>, r: Request, at: nat)
    ensures BuildItems(done + [r], at) == BuildItems(done, at) + [New(r, at + TotalDraws(done))]
    ensures TotalDraws(done + [r]) == TotalDraws(done) + DrawCount(r)
  {
    assert BuildItems(done + [r], at) == BuildItems(done, at) + BuildItems([r], at + TotalDraws(done))
      && TotalDraws(done + [r]) == TotalDraws(done) + TotalDraws([r]) by {
      BuildItemsAppend(done, [r], at);
    }
    BuildItemsSingle(r, at + TotalDraws(done));
  }

  lemma BuildItemsSnoc(reqs: seq<Request>, i: nat, at: nat)
    requires i < |reqs|
    ensures BuildItems(reqs[..i + 1], at) ==
      BuildItems(reqs[..i], at) + [New(reqs[i], at + TotalDraws(reqs[..i]))]
    ensures TotalDraws(reqs[..i + 1]) == TotalDraws(reqs[..i]) + DrawCount(reqs[i])
  {
    assert reqs[..i + 1] == reqs[..i] + [reqs[i]];
    BuildItemsPush(reqs[..i], reqs[i], at);
  }

  lemma RunAllPrepend(it: Item, rest: seq<Item>)
    ensures RunAll([it] + rest) == ItemOps(it) + RunAll(rest)
  {
    assert ([it] + rest)[0] == it && ([it] + rest)[1..] == rest;
  }

  lemma RunAllSnoc(items: seq<Item>, i: nat)
    requires i < |items|
    ensures RunAll(items[..i + 1]) == RunAll(items[..i]) + ItemOps(items[i])
  {
    assert items[..i + 1] == items[..i] + [items[i]];
    RunAllAppend(items[..i], [items[i]]);
    RunAllPrepend(items[i], []);
  }

  lemma {:induction false} ExpOpsCalls(g: Group, z: seq<(Element, Element)>)
    ensures AllCalls(ExpOps(g, z))
  {
    if z != [] {
      ExpOpsCalls(g, z[1..]);
    }
  }

  lemma {:induction false} PairingOpsCalls(z: seq<(Element, Element)>)
    ensures AllCalls(PairingOps(z))
  {
    if z != [] {
      PairingOpsCalls(z[1..]);
    }
  }

  lemma ItemOpsCalls(it: Item)
    ensures AllCalls(ItemOps(it))
  {
    match it
    case Exps(g, bases, scalars) => ExpOpsCalls(g, Zip(bases, scalars));
    case MultiExps(g, num, bases, scalars) => AllCallsRepeat(num, [MultiExp(g, bases, scalars)]);
    case Pairings(argsG1, argsG2) => PairingOpsCalls(Zip(argsG1, argsG2));
    case MultiPairings(num, argsG1, argsG2) => AllCallsRepeat(num, MultiPairing(argsG1, argsG2));
  }

  /** Running items only calls into the library: it never draws and never reads the clock. */
  lemma {:induction false} RunAllCalls(items: seq<Item>)
    ensures AllCalls(RunAll(items))
  {
    if items != [] {
      ItemOpsCalls(items[0]);
      RunAllCalls(items[1..]);
    }
  }

  /** The random source the builder borrows (`&'a mut R`). Only the number of values it
      has handed out so far is modelled. */
  class Rng {
    var draws: nat

    constructor (draws: nat)
      ensures this.draws == draws
    {
      this.draws := draws;
    }
  }

  /** `GroupOpsSimulation`: the items added so far, in insertion order, and the random
      source every item constructor draws from. */
  class Simulation {
    var items: seq<Item>
    const rng: Rng

    /** `GroupOpsSimulation::new`: no items yet. */
    constructor (rng: Rng)
      ensures items == [] && this.rng == rng
    {
      items := [];
      this.rng := rng;
    }

    /** Builds the item `r` asks for against the shared source and appends it. */
    method Push(r: Request)
      modifies this, rng
      ensures items == old(items) + [New(r, old(rng.draws))]
      ensures rng.draws == old(rng.draws) + DrawCount(r)
    {
      items := items + [New(r, rng.draws)];
      rng.draws := rng.draws + DrawCount(r);
    }

    /** `g1_exps(num)`: appends `Exps<G1Projective>::new(rng, num)`; returns the builder. */
    method G1Exps(num: nat) returns (self: Simulation)
      modifies this, rng
      ensures self == this
      ensures items == old(items) + [New(ExpsOf(G1, num), old(rng.draws))]
      ensures rng.draws == old(rng.draws) + 2 * num
    {
      Push(ExpsOf(G1, num));
      self := this;
    }

    /** `g2_exps(num)`: appends `Exps<G2Projective>::new(rng, num)`; returns the builder. */
    method G2Exps(num: nat) returns (self: Simulation)
      modifies this, rng
      ensures self == this
      ensures items == old(items) + [New(ExpsOf(G2, num), old(rng.draws))]
      ensures rng.draws == old(rng.draws) + 2 * num
    {
      Push(ExpsOf(G2, num));
      self := this;
    }

    /** `g1_multi_exps(num, size)`: appends `MultiExps<G1Projective>::new(rng, num, size)`. */
    method G1MultiExps(num: nat, size: nat) returns (self: Simulation)
      modifies this, rng
      ensures self == this
      ensures items == old(items) + [New(MultiExpsOf(G1, num, size), old(rng.draws))]
      ensures rng.draws == old(rng.draws) + 2 * size
    {
      Push(MultiExpsOf(G1, num, size));
      self := this;
    }

    /** `g2_multi_exps(num, size)`: appends `MultiExps<G2Projective>::new(rng, num, size)`. */
    method G2MultiExps(num: nat, size: nat) returns (self: Simulation)
      modifies this, rng
      ensures self == this
      ensures items == old(items) + [New(MultiExpsOf(G2, num, size), old(rng.draws))]
      ensures rng.draws == old(rng.draws) + 2 * size
    {
      Push(MultiExpsOf(G2, num, size));
      self := this;
    }

    /** `pairings(num)`: appends `Pairings::new(rng, num)`. */
    method Pairings(num: nat) returns (self: Simulation)
      modifies this, rng
      ensures self == this
      ensures items == old(items) + [New(PairingsOf(num), old(rng.draws))]
      ensures rng.draws == old(rng.draws) + 2 * num
    {
      Push(PairingsOf(num));
      self := this;
    }

    /** `multi_pairings(num, size)`: appends `MultiPairings::new(rng, num, size)`. */
    method MultiPairings(num: nat, size: nat) returns (self: Simulation)
      modifies this, rng
      ensures self == this
      ensures items == old(items) + [New(MultiPairingsOf(num, size), old(rng.draws))]
      ensures rng.draws == old(rng.draws) + 2 * size
    {
      Push(MultiPairingsOf(num, size));
      self := this;
    }

    /** `GroupOpsSimulation::simulate`: runs every item once, in insertion order, back to
        back; nothing is drawn from the random source. */
    method Simulate() returns (ops: seq<Event>)
      ensures ops == RunAll(items)
    {
      ops := [];
      for i := 0 to |items|
        invariant ops == RunAll(items[..i])
      {
        var itemOps := SimulateItem(items[i]);
        RunAllSnoc(items, i);
        ops := ops + itemOps;
      }
      assert items[..|items|] == items;
    }
  }

  /** `GroupOpsSimulationItem::simulate`, dispatched on the kind of item. */
  method SimulateItem(it: Item) returns (ops: seq<Event>)
    ensures ops == ItemOps(it)
  {
    match it
    case MultiPairings(num, argsG1, argsG2) =>
      ops := SimulateMultiPairings(num, argsG1, argsG2);
    case _ =>
      ops := ItemOps(it);
  }

  /** `MultiPairings::simulate`: `num` rounds of `multi_pairing` over the same operands. */
  method SimulateMultiPairings(num: nat, argsG1: seq<Element>, argsG2: seq<Element>)
    returns (ops: seq<Event>)
    ensures ops == Repeat(num, MultiPairing(argsG1, argsG2))
  {
    ops := [];
    for i := 0 to num
      invariant ops == Repeat(i, MultiPairing(argsG1, argsG2))
    {
      RepeatSnoc(i, MultiPairing(argsG1, argsG2));
      ops := ops + MultiPairing(argsG1, argsG2);
    }
  }
}
