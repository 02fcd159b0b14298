/** The calls the simulation makes into the pairing-friendly curve library, into the
    random source and into the clock, written as a trace of events.

    No curve arithmetic is computed: every library call is an uninterpreted event that
    records its operands, so that a trace says how many calls of each kind were made, in
    which order, and over which operands. A value drawn from the random source is not
    modelled either; it is identified by its kind and by the position of the draw that
    produced it. */
module GroupOps {

  /** The two source groups of the pairing. */
  datatype Group = G1 | G2

  /** What one draw from the random source yields: a point of G1 or G2, or a scalar. */
  datatype Kind = Point(group: Group) | Scalar

  /** A sampled operand: the `draw`-th value taken from the random source. */
  datatype Element = Element(kind: Kind, draw: nat)

  datatype Event =
    | Draw(sample: Element)                                     // one value taken from the random source
    | ClockStart                                                // `Instant::now()`
    | ClockStop                                                 // `elapsed()`
    | ScalarMul(group: Group, base: Element, scalar: Element)   // `base * scalar`
    | MultiExp(group: Group, bases: seq<Element>, scalars: seq<Element>)
    | Pairing(p: Element, q: Element)
    | MillerLoop(pairs: seq<(Element, Element)>)                // `multi_miller_loop`
    | FinalExponentiation

  function Min(a: nat, b: nat): nat
  {
    if a <= b then a else b
  }

  /** `count` consecutive draws of one kind, the first being draw number `at`:
      `(0..count).map(|_| T::random(rng)).collect()`. */
  function Sample(kind: Kind, at: nat, count: nat): seq<Element>
  {
    seq(count, i requires 0 <= i < count => Element(kind, at + i))
  }

  /** Rust's `Iterator::zip`: pairs elements by position and stops at the shorter input. */
  function Zip<A, B>(xs: seq<A>, ys: seq<B>): (z: seq<(A, B)>)
    ensures |z| == Min(|xs|, |ys|)
    ensures forall i :: 0 <= i < |z| ==> z[i] == (xs[i], ys[i])
  {
    if xs == [] || ys == [] then [] else [(xs[0], ys[0])] + Zip(xs[1..], ys[1..])
  }

  /** `multi_pairing(lhs, rhs)`: the two inputs are zipped, converted to affine form and
      fed to one Miller loop, whose result goes through one final exponentiation. A length
      mismatch is not reported: the longer input is cut to the shorter one. */
  function MultiPairing(lhs: seq<Element>, rhs: seq<Element>): (ops: seq<Event>)
    ensures |ops| == 2 && ops[0].MillerLoop? && ops[1] == FinalExponentiation
    ensures |ops[0].pairs| == Min(|lhs|, |rhs|)
    ensures forall i :: 0 <= i < |ops[0].pairs| ==> ops[0].pairs[i] == (lhs[i], rhs[i])
  {
    [MillerLoop(Zip(lhs, rhs)), FinalExponentiation]
  }

  /** `n` copies of `s`, one after the other. */
  function Repeat<T>(n: nat, s: seq<T>): seq<T>
  {
    if n == 0 then [] else s + Repeat(n - 1, s)
  }

  lemma {:induction false} RepeatLength<T>(n: nat, s: seq<T>)
    ensures |Repeat(n, s)| == n * |s|
  {
    if n > 0 {
      RepeatLength(n - 1, s);
    }
  }

  /** Copy `n + 1` is appended at the end: the step of a loop that repeats `s`. */
  lemma {:induction false} RepeatSnoc<T>(n: nat, s: seq<T>)
    ensures Repeat(n + 1, s) == Repeat(n, s) + s
  {
    if n > 0 {
      RepeatSnoc(n - 1, s);
    }
  }

  /** Every position of a repeated single element holds that element. */
  lemma {:induction false} RepeatAt<T>(n: nat, x: T, i: nat)
    requires i < n
    ensures |Repeat(n, [x])| == n && Repeat(n, [x])[i] == x
  {
    RepeatLength(n, [x]);
    if i > 0 {
      RepeatAt(n - 1, x, i - 1);
    }
  }

  /** The events of a trace that stand for library calls, as opposed to draws and clock reads. */
  predicate IsCall(e: Event)
  {
    !e.Draw? && !e.ClockStart? && !e.ClockStop?
  }

  /** A trace made of library calls only: no draw and no clock read. */
  predicate AllCalls(evs: seq<Event>)
  {
    forall i :: 0 <= i < |evs| ==> IsCall(evs[i])
  }

  lemma {:induction false} AllCallsRepeat(n: nat, evs: seq<Event>)
    requires AllCalls(evs)
    ensures AllCalls(Repeat(n, evs))
  {
    if n > 0 {
      AllCallsRepeat(n - 1, evs);
      assert Repeat(n, evs) == evs + Repeat(n - 1, evs);
    }
  }

  /** The shape of a library call: its kind, its group and the number of its operands,
      without the operands themselves. */
  datatype Call =
    | ScalarMulCall(group: Group)
    | MultiExpCall(group: Group, size: nat)
    | PairingCall
    | MillerLoopCall(pairs: nat)
    | FinalExponentiationCall

  function CallOf(e: Event): seq<Call>
  {
    match e
    case ScalarMul(g, _, _) => [ScalarMulCall(g)]
    case MultiExp(g, bases, _) => [MultiExpCall(g, |bases|)]
    case Pairing(_, _) => [PairingCall]
    case MillerLoop(pairs) => [MillerLoopCall(|pairs|)]
    case FinalExponentiation => [FinalExponentiationCall]
    case _ => []
  }

  /** The library calls of a trace, in order, with their operands erased. */
  function Profile(evs: seq<Event>): (p: seq<Call>)
    ensures |p| <= |evs|
  {
    if evs == [] then [] else CallOf(evs[0]) + Profile(evs[1..])
  }

  /** Erasing operands keeps one entry per library call. */
  lemma {:induction false} ProfileOfCalls(evs: seq<Event>)
    requires AllCalls(evs)
    ensures |Profile(evs)| == |evs|
  {
    if evs != [] {
      ProfileOfCalls(evs[1..]);
    }
  }


  lemma {:induction false} ProfileAppend(a: seq<Event>, b: seq<Event>)
    ensures Profile(a + b) == Profile(a) + Profile(b)
  {
    if a != [] {
      assert (a + b)[0] == a[0] && (a + b)[1..] == a[1..] + b;
      ProfileAppend(a[1..], b);
    } else {
      assert a + b == b;
    }
  }

  lemma {:induction false} ProfileRepeat(n: nat, evs: seq<Event>)
    ensures Profile(Repeat(n, evs)) == Repeat(n, Profile(evs))
  {
    if n > 0 {
      ProfileAppend(evs, Repeat(n - 1, evs));
      ProfileRepeat(n - 1, evs);
    }
  }

  /** What a trace costs, per kind of call: scalar multiplications are counted, and the
      multi-exponentiations and Miller loops are listed by size, in the order they ran. */
  datatype Tally = Tally(
    expsG1: nat, multiExpsG1: seq<nat>,
    expsG2: nat, multiExpsG2: seq<nat>,
    pairings: nat, millerLoops: seq<nat>, finalExps: nat)

  const NoCost := Tally(0, [], 0, [], 0, [], 0)

  function Add(a: Tally, b: Tally): Tally
  {
    Tally(a.expsG1 + b.expsG1, a.multiExpsG1 + b.multiExpsG1,
          a.expsG2 + b.expsG2, a.multiExpsG2 + b.multiExpsG2,
          a.pairings + b.pairings, a.millerLoops + b.millerLoops, a.finalExps + b.finalExps)
  }

  lemma AddAssociative(x: Tally, y: Tally, z: Tally)
    ensures Add(x, Add(y, z)) == Add(Add(x, y), z)
  {
    assert x.multiExpsG1 + (y.multiExpsG1 + z.multiExpsG1) == (x.multiExpsG1 + y.multiExpsG1) + z.multiExpsG1;
    assert x.multiExpsG2 + (y.multiExpsG2 + z.multiExpsG2) == (x.multiExpsG2 + y.multiExpsG2) + z.multiExpsG2;
    assert x.millerLoops + (y.millerLoops + z.millerLoops) == (x.millerLoops + y.millerLoops) + z.millerLoops;
  }

  function CostOf(c: Call): Tally
  {
    match c
    case ScalarMulCall(g) => if g == G1 then Tally(1, [], 0, [], 0, [], 0) else Tally(0, [], 1, [], 0, [], 0)
    case MultiExpCall(g, size) =>
      if g == G1 then Tally(0, [size], 0, [], 0, [], 0) else Tally(0, [], 0, [size], 0, [], 0)
    case PairingCall => Tally(0, [], 0, [], 1, [], 0)
    case MillerLoopCall(pairs) => Tally(0, [], 0, [], 0, [pairs], 0)
    case FinalExponentiationCall => Tally(0, [], 0, [], 0, [], 1)
  }

  function Cost(p: seq<Call>): Tally
  {
    if p == [] then NoCost else Add(CostOf(p[0]), Cost(p[1..]))
  }

  lemma {:induction false} CostAppend(a: seq<Call>, b: seq<Call>)
    ensures Cost(a + b) == Add(Cost(a), Cost(b))
  {
    if a != [] {
      assert (a + b)[0] == a[0] && (a + b)[1..] == a[1..] + b;
      CostAppend(a[1..], b);
      AddAssociative(CostOf(a[0]), Cost(a[1..]), Cost(b));
    } else {
      assert a + b == b;
    }
  }

  /** What `n` calls of shape `c` cost. */
  function Many(n: nat, c: Call): Tally
  {
    match c
    case ScalarMulCall(g) => if g == G1 then Tally(n, [], 0, [], 0, [], 0) else Tally(0, [], n, [], 0, [], 0)
    case MultiExpCall(g, size) =>
      if g == G1 then Tally(0, Repeat(n, [size]), 0, [], 0, [], 0)
      else Tally(0, [], 0, Repeat(n, [size]), 0, [], 0)
    case PairingCall => Tally(0, [], 0, [], n, [], 0)
    case MillerLoopCall(pairs) => Tally(0, [], 0, [], 0, Repeat(n, [pairs]), 0)
    case FinalExponentiationCall => Tally(0, [], 0, [], 0, [], n)
  }

  lemma CostSingle(c: Call)
    ensures Cost([c]) == CostOf(c)
  {
    assert [c][1..] == [];
  }

  /** Making the same call `n` times costs `n` such calls. */
  lemma {:induction false} CostRepeatCall(n: nat, c: Call)
    ensures Cost(Repeat(n, [c])) == Many(n, c)
  {
    if n > 0 {
      var first, others := Cost([c]), Cost(Repeat(n - 1, [c]));
      assert first == CostOf(c) by { CostSingle(c); }
      assert others == Many(n - 1, c) by { CostRepeatCall(n - 1, c); }
      calc {
        Cost(Repeat(n, [c]));
        { CostRepeatStep(n, [c]); }
        Add(first, others);
        Add(CostOf(c), Many(n - 1, c));
        { ManyStep(n, c); }
        Many(n, c);
      }
    } else {
      ManyZero(c);
    }
  }

  lemma ManyZero(c: Call)
    ensures Many(0, c) == NoCost
  {
    assert Repeat<nat>(0, [0]) == [];
  }

  lemma RepeatCons(n: nat, x: nat)
    requires n > 0
    ensures Repeat(n, [x]) == [x] + Repeat(n - 1, [x])
  {
  }

  lemma ManyStep(n: nat, c: Call)
    requires n > 0
    ensures Add(CostOf(c), Many(n - 1, c)) == Many(n, c)
  {
    match c
    case ScalarMulCall(g) =>
      assert Add(CostOf(c), Many(n - 1, c)) == Many(n, c) by { ScalarMulStep(n, g); }
    case MultiExpCall(g, size) =>
      assert Add(CostOf(c), Many(n - 1, c)) == Many(n, c) by { MultiExpStep(n, g, size); }
    case PairingCall =>
      assert Add(CostOf(c), Many(n - 1, c)) == Many(n, c);
    case MillerLoopCall(pairs) =>
      assert Add(CostOf(c), Many(n - 1, c)) == Many(n, c) by { RepeatCons(n, pairs); }
    case FinalExponentiationCall =>
      assert Add(CostOf(c), Many(n - 1, c)) == Many(n, c);
  }

  lemma ScalarMulStep(n: nat, g: Group)
    requires n > 0
    ensures Add(CostOf(ScalarMulCall(g)), Many(n - 1, ScalarMulCall(g))) == Many(n, ScalarMulCall(g))
  {
  }

  lemma MultiExpStep(n: nat, g: Group, size: nat)
    requires n > 0
    ensures Add(CostOf(MultiExpCall(g, size)), Many(n - 1, MultiExpCall(g, size))) == Many(n, MultiExpCall(g, size))
  {
    RepeatCons(n, size);
  }

  /** `n` rounds of a multi-pairing over `pairs` pairs cost `n` Miller loops of that size
      and `n` final exponentiations. */
  lemma {:induction false} CostRepeatMultiPairing(n: nat, pairs: nat)
    ensures Cost(Repeat(n, [MillerLoopCall(pairs), FinalExponentiationCall])) ==
      Tally(0, [], 0, [], 0, Repeat(n, [pairs]), n)
  {
    if n > 0 {
      var round := [MillerLoopCall(pairs), FinalExponentiationCall];
      CostRepeatStep(n, round);
      CostOfRound(pairs);
      CostRepeatMultiPairing(n - 1, pairs);
      RoundsStep(n, pairs);
    }
  }

  lemma CostRepeatStep(n: nat, p: seq<Call>)
    requires n > 0
    ensures Cost(Repeat(n, p)) == Add(Cost(p), Cost(Repeat(n - 1, p)))
  {
    CostAppend(p, Repeat(n - 1, p));
  }

  lemma RoundsStep(n: nat, pairs: nat)
    requires n > 0
    ensures Add(Tally(0, [], 0, [], 0, [pairs], 1), Tally(0, [], 0, [], 0, Repeat(n - 1, [pairs]), n - 1)) ==
      Tally(0, [], 0, [], 0, Repeat(n, [pairs]), n)
  {
    assert Repeat(n, [pairs]) == [pairs] + Repeat(n - 1, [pairs]);
  }

  lemma CostOfRound(pairs: nat)
    ensures Cost([MillerLoopCall(pairs), FinalExponentiationCall]) ==
      Tally(0, [], 0, [], 0, [pairs], 1)
  {
    var round := [MillerLoopCall(pairs), FinalExponentiationCall];
    assert round[1..] == [FinalExponentiationCall];
    calc {
      Cost(round);
      Add(CostOf(MillerLoopCall(pairs)), Cost([FinalExponentiationCall]));
      { CostSingle(FinalExponentiationCall); }
      Add(Tally(0, [], 0, [], 0, [pairs], 0), Tally(0, [], 0, [], 0, [], 1));
    }
  }
}
