/**
 * Piston travel of the engine animation rig as a two-state machine: the
 * piston advances while the pushing multiplier is +1 and retracts while it
 * is -1; a retraction ends by itself once the position has gone negative.
 * Each tick moves the piston by power * multiplier / 64.
 */
module EnginePiston {

  /** Position of the piston and the sign it is pushed with. */
  datatype PistonState = PistonState(position: real, multiplier: real)

  /** Divisor that turns engine power into piston travel per tick. */
  const TravelScale: real := 64.0

  /** Position beyond which the piston is ready to go back. */
  const GoBackThreshold: real := 0.5

  /** The state the rig starts in: at rest, pushing outwards. */
  const Initial: PistonState := PistonState(0.0, 1.0)

  /** One piston move with the given power. */
  function Move(s: PistonState, power: real): (t: PistonState)
    ensures s.position < 0.0 ==> t.multiplier == 1.0 && t.position == s.position + power / TravelScale
    ensures s.position >= 0.0 ==> t.multiplier == s.multiplier && t.position == s.position + power * s.multiplier / TravelScale
    ensures power >= 0.0 && t.multiplier == 1.0 ==> t.position >= s.position
    ensures power > 0.0 && t.multiplier == -1.0 ==> t.position < s.position
  {
    var m := if s.position < 0.0 then 1.0 else s.multiplier;
    PistonState(s.position + power * m / TravelScale, m)
  }

  /** The go-back transition: the multiplier turns to -1, the position stays. */
  function GoBack(s: PistonState): (t: PistonState)
    ensures t.position == s.position && t.multiplier == -1.0
  {
    s.(multiplier := -1.0)
  }

  /** Whether the piston has travelled past the go-back threshold. */
  predicate ReadyToGoBack(s: PistonState) {
    s.position > GoBackThreshold
  }

  /** The piston after one move per tick, with the powers of successive ticks. */
  function Run(s: PistonState, powers: seq<real>): PistonState
    decreases |powers|
  {
    if powers == [] then s else Run(Move(s, powers[0]), powers[1..])
  }

  function Sum(powers: seq<real>): real
    decreases |powers|
  {
    if powers == [] then 0.0 else powers[0] + Sum(powers[1..])
  }

  predicate NonNegative(powers: seq<real>) {
    forall i :: 0 <= i < |powers| ==> powers[i] >= 0.0
  }

  lemma {:induction false} SumNonNegative(powers: seq<real>)
    requires NonNegative(powers)
    ensures Sum(powers) >= 0.0
    decreases |powers|
  {
    if powers != [] {
      SumNonNegative(powers[1..]);
    }
  }

  /**
   * While pushing outwards, the piston stays in the advancing state and
   * travels exactly the accumulated power over 64, never backwards.
   */
  lemma {:induction false} RunAdvancing(s: PistonState, powers: seq<real>)
    requires s.multiplier == 1.0
    requires NonNegative(powers)
    ensures Run(s, powers) == PistonState(s.position + Sum(powers) / TravelScale, 1.0)
    ensures Run(s, powers).position >= s.position
    decreases |powers|
  {
    SumNonNegative(powers);
    if powers != [] {
      RunAdvancing(Move(s, powers[0]), powers[1..]);
    }
  }

  /**
   * While retracting, the piston stays in the retracting state and moves
   * back by the accumulated power over 64, as long as that travel does not
   * take it below zero before the last move.
   */
  lemma {:induction false} RunRetracting(s: PistonState, powers: seq<real>)
    requires s.multiplier == -1.0
    requires NonNegative(powers)
    requires Sum(powers) / TravelScale <= s.position
    ensures Run(s, powers) == PistonState(s.position - Sum(powers) / TravelScale, -1.0)
    decreases |powers|
  {
    if powers != [] {
      SumNonNegative(powers[1..]);
      RunRetracting(Move(s, powers[0]), powers[1..]);
    }
  }

  /**
   * Once the position has gone negative, the next move resets the multiplier
   * to +1 whatever state the piston was in, so a retraction cannot run away:
   * from then on the piston advances again.
   */
  lemma {:induction false} ReturnsAfterCrossingZero(s: PistonState, p: real, powers: seq<real>)
    requires s.position < 0.0
    requires p >= 0.0 && NonNegative(powers)
    ensures Run(s, [p] + powers).multiplier == 1.0
    ensures Run(s, [p] + powers).position == s.position + (p + Sum(powers)) / TravelScale
  {
    assert ([p] + powers)[1..] == powers;
    RunAdvancing(Move(s, p), powers);
  }

  /**
   * One full stroke: from rest, a constant positive power pushes the piston
   * out; after n moves it has travelled n * power / 64.
   */
  lemma {:induction false} ConstantPowerStroke(power: real, n: nat)
    requires power >= 0.0
    ensures Run(Initial, Constant(power, n)).position == (n as real) * power / TravelScale
  {
    ConstantSum(power, n);
    RunAdvancing(Initial, Constant(power, n));
  }

  /** The same power on each of n ticks. */
  function Constant(power: real, n: nat): (powers: seq<real>)
    ensures |powers| == n
    ensures forall i :: 0 <= i < n ==> powers[i] == power
  {
    seq(n, _ => power)
  }

  lemma {:induction false} ConstantSum(power: real, n: nat)
    ensures Sum(Constant(power, n)) == (n as real) * power
  {
    if n > 0 {
      assert Constant(power, n)[1..] == Constant(power, n - 1);
      ConstantSum(power, n - 1);
    }
  }

  lemma {:induction false} RunSplit(s: PistonState, a: seq<real>, b: seq<real>)
    ensures Run(s, a + b) == Run(Run(s, a), b)
    decreases |a|
  {
    if a != [] {
      assert (a + b)[1..] == a[1..] + b;
      RunSplit(Move(s, a[0]), a[1..], b);
    } else {
      assert a + b == b;
    }
  }

  /**
   * Under a constant positive power a retraction ends: turned round at a
   * position that n moves of
   * the same positive power do not use up but n + 1 moves do, the piston is
   * below zero after n + 1 moves, still retracting, and the next move pushes
   * it outwards again.
   */
  lemma {:induction false} RetractionEnds(s: PistonState, power: real, n: nat)
    requires power > 0.0
    requires (n as real) * power / TravelScale <= s.position < ((n + 1) as real) * power / TravelScale
    ensures var t := Run(GoBack(s), Constant(power, n + 1));
      && t.position < 0.0 && t.multiplier == -1.0
      && Move(t, power).multiplier == 1.0
  {
    assert Constant(power, n + 1) == Constant(power, n) + [power];
    RunSplit(GoBack(s), Constant(power, n), [power]);
    ConstantSum(power, n);
    RunRetracting(GoBack(s), Constant(power, n));
    var u := Run(GoBack(s), Constant(power, n));
    assert u == PistonState(s.position - (n as real) * power / TravelScale, -1.0);
    assert Run(u, [power]) == Move(u, power);
  }
}
