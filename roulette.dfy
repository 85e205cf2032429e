/**
 * The roulette component's round state: the bet map, the `spinning` guard,
 * the `result` slot and the wheel's rotation. `Spin` starts a round from two
 * draws of the random source; `Complete` is the animation's completion
 * callback, which resolves the sector under the pointer.
 */
module Roulette {
  import opened Wrappers
  import opened Wheel

  /** The bet map with every key at zero: the initial bets and what `resetBets` installs. */
  const ZeroBets: map<string, nat> := map["1" := 0, "3" := 0, "5" := 0, "10" := 0, "20" := 0]

  /** `6 + Math.floor(Math.random() * 3)`, for a draw `u` of `Math.random()`. */
  function FullSpins(u: real): (n: int)
    requires 0.0 <= u < 1.0
    ensures 6 <= n <= 8
  {
    6 + (u * 3.0).Floor
  }

  /** `Math.random() * 180`, for a draw `u` of `Math.random()`. */
  function RandomOffset(u: real): (o: real)
    requires 0.0 <= u < 1.0
    ensures 0.0 <= o < 180.0
  {
    u * 180.0
  }

  /** The final rotation `start + fullSpins * 360 + randomOffset` of a spin. */
  function SpinEnd(start: real, u1: real, u2: real): (end: real)
    requires 0.0 <= u1 < 1.0 && 0.0 <= u2 < 1.0
    ensures start + 6.0 * 360.0 <= end < start + 8.0 * 360.0 + 180.0
  {
    start + Turns(FullSpins(u1)) + RandomOffset(u2)
  }

  /** Each of 6, 7 and 8 full spins is drawn by a third of the random range. */
  lemma FullSpinsCover(u: real, n: int)
    requires 0.0 <= u < 1.0 && 6 <= n <= 8
    ensures FullSpins(u) == n <==> (n - 6) as real / 3.0 <= u < (n - 5) as real / 3.0
  {
    var f := (u * 3.0).Floor;
    if (n - 6) as real / 3.0 <= u < (n - 5) as real / 3.0 {
      assert (n - 6) as real <= u * 3.0 < (n - 5) as real;
      assert f == n - 6;
    }
  }

  /** The number of full spins never changes the outcome: only the start and the offset do. */
  lemma SpinOutcomeIgnoresFullSpins(start: real, u1: real, u2: real)
    requires 0.0 <= u1 < 1.0 && 0.0 <= u2 < 1.0
    ensures Resolve(SpinEnd(start, u1, u2)) == Resolve(start + RandomOffset(u2))
  {
    assert SpinEnd(start, u1, u2) == start + RandomOffset(u2) + Turns(FullSpins(u1));
    ResolvePeriodic(start + RandomOffset(u2), FullSpins(u1));
  }

  class RouletteGame {
    /** True from an accepted `Spin` until its completion callback. */
    var spinning: bool
    /** The label of the last resolved round, or `None` while a round is open. */
    var result: Option<string>
    /** Bet units per label. */
    var bets: map<string, nat>
    /** The wheel's rotation in degrees (the motion value). */
    var rotation: real
    /** The final rotation `end` that the pending animation was started towards. */
    var target: real

    ghost predicate Valid()
      reads this
    {
      && bets.Keys == BetKeys
      && (spinning ==> result == None)
      && (result.Some? ==> result.value in BetKeys)
    }

    constructor ()
      ensures Valid()
      ensures !spinning && result == None && bets == ZeroBets && rotation == 0.0
    {
      spinning := false;
      result := None;
      bets := ZeroBets;
      rotation := 0.0;
      target := 0.0;
    }

    /** `handleBet`: one more unit on `value`; the bet buttons offer only the five keys. */
    method HandleBet(value: string)
      requires Valid()
      requires value in BetKeys
      modifies this`bets
      ensures Valid()
      ensures bets.Keys == old(bets.Keys)
      ensures bets[value] == old(bets[value]) + 1
      ensures forall k :: k in bets && k != value ==> bets[k] == old(bets[k])
    {
      bets := bets[value := bets[value] + 1];
    }

    /** `resetBets`: every key back to zero, whatever was bet. */
    method ResetBets()
      requires Valid()
      modifies this`bets
      ensures Valid()
      ensures bets.Keys == BetKeys
      ensures forall k :: k in bets ==> bets[k] == 0
    {
      bets := ZeroBets;
    }

    /**
     * `spin`, with `u1` and `u2` the two draws of `Math.random()`. Ignored while
     * a spin is in flight; otherwise opens the round and fixes its final angle.
     */
    method Spin(u1: real, u2: real) returns (started: bool)
      requires Valid()
      requires 0.0 <= u1 < 1.0 && 0.0 <= u2 < 1.0
      modifies this`spinning, this`result, this`target
      ensures Valid()
      ensures started == !old(spinning)
      ensures !started ==> spinning && result == old(result) && target == old(target)
      ensures started ==> spinning && result == None && target == SpinEnd(rotation, u1, u2)
      ensures started ==> target >= rotation + 6.0 * 360.0
    {
      if spinning {
        return false;
      }
      spinning := true;
      result := None;
      var start := rotation;
      target := SpinEnd(start, u1, u2);
      started := true;
    }

    /**
     * The animation's `onComplete`: the wheel rests at the final angle, the
     * guard is released and the label under the pointer becomes the result.
     */
    method Complete()
      requires Valid()
      requires spinning
      modifies this`spinning, this`result, this`rotation
      ensures Valid()
      ensures !spinning
      ensures rotation == old(target)
      ensures result == Some(Resolve(old(target)))
      ensures result.value == Sectors[ResolveIndex(old(target))]
    {
      spinning := false;
      var pin := PinAngle(Normalize(target));
      var index := SectorIndex(pin);
      result := Some(Sectors[index]);
      rotation := target;
    }
  }

  /** A round from start to finish: the result is a bet key and the bets are untouched. */
  method PlayRound(game: RouletteGame, u1: real, u2: real)
    requires game.Valid() && !game.spinning
    requires 0.0 <= u1 < 1.0 && 0.0 <= u2 < 1.0
    modifies game
    ensures game.Valid() && !game.spinning
    ensures game.bets == old(game.bets)
    ensures game.result == Some(Resolve(old(game.rotation) + RandomOffset(u2)))
    ensures game.result.value in BetKeys
  {
    var start := game.rotation;
    SpinOutcomeIgnoresFullSpins(start, u1, u2);
    var started := game.Spin(u1, u2);
    var again := game.Spin(u2, u1);
    assert !again && game.target == SpinEnd(start, u1, u2);
    game.Complete();
  }
}
