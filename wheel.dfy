/**
 * The roulette wheel: its fixed sector table and the pure mapping from the
 * final rotation of the wheel (in degrees, any sign, any number of turns) to
 * the sector that stops under the pointer at the top.
 *
 * Angles are exact reals. The JavaScript remainder operator `%` is written
 * out as a truncated remainder (its sign follows the dividend), and the two
 * roundings the source uses are written out as `Trunc` and `.Floor`. A full
 * turn (360) and the sector width (`SectorAngle`, 18) appear as literals in
 * the arithmetic so that it stays linear for the solver; `SectorTable`
 * proves that the width is 360 divided by the number of sectors.
 */
module Wheel {

  /** The five bet denominations; they are also the keys of the bet map. */
  const BetKeys: set<string> := {"1", "3", "5", "10", "20"}

  /**
   * The sectors in the order the wheel paints them, clockwise from rotation
   * 0. A label's weight is the number of times it occurs.
   */
  const Sectors: seq<string> :=
    ["1", "3", "5", "1", "3", "1", "10", "1", "3", "5",
     "1", "3", "1", "5", "1", "3", "10", "1", "3", "20"]

  /** `sectors.length`. */
  const SectorCount: nat := 20

  /** `360 / sectorCount`, the width of one sector in degrees. */
  const SectorAngle: real := 18.0

  /** The sector table has 20 sectors of 18 degrees, each labelled with a bet key. */
  lemma SectorTable()
    ensures |Sectors| == SectorCount && SectorAngle == 360.0 / SectorCount as real
    ensures forall i :: 0 <= i < SectorCount ==> Sectors[i] in BetKeys
  {
  }

  /** The weights by repetition: 8, 6, 3, 2 and 1 sectors for 1, 3, 5, 10 and 20, and no other label. */
  lemma SectorWeights()
    ensures multiset(Sectors)["1"] == 8
    ensures multiset(Sectors)["3"] == 6
    ensures multiset(Sectors)["5"] == 3
    ensures multiset(Sectors)["10"] == 2
    ensures multiset(Sectors)["20"] == 1
    ensures forall tag :: tag !in BetKeys ==> multiset(Sectors)[tag] == 0
  {
    SectorTable();
  }

  /** `i * sectorAngle`: the angle at which sector `i` starts. */
  function SectorStart(i: int): real {
    18.0 * i as real
  }

  /** `k` full turns, in degrees. */
  function Turns(k: int): real {
    360.0 * k as real
  }

  /** `d` is a whole number of turns. */
  ghost predicate WholeTurns(d: real) {
    exists k: int :: Turns(k) == d
  }

  /** A sum of whole turns is a whole number of turns. */
  lemma WholeTurnsAdd(a: real, b: real)
    requires WholeTurns(a) && WholeTurns(b)
    ensures WholeTurns(a + b)
  {
    var ka :| Turns(ka) == a;
    var kb :| Turns(kb) == b;
    assert Turns(ka + kb) == a + b;
  }

  /** The negation of whole turns is a whole number of turns. */
  lemma WholeTurnsNeg(d: real)
    requires WholeTurns(d)
    ensures WholeTurns(-d)
  {
    var k :| Turns(k) == d;
    assert Turns(-k) == -d;
  }

  /** Two angles in [0, 360) that differ from `x` by whole turns are equal. */
  lemma WholeTurnsUnique(x: real, a: real, b: real)
    requires 0.0 <= a < 360.0 && 0.0 <= b < 360.0
    requires WholeTurns(x - a) && WholeTurns(x - b)
    ensures a == b
  {
    var ka :| Turns(ka) == x - a;
    var kb :| Turns(kb) == x - b;
    assert a - b == Turns(kb - ka);
  }

  /** Rounding toward zero, as JavaScript's remainder operator uses it. */
  function Trunc(x: real): (t: int)
    ensures 0.0 <= x ==> t as real <= x < t as real + 1.0
    ensures x < 0.0 ==> t as real - 1.0 < x <= t as real
  {
    if x >= 0.0 then x.Floor else -((-x).Floor)
  }

  /** JavaScript's `x % 360`: the remainder after taking whole turns toward zero. */
  function Rem360(x: real): (r: real)
    ensures 0.0 <= x ==> 0.0 <= r < 360.0
    ensures x < 0.0 ==> -360.0 < r <= 0.0
    ensures WholeTurns(x - r)
  {
    var k := Trunc(x / 360.0);
    assert Turns(k) == x - (x - Turns(k));
    x - Turns(k)
  }

  /** `((x % 360) + 360) % 360`: the rotation brought into [0, 360). */
  function Normalize(x: real): (n: real)
    ensures 0.0 <= n < 360.0
    ensures WholeTurns(x - n)
  {
    var r := Rem360(x);
    var n := Rem360(r + 360.0);
    assert Turns(-1) == -360.0;
    WholeTurnsAdd(x - r, -360.0);
    WholeTurnsAdd(x - r - 360.0, r + 360.0 - n);
    n
  }

  /** `(360 - n) % 360`: the wheel angle under the fixed pointer. */
  function PinAngle(n: real): (p: real)
    ensures 0.0 <= n < 360.0 ==> 0.0 <= p < 360.0
    ensures 0.0 <= n < 360.0 ==> p + n == (if n == 0.0 then 0.0 else 360.0)
  {
    Rem360(360.0 - n)
  }

  /** `Math.floor(pinAngle / sectorAngle)`: the sector whose half-open range holds the pin angle. */
  function SectorIndex(pin: real): (i: int)
    ensures SectorStart(i) <= pin < SectorStart(i + 1)
    ensures 0.0 <= pin < 360.0 ==> 0 <= i < SectorCount
  {
    (pin / 18.0).Floor
  }

  /** The index the completion callback computes; it is in range, with no clamp. */
  function ResolveIndex(end: real): (i: nat)
    ensures i < SectorCount
    ensures SectorStart(i) <= PinAngle(Normalize(end)) < SectorStart(i + 1)
  {
    SectorIndex(PinAngle(Normalize(end)))
  }

  /** The label the completion callback stores as the round's result. */
  function Resolve(end: real): (tag: string)
    ensures tag in BetKeys
  {
    Sectors[SectorIndex(PinAngle(Normalize(end)))]
  }

  // ---------------------------------------------------------------------
  // An independent reference: the floored remainder of the negated angle.
  // ---------------------------------------------------------------------

  /** The mathematical (floored) remainder of `y` by a full turn. */
  function FloorMod360(y: real): (m: real)
    ensures 0.0 <= m < 360.0
    ensures WholeTurns(y - m)
  {
    var k := (y / 360.0).Floor;
    assert Turns(k) == y - (y - Turns(k));
    y - Turns(k)
  }

  /** Normalizing gives the floored remainder of the rotation. */
  lemma NormalizeIsFloorMod(x: real)
    ensures Normalize(x) == FloorMod360(x)
  {
    WholeTurnsUnique(x, Normalize(x), FloorMod360(x));
  }

  /** The complement of a normalized angle differs from the negated rotation by whole turns. */
  lemma PinAngleWholeTurns(end: real)
    ensures WholeTurns(-end - PinAngle(Normalize(end)))
  {
    var n := Normalize(end);
    var p := PinAngle(n);
    WholeTurnsNeg(end - n);
    if n == 0.0 {
      assert -end - p == -(end - n);
    } else {
      assert -end - p == -(end - n) - 360.0;
      assert Turns(-1) == -360.0;
      WholeTurnsAdd(-(end - n), -360.0);
    }
  }

  /** The pointer angle is the floored remainder of the negated rotation. */
  lemma PinAngleIsFloorModOfNegation(end: real)
    ensures PinAngle(Normalize(end)) == FloorMod360(-end)
  {
    PinAngleWholeTurns(end);
    WholeTurnsUnique(-end, PinAngle(Normalize(end)), FloorMod360(-end));
  }

  /** The resolver agrees with the reference `floor(((-end) mod 360) / 18)`. */
  lemma ResolveMatchesReference(end: real)
    ensures ResolveIndex(end) == (FloorMod360(-end) / 18.0).Floor
    ensures Resolve(end) == Sectors[(FloorMod360(-end) / 18.0).Floor]
  {
    PinAngleIsFloorModOfNegation(end);
  }

  /** Adding whole turns does not change the floored remainder. */
  lemma FloorModPeriodic(y: real, k: int)
    ensures FloorMod360(y + Turns(k)) == FloorMod360(y)
  {
    var m := FloorMod360(y);
    var j :| Turns(j) == y - m;
    assert Turns(j + k) == y + Turns(k) - m;
    WholeTurnsUnique(y + Turns(k), FloorMod360(y + Turns(k)), m);
  }

  /** Periodicity: `end` and `end + 360*k` land on the same sector. */
  lemma ResolvePeriodic(end: real, k: int)
    ensures ResolveIndex(end + Turns(k)) == ResolveIndex(end)
    ensures Resolve(end + Turns(k)) == Resolve(end)
  {
    PinAngleIsFloorModOfNegation(end);
    PinAngleIsFloorModOfNegation(end + Turns(k));
    assert -(end + Turns(k)) == -end + Turns(-k);
    FloorModPeriodic(-end, -k);
  }

  /** A pin angle falls in sector `i` exactly when it lies in [18i, 18(i+1)). */
  lemma SectorIndexIff(pin: real, i: int)
    ensures SectorIndex(pin) == i <==> SectorStart(i) <= pin < SectorStart(i + 1)
  {
    var j := SectorIndex(pin);
    if SectorStart(i) <= pin < SectorStart(i + 1) {
      assert i <= j && j <= i;
    }
  }

  /** Boundary: a pin angle exactly on the edge `18i` belongs to the sector starting there. */
  lemma EdgeBelongsToNextSector(i: int)
    requires 0 <= i < SectorCount
    ensures SectorIndex(SectorStart(i)) == i
    ensures i > 0 ==> SectorIndex(SectorStart(i) - 0.5) == i - 1
  {
    SectorIndexIff(SectorStart(i), i);
    if i > 0 {
      SectorIndexIff(SectorStart(i) - 0.5, i - 1);
    }
  }

  /** An angle already in [0, 360) is its own floored remainder. */
  lemma FloorModOfTurnAngle(a: real)
    requires 0.0 <= a < 360.0
    ensures FloorMod360(a) == a
  {
    assert Turns(0) == a - a;
    WholeTurnsUnique(a, FloorMod360(a), a);
  }

  /** Stopping with the edge of sector `i` under the pointer, after any number of turns, yields sector `i`. */
  lemma EdgeUnderPointerResolves(i: int, k: int)
    requires 0 <= i < SectorCount
    ensures ResolveIndex(Turns(k) - SectorStart(i)) == i
    ensures Resolve(Turns(k) - SectorStart(i)) == Sectors[i]
  {
    var start := SectorStart(i);
    var end := Turns(k) - start;
    assert -end == start + Turns(-k);
    calc {
      PinAngle(Normalize(end));
    == { PinAngleIsFloorModOfNegation(end); }
      FloorMod360(start + Turns(-k));
    == { FloorModPeriodic(start, -k); }
      FloorMod360(start);
    == { FloorModOfTurnAngle(start); }
      start;
    }
    EdgeBelongsToNextSector(i);
  }
}
