/** The small helpers of utils.js: angle normalisation, the biome map, the clock display, the
    experience curve and the forest wolf's corner picking. */
module Utils {
  import opened Wrappers
  import opened Config
  import opened Geometry

  // ---------------------------------------------------------------- normalizeAngle

  /** `Math.PI` as the double the game uses. */
  const PI: real := 3.141592653589793
  const TWO_PI: real := 6.283185307179586

  /** The representative of `angle` in (-PI, PI]: `angle` shifted by a whole number of turns. */
  function NormalizedAngle(angle: real): real {
    angle + Turns(angle) as real * TWO_PI
  }

  /** The number of whole turns normalisation adds to `angle`. */
  function Turns(angle: real): int {
    ((PI - angle) / TWO_PI).Floor
  }

  lemma NormalizedAngleInRange(angle: real)
    ensures -PI < NormalizedAngle(angle) <= PI
  {
    var q := (PI - angle) / TWO_PI;
    assert q.Floor as real <= q < q.Floor as real + 1.0;
    assert q * TWO_PI == PI - angle;
  }

  /** No other whole number of turns lands in (-PI, PI]: the normalised angle is the only one. */
  lemma {:induction false} TurnsUnique(angle: real, k: int)
    requires -PI < angle + k as real * TWO_PI <= PI
    ensures k == Turns(angle)
  {
    NormalizedAngleInRange(angle);
  }

  /** normalizeAngle (utils.js:14-18): add full turns while at or below -PI, then take full
      turns off while above PI. */
  method NormalizeAngle(angle0: real) returns (angle: real)
    ensures -PI < angle <= PI
    ensures angle == NormalizedAngle(angle0)
  {
    angle := angle0;
    ghost var k: int := 0;
    while angle <= -PI
      invariant angle == angle0 + k as real * TWO_PI
      invariant angle0 <= -PI ==> angle <= PI
      invariant angle0 > -PI ==> angle == angle0
      decreases (-angle).Floor
    {
      angle := angle + TWO_PI;
      k := k + 1;
      assert angle == angle0 + k as real * TWO_PI;
    }
    while angle > PI
      invariant angle == angle0 + k as real * TWO_PI
      invariant angle > -PI
      decreases angle.Floor
    {
      angle := angle - TWO_PI;
      k := k - 1;
      assert angle == angle0 + k as real * TWO_PI;
    }
    TurnsUnique(angle0, k);
  }

  // ---------------------------------------------------------------- getBiomeAt

  datatype Biome = Rocky | Swamp | Volcano | Badlands | Frostlands | Desert | Forest | Jungle | Plains

  /** getBiomeAt (utils.js:33-44): the four corner tests first, then the bands, plains last. */
  function GetBiomeAt(x: real, y: real): Biome {
    if x < ROCKY_X_END && y < ROCKY_Y_END then Rocky
    else if x > SWAMP_X_START && y < SWAMP_Y_END then Swamp
    else if x < VOLCANO_X_END && y > VOLCANO_Y_START then Volcano
    else if x > BADLANDS_X_START && y > BADLANDS_Y_START then Badlands
    else if y < FROSTLANDS_Y_END then Frostlands
    else if y > DESERT_Y_START then Desert
    else if x < FOREST_X_END then Forest
    else if x > JUNGLE_X_START then Jungle
    else Plains
  }

  /** Which third of the world's width a coordinate falls in; the dividing lines belong to the
      middle third. */
  function Column(x: real): int {
    if x < WORLD_THIRD_X then 0 else if x > WORLD_WIDTH - WORLD_THIRD_X then 2 else 1
  }

  function Row(y: real): int {
    if y < WORLD_THIRD_Y then 0 else if y > WORLD_HEIGHT - WORLD_THIRD_Y then 2 else 1
  }

  /** The biome map as a three-by-three grid, read row by row from the top. */
  function GridBiome(row: int, col: int): Biome {
    if row == 0 then (if col == 0 then Rocky else if col == 2 then Swamp else Frostlands)
    else if row == 2 then (if col == 0 then Volcano else if col == 2 then Badlands else Desert)
    else (if col == 0 then Forest else if col == 2 then Jungle else Plains)
  }

  /** The chain of tests draws exactly the three-by-three grid: the corner tests never overlap,
      so their order does not matter, and the bands and plains fill the rest. */
  lemma BiomeGrid(x: real, y: real)
    ensures GetBiomeAt(x, y) == GridBiome(Row(y), Column(x))
  {
  }

  /** Plains is the answer exactly when the point lies in the middle cell. */
  lemma PlainsOnlyInTheMiddle(x: real, y: real)
    ensures GetBiomeAt(x, y) == Plains <==>
      WORLD_THIRD_X <= x <= WORLD_WIDTH - WORLD_THIRD_X && WORLD_THIRD_Y <= y <= WORLD_HEIGHT - WORLD_THIRD_Y
  {
    BiomeGrid(x, y);
  }

  // ---------------------------------------------------------------- formatTime

  function DigitChar(d: int): char
    requires 0 <= d < 10
  {
    "0123456789"[d]
  }

  predicate IsDigit(c: char) { '0' <= c <= '9' }

  function DigitValue(c: char): int
    requires IsDigit(c)
  {
    c as int - '0' as int
  }

  /** `n.toString()` for a non-negative integer: decimal digits, no leading zero. */
  function NatToString(n: nat): (s: string)
    ensures |s| >= 1 && forall k :: 0 <= k < |s| ==> IsDigit(s[k])
    ensures |s| > 1 ==> s[0] != '0'
    decreases n
  {
    if n < 10 then [DigitChar(n)] else NatToString(n / 10) + [DigitChar(n % 10)]
  }

  /** The number a string of decimal digits spells. */
  function DigitsValue(s: string): nat
    requires forall k :: 0 <= k < |s| ==> IsDigit(s[k])
    decreases |s|
  {
    if s == [] then 0 else DigitsValue(s[..|s| - 1]) * 10 + DigitValue(s[|s| - 1])
  }

  lemma {:induction false} NatToStringRoundTrip(n: nat)
    ensures DigitsValue(NatToString(n)) == n
    decreases n
  {
    var s := NatToString(n);
    DigitCharValue(n % 10);
    if n >= 10 {
      NatToStringRoundTrip(n / 10);
      assert s[..|s| - 1] == NatToString(n / 10);
    }
  }

  /** The digit character of `d` spells `d`. */
  lemma DigitCharValue(d: int)
    requires 0 <= d < 10
    ensures IsDigit(DigitChar(d)) && DigitValue(DigitChar(d)) == d
  {
  }

  /** `s.padStart(2, '0')`. */
  function PadStart2(s: string): (p: string)
    ensures |p| == if |s| < 2 then 2 else |s|
  {
    if |s| == 0 then "00" else if |s| == 1 then "0" + s else s
  }

  /** A leading zero does not change the value of a digit string. */
  lemma {:induction false} LeadingZeroValue(s: string)
    requires forall k :: 0 <= k < |s| ==> IsDigit(s[k])
    ensures DigitsValue("0" + s) == DigitsValue(s)
    decreases |s|
  {
    if s != [] {
      assert ("0" + s)[..|"0" + s| - 1] == "0" + s[..|s| - 1];
      LeadingZeroValue(s[..|s| - 1]);
    }
  }

  /** A decimal number padded to two digits: still its digits, still its value. */
  lemma PaddedNumber(n: nat)
    ensures var p := PadStart2(NatToString(n));
      && |p| >= 2 && (n < 100 ==> |p| == 2)
      && (forall k :: 0 <= k < |p| ==> IsDigit(p[k]))
      && DigitsValue(p) == n
  {
    NatToStringRoundTrip(n);
    var s := NatToString(n);
    if |s| == 1 {
      LeadingZeroValue(s);
    }
    if n < 100 && |s| > 2 {
      NatToStringLength(n);
    }
  }

  lemma {:induction false} NatToStringLength(n: nat)
    ensures n < 10 ==> |NatToString(n)| == 1
    ensures n < 100 ==> |NatToString(n)| <= 2
    decreases n
  {
    if n >= 10 {
      NatToStringLength(n / 10);
    }
  }

  /** formatTime (utils.js:46-52): whole minutes and the remaining seconds, each padded to two
      digits, joined by a colon. A negative duration shows as zero. */
  function FormatTime(milliseconds: real): string {
    var ms := if milliseconds < 0.0 then 0.0 else milliseconds;
    var totalSeconds := (ms / 1000.0).Floor;
    var minutes := totalSeconds / 60;
    var seconds := totalSeconds % 60;
    ClockDisplay(minutes, seconds)
  }

  /** `${mm}:${ss}`, each field padded to two digits. */
  function ClockDisplay(minutes: nat, seconds: nat): string {
    PadStart2(NatToString(minutes)) + ":" + PadStart2(NatToString(seconds))
  }

  /** Flooring to seconds and then dividing by sixty is flooring to minutes. */
  lemma MinutesOfMilliseconds(ms: real)
    requires ms >= 0.0
    ensures (ms / 1000.0).Floor / 60 == (ms / 60000.0).Floor
    ensures (ms / 1000.0).Floor >= 0
  {
    var t := (ms / 1000.0).Floor;
    var m := t / 60;
    assert t as real <= ms / 1000.0 < t as real + 1.0;
    assert 60 * m <= t < 60 * m + 60;
    assert (60000 * m) as real <= ms;
    assert ms < (60000 * (m + 1)) as real;
  }

  /** The display splits at its one colon into a minutes field of at least two digits spelling
      `floor(ms / 60000)` and a seconds field of exactly two digits spelling a number below 60. */
  lemma FormatTimeFields(milliseconds: real) returns (mm: string, ss: string)
    ensures FormatTime(milliseconds) == mm + ":" + ss
    ensures
      && |mm| >= 2 && (forall k :: 0 <= k < |mm| ==> IsDigit(mm[k]))
      && |ss| == 2 && (forall k :: 0 <= k < |ss| ==> IsDigit(ss[k]))
      && DigitsValue(ss) < 60
      && DigitsValue(mm) == (if milliseconds < 0.0 then 0 else (milliseconds / 60000.0).Floor)
  {
    var ms := if milliseconds < 0.0 then 0.0 else milliseconds;
    MinutesOfMilliseconds(ms);
    var totalSeconds := (ms / 1000.0).Floor;
    assert ms == 0.0 ==> (ms / 60000.0).Floor == 0;
    mm, ss := ClockFields(totalSeconds / 60, totalSeconds % 60);
  }

  /** The two padded fields of a display of `minutes` and `seconds`. */
  lemma ClockFields(minutes: nat, seconds: nat) returns (mm: string, ss: string)
    requires seconds < 60
    ensures ClockDisplay(minutes, seconds) == mm + ":" + ss
    ensures
      && |mm| >= 2 && (forall k :: 0 <= k < |mm| ==> IsDigit(mm[k]))
      && |ss| == 2 && (forall k :: 0 <= k < |ss| ==> IsDigit(ss[k]))
      && DigitsValue(ss) == seconds && DigitsValue(mm) == minutes
  {
    PaddedNumber(minutes);
    PaddedNumber(seconds);
    mm, ss := PadStart2(NatToString(minutes)), PadStart2(NatToString(seconds));
  }

  /** A negative duration displays as "00:00". */
  lemma FormatTimeNegative(milliseconds: real)
    requires milliseconds < 0.0
    ensures FormatTime(milliseconds) == "00:00"
  {
    assert (0.0 / 1000.0).Floor == 0;
  }

  // ---------------------------------------------------------------- calculateXPForNextLevel

  /** The integer square root: the largest r with r * r <= n. */
  function ISqrt(n: nat): (r: nat)
    ensures r * r <= n < (r + 1) * (r + 1)
    decreases n
  {
    if n == 0 then 0
    else
      var s := ISqrt(n - 1);
      if (s + 1) * (s + 1) <= n then s + 1 else s
  }

  /** The square-root bounds pin the root down: any r with them is ISqrt(n). */
  lemma ISqrtUnique(n: nat, r: nat)
    requires r * r <= n < (r + 1) * (r + 1)
    ensures ISqrt(n) == r
  {
    var s := ISqrt(n);
    if s < r {
      SquareMonotone(s + 1, r);
    } else if s > r {
      SquareMonotone(r + 1, s);
    }
  }

  lemma SquareMonotone(a: nat, b: nat)
    requires a <= b
    ensures a * a <= b * b
  {
    assert a * a <= a * b <= b * b;
  }

  lemma ISqrtMonotone(n: nat, m: nat)
    requires n <= m
    ensures ISqrt(n) <= ISqrt(m)
  {
    var a, b := ISqrt(n), ISqrt(m);
    if a > b {
      SquareMonotone(b + 1, a);
    }
  }

  /** calculateXPForNextLevel (utils.js:148-151): `max(100, floor(100 * level^1.5))`, and 100
      below level 1. For a whole level, `floor(100 * level^1.5)` is the integer square root of
      `10000 * level^3`. */
  function CalculateXPForNextLevel(level: int): (xp: int)
    ensures xp >= BASE_XP_FOR_LEVEL_2
    ensures level < 1 ==> xp == BASE_XP_FOR_LEVEL_2
  {
    if level < 1 then BASE_XP_FOR_LEVEL_2
    else
      var required := ISqrt(10000 * level * level * level);
      if required > BASE_XP_FOR_LEVEL_2 then required else BASE_XP_FOR_LEVEL_2
  }

  /** The requirement never falls as the level rises. */
  lemma XPRequirementMonotone(l1: int, l2: int)
    requires l1 <= l2
    ensures CalculateXPForNextLevel(l1) <= CalculateXPForNextLevel(l2)
  {
    if l1 >= 1 {
      CubeMonotone(l1, l2);
      ISqrtMonotone(10000 * l1 * l1 * l1, 10000 * l2 * l2 * l2);
    }
  }

  lemma CubeMonotone(a: nat, b: nat)
    requires a <= b
    ensures 10000 * a * a * a <= 10000 * b * b * b
  {
    SquareMonotone(a, b);
    assert a * a * a <= b * b * a <= b * b * b;
  }

  /** Two sample points of the curve: level 1 needs 100, level 2 needs floor(200 * sqrt 2) = 282. */
  lemma XPCurveSamples()
    ensures CalculateXPForNextLevel(1) == 100
    ensures CalculateXPForNextLevel(2) == 282
  {
    ISqrtUnique(10000, 100);
    ISqrtUnique(80000, 282);
  }

  // ---------------------------------------------------------------- pickNewForestCornerTarget

  /** The corners of the forest region, in the order the game lists them. */
  const FOREST_CORNERS: seq<Point> := [
    Point(0.0, FROSTLANDS_Y_END), Point(FOREST_X_END, FROSTLANDS_Y_END),
    Point(0.0, DESERT_Y_START), Point(FOREST_X_END, DESERT_Y_START)]

  function WithoutPoint(s: seq<Point>, p: Point): (r: seq<Point>)
    ensures forall q :: q in r <==> q in s && q != p
  {
    if s == [] then [] else (if s[0] == p then [] else [s[0]]) + WithoutPoint(s[1..], p)
  }

  /** `Math.floor(Math.random() * n)`: a draw in [0, 1) scaled to an index below n. */
  function ScaledIndex(draw: real, n: nat): (k: int)
    requires 0.0 <= draw < 1.0 && n >= 1
    ensures 0 <= k < n
  {
    ScaledBelow(draw, n);
    (draw * n as real).Floor
  }

  lemma ScaledBelow(draw: real, n: nat)
    requires 0.0 <= draw < 1.0 && n >= 1
    ensures 0.0 <= draw * n as real < n as real
  {
    assert draw * n as real < 1.0 * n as real;
    assert 0.0 * n as real <= draw * n as real;
  }

  /** A point not in a list is kept whole by the filter. */
  lemma {:induction false} WithoutAbsentPoint(s: seq<Point>, p: Point)
    requires p !in s
    ensures WithoutPoint(s, p) == s
    decreases |s|
  {
    if s != [] {
      WithoutAbsentPoint(s[1..], p);
    }
  }

  /** Filtering a point out of a list without repeats that holds it removes exactly one entry. */
  lemma {:induction false} WithoutPresentPoint(s: seq<Point>, p: Point)
    requires p in s
    requires forall i, j :: 0 <= i < j < |s| ==> s[i] != s[j]
    ensures |WithoutPoint(s, p)| == |s| - 1
    decreases |s|
  {
    if s[0] == p {
      assert p !in s[1..] by {
        forall j | 0 <= j < |s[1..]|
          ensures s[1..][j] != p
        {
          assert s[1..][j] == s[j + 1];
        }
      }
      WithoutAbsentPoint(s[1..], p);
    } else {
      WithoutPresentPoint(s[1..], p);
    }
  }

  /** Filtering out one corner leaves the other three. */
  lemma CornerFilterLeavesThree(c: Point)
    requires c in FOREST_CORNERS
    ensures |WithoutPoint(FOREST_CORNERS, c)| == 3
  {
    WithoutPresentPoint(FOREST_CORNERS, c);
  }

  /** The point the wolf heads for: `corner` moved by the two offset draws, then clamped to the
      forest at least `radius` away from its edges. */
  function ForestTarget(radius: real, corner: Point, offsetXDraw: real, offsetYDraw: real): (p: Point)
    ensures 2.0 * radius <= FOREST_X_END ==> radius <= p.x <= FOREST_X_END - radius
    ensures 2.0 * radius <= DESERT_Y_START - FROSTLANDS_Y_END ==>
              FROSTLANDS_Y_END + radius <= p.y <= DESERT_Y_START - radius
    ensures 0.0 < radius < FOREST_X_END ==> 0.0 < p.x < FOREST_X_END
  {
    var offsetX := (offsetXDraw - 0.5) * WALL_THICKNESS * 3.0;
    var offsetY := (offsetYDraw - 0.5) * WALL_THICKNESS * 3.0;
    Point(
      Max(0.0 + radius, Min(FOREST_X_END - radius, corner.x + offsetX)),
      Max(FROSTLANDS_Y_END + radius, Min(DESERT_Y_START - radius, corner.y + offsetY)))
  }

  /** For a wolf of positive radius narrower than the forest, every point `ForestTarget` gives
      lies strictly inside the forest's width, so it is none of the corners, and the
      "not the same corner twice" filter run against it removes nothing. */
  lemma TargetIsNoCorner(radius: real, corner: Point, offsetXDraw: real, offsetYDraw: real)
    requires 0.0 < radius < FOREST_X_END
    ensures ForestTarget(radius, corner, offsetXDraw, offsetYDraw) !in FOREST_CORNERS
    ensures WithoutPoint(FOREST_CORNERS, ForestTarget(radius, corner, offsetXDraw, offsetYDraw)) == FOREST_CORNERS
  {
    var p := ForestTarget(radius, corner, offsetXDraw, offsetYDraw);
    assert p !in FOREST_CORNERS by {
      forall k | 0 <= k < |FOREST_CORNERS|
        ensures FOREST_CORNERS[k] != p
      {
        assert FOREST_CORNERS[k].x == 0.0 || FOREST_CORNERS[k].x == FOREST_X_END;
      }
    }
    WithoutAbsentPoint(FOREST_CORNERS, p);
  }

  /** The forest wolf boss's roaming state. `lastCorner` is not a field of the game's wolf
      object: it is where the corrected pick remembers the corner it chose. */
  class Wolf {
    const id: string
    const radius: real
    var targetCorner: Option<Point>
    var lastCornerChangeTime: int
    var lastCorner: Option<Point>

    constructor (id: string, radius: real)
      ensures this.id == id && this.radius == radius
      ensures targetCorner == None && lastCornerChangeTime == 0 && lastCorner == None
    {
      this.id := id;
      this.radius := radius;
      targetCorner := None;
      lastCornerChangeTime := 0;
      lastCorner := None;
    }

    /** pickNewForestCornerTarget (utils.js:116-145) as written. The three `Math.random()` draws
        and `Date.now()` are parameters. Returns the corner aimed at. The filter compares the
        corners with the stored target, which is the clamped point and not the corner: for a
        wolf of positive radius narrower than the forest it matches no corner after the first
        pick, so the same corner can be chosen twice in a row. */
    method PickNewForestCornerTarget(pickDraw: real, offsetXDraw: real, offsetYDraw: real, now: int) returns (corner: Point)
      requires 0.0 <= pickDraw < 1.0 && 0.0 <= offsetXDraw < 1.0 && 0.0 <= offsetYDraw < 1.0
      modifies this`targetCorner, this`lastCornerChangeTime
      ensures corner in FOREST_CORNERS
      ensures old(targetCorner).Some? && old(targetCorner).value in FOREST_CORNERS ==> corner != old(targetCorner).value
      ensures targetCorner == Some(ForestTarget(radius, corner, offsetXDraw, offsetYDraw))
      ensures 0.0 < radius < FOREST_X_END ==> WithoutPoint(FOREST_CORNERS, targetCorner.value) == FOREST_CORNERS
      ensures lastCornerChangeTime == now
    {
      var available := FOREST_CORNERS;
      if targetCorner.Some? {
        available := WithoutPoint(FOREST_CORNERS, targetCorner.value);
        if |available| == 0 {
          available := FOREST_CORNERS;
        }
        assert FOREST_CORNERS[0] in FOREST_CORNERS && FOREST_CORNERS[1] in FOREST_CORNERS;
        assert FOREST_CORNERS[0] != FOREST_CORNERS[1];
      }
      corner := available[ScaledIndex(pickDraw, |available|)];
      assert corner in available;
      targetCorner := Some(ForestTarget(radius, corner, offsetXDraw, offsetYDraw));
      if 0.0 < radius < FOREST_X_END {
        TargetIsNoCorner(radius, corner, offsetXDraw, offsetYDraw);
      }
      lastCornerChangeTime := now;
    }

    /** The pick as the "avoid the same corner twice in a row" comment intends it: the filter
        runs against the corner chosen last time, which is remembered. */
    method PickNewForestCornerAvoidingRepeat(pickDraw: real, offsetXDraw: real, offsetYDraw: real, now: int) returns (corner: Point)
      requires 0.0 <= pickDraw < 1.0 && 0.0 <= offsetXDraw < 1.0 && 0.0 <= offsetYDraw < 1.0
      modifies this`targetCorner, this`lastCornerChangeTime, this`lastCorner
      ensures corner in FOREST_CORNERS
      ensures old(lastCorner).Some? ==> corner != old(lastCorner).value
      ensures lastCorner == Some(corner)
      ensures targetCorner == Some(ForestTarget(radius, corner, offsetXDraw, offsetYDraw))
      ensures lastCornerChangeTime == now
    {
      var available := FOREST_CORNERS;
      if lastCorner.Some? {
        available := WithoutPoint(FOREST_CORNERS, lastCorner.value);
        if lastCorner.value in FOREST_CORNERS {
          CornerFilterLeavesThree(lastCorner.value);
        } else {
          WithoutAbsentPoint(FOREST_CORNERS, lastCorner.value);
        }
      }
      corner := available[ScaledIndex(pickDraw, |available|)];
      assert corner in available;
      lastCorner := Some(corner);
      targetCorner := Some(ForestTarget(radius, corner, offsetXDraw, offsetYDraw));
      lastCornerChangeTime := now;
    }
  }
}
