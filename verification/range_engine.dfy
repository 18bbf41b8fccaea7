/** The gauge range engine shared by the realized and the forecast widgets:
    the five colour zones and the tick labels derived from a display range
    [minVal, maxVal], the five-level classification of a reading against that
    range, and the step that moves a bound for a reading outside it. */
module RangeEngine {
  import opened Numeric

  /** Number of tick labels the widgets ask for (the `numTicks = 11` default). */
  const DefaultNumTicks: nat := 11

  /** Fill colour of each of the five zones, green to red. */
  const ZoneColors: seq<string> := [
    "rgba(50, 200, 50, .75)",
    "rgba(120, 220, 120, .75)",
    "rgba(240, 210, 40, .75)",
    "rgba(255, 165, 0, .75)",
    "rgba(200, 50, 50, .75)"
  ]

  /** One highlighted band of the gauge dial. */
  datatype Zone = Zone(from: real, to: real, color: string)

  /** The k-th zone boundary, minVal + k * (maxVal - minVal) / 5. */
  function Boundary(minVal: real, maxVal: real, k: int): real {
    minVal + k as real * ((maxVal - minVal) / 5.0)
  }

  // ---------------------------------------------------------------- zones

  /** The five equal-width colour zones of the range: contiguous, the first
      starting at minVal and the last ending at maxVal. */
  function ColorZones(minVal: real, maxVal: real): (zones: seq<Zone>)
    ensures |zones| == 5
    ensures zones[0].from == minVal && zones[4].to == maxVal
    ensures forall i :: 0 <= i < 4 ==> zones[i].to == zones[i + 1].from
    ensures forall i :: 0 <= i < 5 ==> zones[i].to - zones[i].from == (maxVal - minVal) / 5.0
    ensures forall i :: 0 <= i < 5 ==> zones[i].color == ZoneColors[i]
  {
    var zoneSize := (maxVal - minVal) / 5.0;
    [
      Zone(minVal, minVal + zoneSize, ZoneColors[0]),
      Zone(minVal + zoneSize, minVal + zoneSize * 2.0, ZoneColors[1]),
      Zone(minVal + zoneSize * 2.0, minVal + zoneSize * 3.0, ZoneColors[2]),
      Zone(minVal + zoneSize * 3.0, minVal + zoneSize * 4.0, ZoneColors[3]),
      Zone(minVal + zoneSize * 4.0, maxVal, ZoneColors[4])
    ]
  }

  /** With minVal < maxVal every zone is a proper interval and the zones
      follow each other without overlapping. */
  lemma ZonesOrdered(minVal: real, maxVal: real)
    requires minVal < maxVal
    ensures var zones := ColorZones(minVal, maxVal);
      && (forall i :: 0 <= i < 5 ==> zones[i].from < zones[i].to)
      && (forall i, j :: 0 <= i < j < 5 ==> zones[i].to <= zones[j].from)
  {
  }

  /** Every point of [minVal, maxVal] lies in one of the five zones, so the
      zones cover the whole range. */
  lemma ZonesCoverRange(minVal: real, maxVal: real, v: real)
    requires minVal <= v <= maxVal
    ensures var zones := ColorZones(minVal, maxVal);
      exists i :: 0 <= i < 5 && zones[i].from <= v <= zones[i].to
  {
    var zones := ColorZones(minVal, maxVal);
    if v <= zones[0].to {
      assert zones[0].from <= v <= zones[0].to;
    } else if v <= zones[1].to {
      assert zones[1].from <= v <= zones[1].to;
    } else if v <= zones[2].to {
      assert zones[2].from <= v <= zones[2].to;
    } else if v <= zones[3].to {
      assert zones[3].from <= v <= zones[3].to;
    } else {
      assert zones[4].from <= v <= zones[4].to;
    }
  }

  // ---------------------------------------------------------- classification

  /** The five qualitative volatility levels, lowest first. */
  datatype Level = VeryLow | Low | Moderate | High | VeryHigh {
    /** Position of the level, 0 for VeryLow up to 4 for VeryHigh. */
    function Rank(): nat {
      match this
      case VeryLow => 0
      case Low => 1
      case Moderate => 2
      case High => 3
      case VeryHigh => 4
    }

    /** The sentence shown under the gauge. */
    function Sentence(): string {
      match this
      case VeryLow => "Volatility is Very Low"
      case Low => "Volatility is Low"
      case Moderate => "Volatility is Moderate"
      case High => "Volatility is High"
      case VeryHigh => "Volatility is Very High"
    }
  }

  /** The level of a reading: the first zone whose (inclusive) upper boundary
      admits it, VeryHigh when none of the first four does. */
  function Classify(volatility: real, minVal: real, maxVal: real): (level: Level)
    ensures level.Rank() == 4 || volatility <= Boundary(minVal, maxVal, level.Rank() + 1)
    ensures level.Rank() == 0 || Boundary(minVal, maxVal, level.Rank()) < volatility
  {
    var zoneSize := (maxVal - minVal) / 5.0;
    if volatility <= minVal + zoneSize then VeryLow
    else if volatility <= minVal + zoneSize * 2.0 then Low
    else if volatility <= minVal + zoneSize * 3.0 then Moderate
    else if volatility <= minVal + zoneSize * 4.0 then High
    else VeryHigh
  }

  /** The level names the zone the reading falls in: the reading is at most
      the zone's upper end (unless VeryHigh, which takes everything above) and
      above its lower end (unless VeryLow, which takes everything below). */
  lemma ClassifyMatchesZone(volatility: real, minVal: real, maxVal: real)
    ensures var r := Classify(volatility, minVal, maxVal).Rank();
      var zones := ColorZones(minVal, maxVal);
      && (r == 4 || volatility <= zones[r].to)
      && (r == 0 || zones[r].from < volatility)
  {
  }

  /** Over a non-empty range a higher reading never gets a lower level. */
  lemma ClassifyMonotone(v: real, w: real, minVal: real, maxVal: real)
    requires minVal <= maxVal && v <= w
    ensures Classify(v, minVal, maxVal).Rank() <= Classify(w, minVal, maxVal).Rank()
  {
  }

  /** Anything up to the first boundary, in particular anything below minVal,
      is VeryLow. */
  lemma AtOrBelowFirstBoundaryIsVeryLow(volatility: real, minVal: real, maxVal: real)
    requires minVal <= maxVal
    requires volatility <= Boundary(minVal, maxVal, 1) || volatility < minVal
    ensures Classify(volatility, minVal, maxVal) == VeryLow
  {
  }

  /** A reading exactly on an inner boundary gets the level below it. */
  lemma {:induction false} BoundaryTakesLowerLevel(k: int, minVal: real, maxVal: real)
    requires 1 <= k <= 4 && minVal < maxVal
    ensures Classify(Boundary(minVal, maxVal, k), minVal, maxVal).Rank() == k - 1
  {
    var s := (maxVal - minVal) / 5.0;
    assert 0.0 < s;
    var b := Boundary(minVal, maxVal, k);
    if k == 1 {
      assert b == minVal + s;
    } else if k == 2 {
      assert b == minVal + s * 2.0;
      assert minVal + s < b;
    } else if k == 3 {
      assert b == minVal + s * 3.0;
      assert minVal + s * 2.0 < b;
    } else {
      assert k == 4;
      assert b == minVal + s * 4.0;
      assert minVal + s * 3.0 < b;
    }
  }

  /** Over a non-empty range the top of the range, and anything above, is VeryHigh. */
  lemma AtOrAboveMaxIsVeryHigh(volatility: real, minVal: real, maxVal: real)
    requires minVal < maxVal <= volatility
    ensures Classify(volatility, minVal, maxVal) == VeryHigh
  {
  }

  // ---------------------------------------------------------------- ticks

  /** The distance between neighbouring ticks: the range divided into
      numTicks - 1 equal parts. */
  function TickStep(minVal: real, maxVal: real, numTicks: nat): real
    requires numTicks != 1
  {
    (maxVal - minVal) / (numTicks - 1) as real
  }

  /** The i-th tick label: minVal + i * step rounded half-up to one decimal. */
  function TickAt(minVal: real, maxVal: real, numTicks: nat, i: nat): real
    requires numTicks != 1
  {
    RoundTenth(TickPosition(minVal, maxVal, numTicks, i))
  }

  /** The exact position of the i-th tick, minVal + step * i. */
  function TickPosition(minVal: real, maxVal: real, numTicks: nat, i: nat): real
    requires numTicks != 1
  {
    minVal + TickStep(minVal, maxVal, numTicks) * i as real
  }

  /** All numTicks tick labels, in order. */
  function Ticks(minVal: real, maxVal: real, numTicks: nat): (ticks: seq<real>)
    requires numTicks != 1
    ensures |ticks| == numTicks
  {
    seq(numTicks, i requires 0 <= i => TickAt(minVal, maxVal, numTicks, i))
  }

  /** The tick labels as the widgets build them: one per index, pushed in order. */
  method GenerateMajorTicks(minVal: real, maxVal: real, numTicks: nat) returns (ticks: seq<real>)
    requires numTicks != 1
    ensures ticks == Ticks(minVal, maxVal, numTicks)
  {
    var step := (maxVal - minVal) / (numTicks - 1) as real;
    assert step == TickStep(minVal, maxVal, numTicks);
    ticks := [];
    for i := 0 to numTicks
      invariant |ticks| == i
      invariant forall j :: 0 <= j < i ==> ticks[j] == TickAt(minVal, maxVal, numTicks, j)
    {
      var value := minVal + step * i as real;
      TickAtUnfold(minVal, maxVal, numTicks, i, step);
      ticks := ticks + [RoundTenth(value)];
    }
  }

  /** Every tick label is within 0.05 of its exact, evenly spaced position. */
  lemma TicksNearExactPositions(minVal: real, maxVal: real, numTicks: nat)
    requires numTicks >= 2
    ensures var ticks := Ticks(minVal, maxVal, numTicks);
      var step := TickStep(minVal, maxVal, numTicks);
      forall i :: 0 <= i < numTicks ==>
        minVal + step * i as real - 0.05 < ticks[i] <= minVal + step * i as real + 0.05
    ensures var ticks := Ticks(minVal, maxVal, numTicks);
      forall i :: 0 <= i < numTicks ==> IsWhole(ticks[i] * 10.0)
  {
  }

  /** Over a non-empty range the tick labels never decrease. */
  lemma TicksNonDecreasing(minVal: real, maxVal: real, numTicks: nat)
    requires numTicks != 1 && minVal <= maxVal
    ensures var ticks := Ticks(minVal, maxVal, numTicks);
      forall i, j :: 0 <= i <= j < numTicks ==> ticks[i] <= ticks[j]
  {
    var ticks := Ticks(minVal, maxVal, numTicks);
    forall i, j | 0 <= i <= j < numTicks ensures ticks[i] <= ticks[j] {
      TickAtMonotone(minVal, maxVal, numTicks, i, j);
    }
  }

  /** One pair of labels at a time: a later index never has a smaller label. */
  lemma TickAtMonotone(minVal: real, maxVal: real, numTicks: nat, i: nat, j: nat)
    requires 2 <= numTicks && minVal <= maxVal && i <= j
    ensures TickAt(minVal, maxVal, numTicks, i) <= TickAt(minVal, maxVal, numTicks, j)
  {
    var step := TickStep(minVal, maxVal, numTicks);
    assert step >= 0.0;
    ScaleMonotone(step, i as real, j as real);
    TickAtUnfold(minVal, maxVal, numTicks, i, step);
    TickAtUnfold(minVal, maxVal, numTicks, j, step);
    RoundTenthMonotone(minVal + step * i as real, minVal + step * j as real);
  }

  /** A tick label in terms of a step computed once. */
  lemma TickAtUnfold(minVal: real, maxVal: real, numTicks: nat, i: nat, step: real)
    requires numTicks != 1 && step == TickStep(minVal, maxVal, numTicks)
    ensures TickAt(minVal, maxVal, numTicks, i) == RoundTenth(minVal + step * i as real)
  {
    assert TickPosition(minVal, maxVal, numTicks, i) == minVal + step * i as real;
  }

  /** Multiplying by a non-negative factor keeps order. */
  lemma ScaleMonotone(c: real, x: real, y: real)
    requires 0.0 <= c && x <= y
    ensures c * x <= c * y
  {
    assert c * y - c * x == c * (y - x);
  }

  /** For whole-number bounds the first label is minVal and the last is maxVal. */
  lemma TicksEndpoints(minVal: real, maxVal: real, numTicks: nat)
    requires numTicks >= 2 && IsWhole(minVal) && IsWhole(maxVal)
    ensures var ticks := Ticks(minVal, maxVal, numTicks);
      ticks[0] == minVal && ticks[numTicks - 1] == maxVal
  {
    var ticks := Ticks(minVal, maxVal, numTicks);
    assert ticks[0] == RoundTenth(TickPosition(minVal, maxVal, numTicks, 0));
    assert TickPosition(minVal, maxVal, numTicks, 0) == minVal;
    RoundTenthOfWhole(minVal);
    var last := numTicks - 1;
    assert ticks[last] == RoundTenth(TickPosition(minVal, maxVal, numTicks, last));
    StepSpansRange(minVal, maxVal, numTicks);
    assert TickPosition(minVal, maxVal, numTicks, last) == maxVal;
    RoundTenthOfWhole(maxVal);
  }

  /** numTicks - 1 steps take the first tick exactly to maxVal. */
  lemma StepSpansRange(minVal: real, maxVal: real, numTicks: nat)
    requires numTicks >= 2
    ensures TickStep(minVal, maxVal, numTicks) * (numTicks - 1) as real == maxVal - minVal
  {
  }

  // --------------------------------------------------------- range update

  /** The lower bound after a reading: `floor(v * 0.8)` when the reading is
      below the current lower bound, the bound itself otherwise. */
  function NextMin(minVal: real, volatility: real): (newMin: real)
    ensures volatility >= minVal ==> newMin == minVal
    ensures 0.0 <= volatility < minVal ==> newMin <= volatility < minVal
    ensures 0.0 < volatility < minVal ==> newMin < volatility
    ensures volatility < minVal ==> IsWhole(newMin)
  {
    if volatility < minVal then Floor(volatility * 0.8) as real else minVal
  }

  /** The upper bound after a reading: `ceil(v * 1.2)` when the reading is
      above the current upper bound, the bound itself otherwise. */
  function NextMax(maxVal: real, volatility: real): (newMax: real)
    ensures volatility <= maxVal ==> newMax == maxVal
    ensures 0.0 <= volatility && maxVal < volatility ==> maxVal < volatility <= newMax
    ensures 0.0 < volatility && maxVal < volatility ==> volatility < newMax
    ensures volatility > maxVal ==> IsWhole(newMax)
  {
    if volatility > maxVal then Ceil(volatility * 1.2) as real else maxVal
  }

  /** For a non-negative reading the range only grows and then holds the reading. */
  lemma WideningContainsReading(minVal: real, maxVal: real, volatility: real)
    requires 0.0 <= volatility
    ensures NextMin(minVal, volatility) <= minVal && maxVal <= NextMax(maxVal, volatility)
    ensures NextMin(minVal, volatility) <= volatility <= NextMax(maxVal, volatility)
  {
  }

  /** For a non-negative reading the bounds change exactly when the reading is
      outside [minVal, maxVal]. */
  lemma RangeChangesIffOutside(minVal: real, maxVal: real, volatility: real)
    requires 0.0 <= volatility
    ensures (NextMin(minVal, volatility) != minVal || NextMax(maxVal, volatility) != maxVal)
        <==> (volatility < minVal || volatility > maxVal)
  {
  }

  /** Over a non-empty range one reading moves at most one bound, whatever
      its sign. */
  lemma AtMostOneBoundMoves(minVal: real, maxVal: real, volatility: real)
    requires minVal <= maxVal
    ensures NextMin(minVal, volatility) == minVal || NextMax(maxVal, volatility) == maxVal
  {
  }

  /** Feeding the same reading again, of any sign, changes nothing more. */
  lemma RangeUpdateIdempotent(minVal: real, maxVal: real, volatility: real)
    ensures NextMin(NextMin(minVal, volatility), volatility) == NextMin(minVal, volatility)
    ensures NextMax(NextMax(maxVal, volatility), volatility) == NextMax(maxVal, volatility)
  {
  }

  /** The code does not reject negative readings, and for one at or below -5
      that is under the lower bound the new lower bound lands ABOVE the
      reading: the reading is left outside the updated range. */
  lemma NegativeReadingEscapesRange(minVal: real, volatility: real)
    requires volatility <= -5.0 && volatility < minVal
    ensures volatility < NextMin(minVal, volatility)
  {
    var f := Floor(volatility * 0.8);
    assert volatility * 0.8 - 1.0 < f as real;
    assert volatility <= volatility * 0.8 - 1.0;
  }

  /** A negative reading below the lower bound can also NARROW the range:
      when `v * 0.8` is at least a whole unit above the old lower bound, the
      new lower bound is above the old one (from -10, a reading of -11 gives
      -9). */
  lemma NegativeReadingCanNarrowRange(minVal: real, volatility: real)
    requires volatility < minVal && minVal + 1.0 <= volatility * 0.8
    ensures minVal < NextMin(minVal, volatility)
  {
  }
}
