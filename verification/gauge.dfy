/** The state one widget keeps about its gauge: the display bounds in the
    widget's configuration object, the range options handed to the gauge
    (bounds, tick labels, colour zones), the needle and the text panels. Both
    widgets keep exactly this state and update it the same way. */
module Widget {
  import opened Numeric
  import opened RangeEngine

  /** Bounds in the configuration object at page load. */
  const DefaultMin: real := 0.0
  const DefaultMax: real := 140.0

  const AwaitingData := "Awaiting data"
  const DataUnavailable := "Data unavailable"

  datatype Option<T> = None | Some(value: T)

  /** What one poll of the API yields: the selected metric's value, or a
      failure (network error, non-2xx status, a body that is not JSON or has
      no `metrics` object). */
  datatype Fetch = Failed | Fetched(volatility: real)

  class Gauge {
    // the configuration object's bounds
    var minValue: real
    var maxValue: real
    // the gauge's options
    var optionsMinValue: real
    var optionsMaxValue: real
    var majorTicks: seq<real>
    var highlights: seq<Zone>
    // the needle and the text panels
    var needle: real
    var shownValue: Option<real>
    var description: string

    /** The gauge shows exactly the configured range: same bounds, and tick
        labels and zones computed from those bounds. */
    ghost predicate Consistent()
      reads this
    {
      && optionsMinValue == minValue && optionsMaxValue == maxValue
      && majorTicks == Ticks(minValue, maxValue, DefaultNumTicks)
      && highlights == ColorZones(minValue, maxValue)
    }

    /** Every reachable state: consistent, whole-number bounds (they start
        whole and are only ever replaced by floor/ceil results), the lower
        bound never above 0 and the upper bound never below 140. */
    ghost predicate Valid()
      reads this
    {
      && Consistent()
      && IsWhole(minValue) && IsWhole(maxValue)
      && minValue <= DefaultMin && DefaultMax <= maxValue
    }

    /** The widget at page load: default bounds, needle at 0, no value shown. */
    constructor ()
      ensures Valid()
      ensures minValue == DefaultMin && maxValue == DefaultMax
      ensures needle == 0.0 && shownValue == None && description == AwaitingData
    {
      minValue, maxValue := DefaultMin, DefaultMax;
      optionsMinValue, optionsMaxValue := DefaultMin, DefaultMax;
      var ticks := GenerateMajorTicks(DefaultMin, DefaultMax, DefaultNumTicks);
      majorTicks := ticks;
      highlights := ColorZones(DefaultMin, DefaultMax);
      needle := 0.0;
      shownValue := None;
      description := AwaitingData;
      assert IsWhole(DefaultMin) && IsWhole(DefaultMax);
    }

    /** Store new bounds in the configuration and in the gauge options and
        regenerate the tick labels and zones from them. */
    method UpdateRange(minVal: real, maxVal: real)
      modifies this
      ensures minValue == minVal && maxValue == maxVal
      ensures Consistent()
      ensures needle == old(needle) && shownValue == old(shownValue)
      ensures description == old(description)
    {
      minValue := minVal;
      maxValue := maxVal;
      optionsMinValue := minVal;
      optionsMaxValue := maxVal;
      var ticks := GenerateMajorTicks(minVal, maxVal, DefaultNumTicks);
      majorTicks := ticks;
      highlights := ColorZones(minVal, maxVal);
    }

    /** One poll: on a failure the bounds, ticks and zones stay as they were,
        the needle drops to 0 and "Data unavailable" is shown; on a reading
        the bounds are updated if the reading is outside them, the needle
        moves to the reading and the description classifies it against the
        bounds now in force. */
    method FetchVolatility(fetch: Fetch) returns (rangeUpdated: bool)
      requires Valid()
      modifies this
      ensures Valid()
      ensures fetch.Failed? ==>
        && !rangeUpdated
        && minValue == old(minValue) && maxValue == old(maxValue)
        && majorTicks == old(majorTicks) && highlights == old(highlights)
        && needle == 0.0 && shownValue == None && description == DataUnavailable
      ensures fetch.Fetched? ==>
        var v := fetch.volatility;
        && rangeUpdated == (v < old(minValue) || v > old(maxValue))
        && minValue == NextMin(old(minValue), v) && maxValue == NextMax(old(maxValue), v)
        && needle == v && shownValue == Some(v)
        && description == Classify(v, minValue, maxValue).Sentence()
      ensures fetch.Fetched? && fetch.volatility >= 0.0 ==>
        && minValue <= old(minValue) && old(maxValue) <= maxValue
        && minValue <= fetch.volatility <= maxValue
    {
      match fetch
      case Failed =>
        rangeUpdated := false;
        needle := 0.0;
        shownValue := None;
        description := DataUnavailable;
      case Fetched(volatility) =>
        var currentMin, currentMax := minValue, maxValue;
        var newMin, newMax := currentMin, currentMax;
        rangeUpdated := false;
        if volatility < currentMin {
          newMin := Floor(volatility * 0.8) as real;
          rangeUpdated := true;
        }
        if volatility > currentMax {
          newMax := Ceil(volatility * 1.2) as real;
          rangeUpdated := true;
        }
        if rangeUpdated {
          UpdateRange(newMin, newMax);
        }
        needle := volatility;
        shownValue := Some(volatility);
        description := Classify(volatility, newMin, newMax).Sentence();
        if volatility >= 0.0 {
          WideningContainsReading(currentMin, currentMax, volatility);
        }
    }
  }

  /** Examples: from [0, 140] a reading of 200 widens the range to [0, 240]
      and is VeryHigh; a reading of 30 is Low; unvalidated negative readings
      can leave the needle below the range and can narrow it. */
  method DefaultRangeExamples()
  {
    var g := new Gauge();
    var updated := g.FetchVolatility(Fetched(200.0));
    assert Ceil(240.0) == 240;
    assert updated && g.minValue == 0.0 && g.maxValue == 240.0;
    assert g.description == "Volatility is Very High";
    var h := new Gauge();
    updated := h.FetchVolatility(Fetched(30.0));
    assert !updated && h.description == "Volatility is Low";
    updated := h.FetchVolatility(Failed);
    assert h.minValue == 0.0 && h.maxValue == 140.0 && h.needle == 0.0;
    // a negative reading is not rejected: from [0, 140], -5 gives [-4, 140]
    updated := h.FetchVolatility(Fetched(-5.0));
    assert Floor(-4.0) == -4;
    assert updated && h.minValue == -4.0 && h.maxValue == 140.0;
    assert h.needle < h.minValue;
    // -12 then -11: the lower bound goes to -10 and then back up to -9
    updated := h.FetchVolatility(Fetched(-12.0));
    assert Floor(-9.6) == -10;
    assert h.minValue == -10.0;
    updated := h.FetchVolatility(Fetched(-11.0));
    assert Floor(-8.8) == -9;
    assert updated && h.minValue == -9.0 && h.maxValue == 140.0;
  }

  /** In every reachable state the dial is well formed: a non-empty range,
      eleven non-decreasing tick labels from exactly minValue to exactly
      maxValue, and five zones that cover the range in order. */
  lemma ValidGaugeShowsItsRange(g: Gauge)
    requires g.Valid()
    ensures g.minValue < g.maxValue
    ensures |g.majorTicks| == DefaultNumTicks
    ensures g.majorTicks[0] == g.minValue && g.majorTicks[DefaultNumTicks - 1] == g.maxValue
    ensures forall i, j :: 0 <= i <= j < |g.majorTicks| ==> g.majorTicks[i] <= g.majorTicks[j]
    ensures |g.highlights| == 5 && g.highlights[0].from == g.minValue && g.highlights[4].to == g.maxValue
    ensures forall i, j :: 0 <= i < j < 5 ==> g.highlights[i].from < g.highlights[i].to <= g.highlights[j].from
  {
    TicksEndpoints(g.minValue, g.maxValue, DefaultNumTicks);
    TicksNonDecreasing(g.minValue, g.maxValue, DefaultNumTicks);
    ZonesOrdered(g.minValue, g.maxValue);
  }
}
