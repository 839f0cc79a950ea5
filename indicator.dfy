/** The CurrentMarketState indicator object: its instance fields, the plot
    series it writes and the chart objects it draws, updated in place on
    every bar close. Each method is proved to produce exactly the state the
    functions of module Classifier describe. */
module Indicators {
  import opened Classifier

  class CurrentMarketState {
    /** The configured look-back window, at least 1. */
    const lookbackPeriod: nat
    /** The configured fraction of ATR below which a bar counts as ranging. */
    const rangeThreshold: real

    var currentState: MarketState
    var rangeHigh: real
    var rangeLow: real
    var lastTrendExtreme: real
    /** The plot series: bar number to plotted value. */
    var plot: map<nat, int>
    /** The chart's objects drawn by this indicator, by name. */
    var drawn: map<string, DrawObject>

    function State(): IndicatorState
      reads this
    {
      IndicatorState(currentState, rangeHigh, rangeLow, lastTrendExtreme, plot, drawn)
    }

    /** A fresh indicator: Ranging, numeric fields zero, nothing plotted or drawn. */
    constructor (lookbackPeriod: nat, rangeThreshold: real)
      requires lookbackPeriod >= 1
      ensures this.lookbackPeriod == lookbackPeriod && this.rangeThreshold == rangeThreshold
      ensures State() == IndicatorState(Ranging, 0.0, 0.0, 0.0, map[], map[])
    {
      this.lookbackPeriod := lookbackPeriod;
      this.rangeThreshold := rangeThreshold;
      currentState := Ranging;
      rangeHigh, rangeLow, lastTrendExtreme := 0.0, 0.0, 0.0;
      plot := map[];
      drawn := map[];
    }

    /** Removing a drawing object by name; a missing name is ignored. */
    method RemoveDrawObject(name: string)
      modifies this`drawn
      ensures drawn == old(drawn) - {name}
    {
      drawn := drawn - {name};
    }

    /** Removes the range lines and "HigherHigh"+i, "LowerLow"+i for every
        offset of the look-back window. */
    method RemoveDrawObjects()
      modifies this`drawn
      ensures drawn == old(drawn) - CleanupNames(lookbackPeriod)
    {
      RemoveDrawObject(RangeHighName);
      RemoveDrawObject(RangeLowName);
      for i := 0 to lookbackPeriod
        invariant drawn == old(drawn) - ({RangeHighName, RangeLowName} + TrendCleanupNames(i))
      {
        TrendCleanupNamesStep(i);
        RemoveDrawObject(HigherHighName(i));
        RemoveDrawObject(LowerLowName(i));
      }
    }

    /** One bar close. `bars[i]` is the bar `i` bars ago, so the current bar
        number is |bars| - 1; `atr` is the current 14-bar average true range. */
    method OnBarUpdate(bars: seq<Bar>, atr: real)
      requires lookbackPeriod >= 1 && |bars| >= 1
      modifies this
      ensures State() == Update(old(State()), lookbackPeriod, bars, atr * rangeThreshold)
    {
      var currentBar := |bars| - 1;
      if currentBar < lookbackPeriod {
        return;
      }
      var rangeSize := bars[0].high - bars[0].low;

      RemoveDrawObjects();

      if rangeSize <= atr * rangeThreshold {
        MarkRange(bars);
      } else if bars[0].close > bars[1].close {
        MarkLowerHighs(bars);
      } else {
        MarkHigherLows(bars);
      }

      plot := plot[currentBar := Ordinal(currentState)];
      drawn := drawn[StateTextName := TextFixed(GetMarketStateText(currentState, rangeHigh, rangeLow, lastTrendExtreme))];
    }

    /** The ranging branch: a running maximum of the highs and minimum of the
        lows over the look-back window, then the two range lines. */
    method MarkRange(bars: seq<Bar>)
      requires 1 <= lookbackPeriod < |bars|
      modifies this`currentState, this`rangeHigh, this`rangeLow, this`drawn
      ensures currentState == Ranging
      ensures rangeHigh == RangeHigh(bars, lookbackPeriod) && rangeLow == RangeLow(bars, lookbackPeriod)
      ensures drawn == old(drawn)[RangeHighName := RangeLine(bars, lookbackPeriod, rangeHigh)]
                                 [RangeLowName := RangeLine(bars, lookbackPeriod, rangeLow)]
    {
      var currentBar := |bars| - 1;
      currentState := Ranging;
      rangeHigh := bars[0].high;
      rangeLow := bars[0].low;
      for i := 1 to lookbackPeriod
        invariant currentState == Ranging && drawn == old(drawn)
        invariant rangeHigh == RangeHigh(bars, i) && rangeLow == RangeLow(bars, i)
      {
        rangeHigh := Max(rangeHigh, bars[i].high);
        rangeLow := Min(rangeLow, bars[i].low);
      }
      drawn := drawn[RangeHighName := Line(currentBar - lookbackPeriod, rangeHigh, currentBar, rangeHigh)];
      drawn := drawn[RangeLowName := Line(currentBar - lookbackPeriod, rangeLow, currentBar, rangeLow)];
    }

    /** The DownTrend branch: a running maximum of the highs that draws a
        "LowerHigh"+i line at every reversal bar that raises it. */
    method MarkLowerHighs(bars: seq<Bar>)
      requires 1 <= lookbackPeriod < |bars|
      modifies this`currentState, this`lastTrendExtreme, this`drawn
      ensures currentState == DownTrend
      ensures lastTrendExtreme == Scan(bars, DownTrend, lookbackPeriod).extreme
      ensures drawn == AddLines(old(drawn), bars, DownTrend, Scan(bars, DownTrend, lookbackPeriod).pivots)
    {
      currentState := DownTrend;
      lastTrendExtreme := bars[0].high;
      for i := 1 to lookbackPeriod
        invariant currentState == DownTrend
        invariant TrendScanned(old(drawn), bars, DownTrend, i, lastTrendExtreme, drawn)
      {
        TrendStep(old(drawn), bars, DownTrend, i, lastTrendExtreme, drawn);
        if bars[i].high > lastTrendExtreme && bars[i].close > bars[i + 1].close {
          drawn := drawn[PivotName(DownTrend, i) := PivotLine(bars, DownTrend, i)];
          lastTrendExtreme := bars[i].high;
        }
      }
    }

    /** The UpTrend branch: a running minimum of the lows that draws a
        "HigherLow"+i line at every reversal bar that lowers it. */
    method MarkHigherLows(bars: seq<Bar>)
      requires 1 <= lookbackPeriod < |bars|
      modifies this`currentState, this`lastTrendExtreme, this`drawn
      ensures currentState == UpTrend
      ensures lastTrendExtreme == Scan(bars, UpTrend, lookbackPeriod).extreme
      ensures drawn == AddLines(old(drawn), bars, UpTrend, Scan(bars, UpTrend, lookbackPeriod).pivots)
    {
      currentState := UpTrend;
      lastTrendExtreme := bars[0].low;
      for i := 1 to lookbackPeriod
        invariant currentState == UpTrend
        invariant TrendScanned(old(drawn), bars, UpTrend, i, lastTrendExtreme, drawn)
      {
        TrendStep(old(drawn), bars, UpTrend, i, lastTrendExtreme, drawn);
        if bars[i].low < lastTrendExtreme && bars[i].close > bars[i + 1].close {
          drawn := drawn[PivotName(UpTrend, i) := PivotLine(bars, UpTrend, i)];
          lastTrendExtreme := bars[i].low;
        }
      }
    }
  }

  /** The trend cleanup names grow by the two names of each new offset. */
  lemma TrendCleanupNamesStep(i: nat)
    ensures TrendCleanupNames(i + 1) == TrendCleanupNames(i) + {HigherHighName(i), LowerLowName(i)}
  {
  }

  /** The invariant of a trend loop after offsets 1..i-1: the tracked
      extreme and the chart are those of the scan so far. */
  ghost predicate TrendScanned(base: map<string, DrawObject>, bars: seq<Bar>, d: MarketState, i: nat,
                               extreme: real, drawn: map<string, DrawObject>)
  {
    IsTrend(d) && 1 <= i < |bars| &&
    extreme == Scan(bars, d, i).extreme && drawn == AddLines(base, bars, d, Scan(bars, d, i).pivots)
  }

  /** One iteration of a trend loop keeps its invariant: the bar at offset
      i becomes a pivot, with its line drawn on top of the earlier ones,
      exactly when it beats the extreme so far and is a reversal bar. */
  lemma TrendStep(base: map<string, DrawObject>, bars: seq<Bar>, d: MarketState, i: nat,
                  extreme: real, drawn: map<string, DrawObject>)
    requires i + 1 < |bars| && TrendScanned(base, bars, d, i, extreme, drawn)
    ensures if Beats(d, Extremum(d, bars[i]), extreme) && bars[i].close > bars[i + 1].close
            then TrendScanned(base, bars, d, i + 1, Extremum(d, bars[i]), drawn[PivotName(d, i) := PivotLine(bars, d, i)])
            else TrendScanned(base, bars, d, i + 1, extreme, drawn)
  {
    var ps := Scan(bars, d, i).pivots;
    assert (ps + [i])[..|ps|] == ps;
  }
}
