/** The per-bar market-state classification of the CurrentMarketState
    indicator, as pure functions of the indicator's state before a bar
    closes and the bar series at that close. The class in indicator.dfy
    performs the same update step by step and is proved to agree with
    `Update`. */
module Classifier {
  import opened DecimalText

  /** One price bar. Prices are mathematical reals: the indicator only
      compares them and takes maxima and minima. */
  datatype Bar = Bar(high: real, low: real, close: real)

  /** The indicator's classification; its ordinal is the plotted value. */
  datatype MarketState = Ranging | UpTrend | DownTrend

  /** Which of the three status texts is drawn, with the values it shows
      (the two-decimal formatting of those values is not modelled). */
  datatype StatusText =
    | RangingText(high: real, low: real)
    | UpTrendText(higherLow: real)
    | DownTrendText(lowerHigh: real)

  /** An object on the chart. Line anchors are absolute bar numbers, i.e.
      the current bar number minus the "bars ago" offset given when drawing. */
  datatype DrawObject =
    | Line(startBar: int, startPrice: real, endBar: int, endPrice: real)
    | TextFixed(text: StatusText)

  /** Everything one update reads or writes: the four instance fields, the
      plot series (bar number to plotted value) and the chart's drawn
      objects keyed by their names. */
  datatype IndicatorState = IndicatorState(
    currentState: MarketState,
    rangeHigh: real,
    rangeLow: real,
    lastTrendExtreme: real,
    plot: map<nat, int>,
    drawn: map<string, DrawObject>)

  /** The plotted value of a state: the enum's ordinal. */
  function Ordinal(s: MarketState): (k: int)
    ensures 0 <= k <= 2
  {
    match s
    case Ranging => 0
    case UpTrend => 1
    case DownTrend => 2
  }

  lemma OrdinalInjective(a: MarketState, b: MarketState)
    requires Ordinal(a) == Ordinal(b)
    ensures a == b
  {
  }

  /** The status text selected for the given field values. */
  function GetMarketStateText(state: MarketState, rangeHigh: real, rangeLow: real,
                              lastTrendExtreme: real): (t: StatusText)
    ensures t.RangingText? <==> state == Ranging
    ensures t.UpTrendText? <==> state == UpTrend
    ensures t.DownTrendText? <==> state == DownTrend
  {
    match state
    case Ranging => RangingText(rangeHigh, rangeLow)
    case UpTrend => UpTrendText(lastTrendExtreme)
    case DownTrend => DownTrendText(lastTrendExtreme)
  }

  // ---------------------------------------------------------------------
  // Names of drawing objects

  const RangeHighName: string := "RangeHigh"
  const RangeLowName: string := "RangeLow"
  const StateTextName: string := "StateText"

  predicate IsTrend(d: MarketState) {
    d != Ranging
  }

  /** The name of the pivot line drawn at bar `i` bars ago in a trend:
      "LowerHigh"+i for DownTrend, "HigherLow"+i for UpTrend. */
  function PivotName(d: MarketState, i: nat): string
    requires IsTrend(d)
  {
    (if d == DownTrend then "LowerHigh" else "HigherLow") + NatToString(i)
  }

  function HigherHighName(i: nat): string {
    "HigherHigh" + NatToString(i)
  }

  function LowerLowName(i: nat): string {
    "LowerLow" + NatToString(i)
  }

  /** The trend names the cleanup removes for offsets 0..n-1; none of them
      is a range-line name or the status text's name. */
  function TrendCleanupNames(n: nat): (r: set<string>)
    ensures RangeHighName !in r && RangeLowName !in r && StateTextName !in r
  {
    assert forall j: nat :: j < n ==> HigherHighName(j)[0] == 'H' && LowerLowName(j)[0] == 'L';
    (set i: nat | i < n :: HigherHighName(i)) + (set i: nat | i < n :: LowerLowName(i))
  }

  /** Every name the cleanup before a classification removes; the status
      text is never among them. */
  function CleanupNames(n: nat): (c: set<string>)
    ensures StateTextName !in c
  {
    {RangeHighName, RangeLowName} + TrendCleanupNames(n)
  }

  // ---------------------------------------------------------------------
  // The ranging scan

  function Max(a: real, b: real): real {
    if a >= b then a else b
  }

  function Min(a: real, b: real): real {
    if a <= b then a else b
  }

  /** rangeHigh after scanning bars 0..n-1: the highest high among them. */
  function RangeHigh(bars: seq<Bar>, n: nat): (r: real)
    requires 1 <= n <= |bars|
    ensures forall j :: 0 <= j < n ==> bars[j].high <= r
  {
    if n == 1 then bars[0].high else Max(RangeHigh(bars, n - 1), bars[n - 1].high)
  }

  /** rangeLow after scanning bars 0..n-1: the lowest low among them. */
  function RangeLow(bars: seq<Bar>, n: nat): (r: real)
    requires 1 <= n <= |bars|
    ensures forall j :: 0 <= j < n ==> r <= bars[j].low
  {
    if n == 1 then bars[0].low else Min(RangeLow(bars, n - 1), bars[n - 1].low)
  }

  // ---------------------------------------------------------------------
  // The trend scan

  /** The price a trend tracks: the high in a DownTrend, the low in an UpTrend. */
  function Extremum(d: MarketState, b: Bar): real
    requires IsTrend(d)
  {
    if d == DownTrend then b.high else b.low
  }

  /** `x` is strictly more extreme than `e`: higher in a DownTrend, lower in an UpTrend. */
  predicate Beats(d: MarketState, x: real, e: real)
    requires IsTrend(d)
  {
    if d == DownTrend then x > e else x < e
  }

  /** Bar `i` closed above the bar before it (`Close[i] > Close[i + 1]`). */
  predicate IsReversal(bars: seq<Bar>, i: nat)
    requires i + 1 < |bars|
  {
    bars[i].close > bars[i + 1].close
  }

  /** The bars a scan can take its extreme from: bar 0, and every reversal bar. */
  predicate Eligible(bars: seq<Bar>, i: nat)
    requires i + 1 < |bars|
  {
    i == 0 || IsReversal(bars, i)
  }

  /** A pivot of a trend scan: a reversal bar whose tracked price is strictly
      more extreme than that of every eligible bar nearer to the current bar. */
  predicate IsRecord(bars: seq<Bar>, d: MarketState, i: nat)
    requires IsTrend(d) && i + 1 < |bars|
  {
    1 <= i && IsReversal(bars, i) &&
    forall j :: 0 <= j < i && Eligible(bars, j) ==> Beats(d, Extremum(d, bars[i]), Extremum(d, bars[j]))
  }

  datatype ScanResult = ScanResult(extreme: real, pivots: seq<nat>)

  /** The trend loop after it has handled offsets 1..k-1: the value of
      lastTrendExtreme and the offsets at which a pivot line was drawn, in
      drawing order. */
  function Scan(bars: seq<Bar>, d: MarketState, k: nat): (r: ScanResult)
    requires IsTrend(d) && 1 <= k < |bars|
    // pivots lie among the offsets 1..k-1 already scanned
    ensures forall a :: 0 <= a < |r.pivots| ==> 1 <= r.pivots[a] < k
    decreases k
  {
    if k == 1 then ScanResult(Extremum(d, bars[0]), [])
    else
      var prev := Scan(bars, d, k - 1);
      var i := k - 1;
      if Beats(d, Extremum(d, bars[i]), prev.extreme) && IsReversal(bars, i)
      then ScanResult(Extremum(d, bars[i]), prev.pivots + [i])
      else prev
  }

  /** The line drawn for the pivot at offset `i`, from that bar to the current one. */
  function PivotLine(bars: seq<Bar>, d: MarketState, i: nat): DrawObject
    requires IsTrend(d) && i < |bars|
  {
    Line(|bars| - 1 - i, Extremum(d, bars[i]), |bars| - 1, Extremum(d, bars[i]))
  }

  /** The chart after drawing the pivot lines of `ps`, in order; drawing
      never removes an object. */
  function AddLines(m: map<string, DrawObject>, bars: seq<Bar>, d: MarketState, ps: seq<nat>)
    : (r: map<string, DrawObject>)
    requires IsTrend(d) && forall a :: 0 <= a < |ps| ==> ps[a] < |bars|
    ensures m.Keys <= r.Keys
    decreases |ps|
  {
    if ps == [] then m
    else
      var last := ps[|ps| - 1];
      AddLines(m, bars, d, ps[..|ps| - 1])[PivotName(d, last) := PivotLine(bars, d, last)]
  }

  // ---------------------------------------------------------------------
  // One bar update

  /** The horizontal line from `n` bars ago to the current bar at `price`. */
  function RangeLine(bars: seq<Bar>, n: nat, price: real): DrawObject {
    Line(|bars| - 1 - n, price, |bars| - 1, price)
  }

  /** The direction of a trending bar; a rising close is labelled DownTrend. */
  function TrendDirection(bars: seq<Bar>): (d: MarketState)
    requires |bars| >= 2
    ensures IsTrend(d)
    ensures d == DownTrend <==> bars[0].close > bars[1].close
  {
    if bars[0].close > bars[1].close then DownTrend else UpTrend
  }

  /** Writing the plot value and the status text, common to both branches. */
  function Finish(s: IndicatorState, currentBar: nat): IndicatorState {
    var text := GetMarketStateText(s.currentState, s.rangeHigh, s.rangeLow, s.lastTrendExtreme);
    s.(plot := s.plot[currentBar := Ordinal(s.currentState)],
       drawn := s.drawn[StateTextName := TextFixed(text)])
  }

  /** One bar close: `bars[i]` is the bar `i` bars ago (so the current bar
      number is |bars| - 1), `n` the look-back period and `threshold` the
      value of ATR times the range threshold. */
  function Update(s: IndicatorState, n: nat, bars: seq<Bar>, threshold: real): (r: IndicatorState)
    requires n >= 1 && |bars| >= 1
    // a classifying update leaves a status text that shows its own new fields
    ensures |bars| - 1 >= n ==>
      && StateTextName in r.drawn
      && r.drawn[StateTextName] == TextFixed(GetMarketStateText(r.currentState, r.rangeHigh, r.rangeLow, r.lastTrendExtreme))
  {
    if |bars| - 1 < n then s
    else
      var cleaned := s.drawn - CleanupNames(n);
      if bars[0].high - bars[0].low <= threshold then
        var hi := RangeHigh(bars, n);
        var lo := RangeLow(bars, n);
        var lines := cleaned[RangeHighName := RangeLine(bars, n, hi)][RangeLowName := RangeLine(bars, n, lo)];
        Finish(s.(currentState := Ranging, rangeHigh := hi, rangeLow := lo, drawn := lines), |bars| - 1)
      else
        var d := TrendDirection(bars);
        var sc := Scan(bars, d, n);
        Finish(s.(currentState := d, lastTrendExtreme := sc.extreme,
                  drawn := AddLines(cleaned, bars, d, sc.pivots)), |bars| - 1)
  }
}
