# CurrentMarketState — a verified model of the per-bar market-state classifier

`CurrentMarketState` is a NinjaTrader chart indicator. It runs on every bar close and
does the following:

- It stays idle until at least `LookbackPeriod + 1` bars exist.
- It removes its range lines, plus a fixed set of trend-line names.
- It classifies the current bar. The bar is **Ranging** when its height is at most
  `ATR(14) * RangeThreshold`. Otherwise it is trending. A rising close
  (`Close[0] > Close[1]`) is labelled **DownTrend**; anything else is **UpTrend**.
- When Ranging, it scans the look-back window for the highest high and the lowest low
  and draws the two range lines.
- When trending, it scans the window for pivots. A pivot is a bar that strictly
  improves the running extreme and is also a reversal (`Close[i] > Close[i+1]`).
  Each pivot gets a named horizontal line: `"LowerHigh"+i` in a DownTrend,
  `"HigherLow"+i` in an UpTrend.
- It plots the state's ordinal and draws a status text.

The model has four modules:

- `DecimalText` (`decimal_text.dfy`): the decimal text an `int` gets when appended to a
  string, which is how the drawing-object names are built. Proved injective.
- `Classifier` (`classifier.dfy`): the entities as datatypes and one bar update as the
  pure function `Update`. The entities are bars, the `MarketState` enum, the status
  text variants, chart objects and the indicator's state. `Update` is built from the
  range scan (`RangeHigh`, `RangeLow`), the trend scan (`Scan`) and the name builders.
- `ClassifierProperties` (`properties.dfy`): what an update guarantees, as lemmas
  about `Update` and the scans.
- `Indicators` (`indicator.dfy`): the class `CurrentMarketState`. Its fields are the
  indicator's instance fields, the plot series and the chart's drawn objects.
  `OnBarUpdate` updates them in place through the loops `RemoveDrawObjects`,
  `MarkRange`, `MarkLowerHighs` and `MarkHigherLows`. `OnBarUpdate` is proved to produce
  exactly the state that `Update` describes. Each loop is proved to produce exactly its
  own step: the cleanup for `RemoveDrawObjects`, a branch of `Update` for the others.

How the host's data is represented:

- **Bars** are a sequence indexed backward: `bars[i]` is the bar `i` bars ago, so
  `CurrentBar` is `|bars| - 1`.
- **Prices** are mathematical reals.
- **The chart** is a map from object name to object. Drawing with an existing name
  replaces the object; `RemoveDrawObject` deletes the name. A line's anchors are
  stored as absolute bar numbers (`CurrentBar - barsAgo`).
- **The plot** is a map from bar number to plotted value.

Two properties of the code are kept as written and proved:

- **Names the cleanup misses.** The cleanup removes `"HigherHigh"+i` and
  `"LowerLow"+i`, but the update only ever draws `"LowerHigh"+i` and `"HigherLow"+i`.
  So pivot lines are never cleaned up and accumulate across bar closes. See
  `TrendCleanupNamesNeverDrawn`, `PivotLineSurvives` and `PivotLinesAccumulate`.
- **Inverted direction labels.** A rising close is labelled DownTrend, and the
  DownTrend branch tracks a running maximum of highs.

The code treats `currentState`, `rangeHigh`, `rangeLow` and `lastTrendExtreme` as
instance fields that persist between bars. A trending update leaves `rangeHigh` and
`rangeLow` as they were, and an idle update changes nothing. Although every value
could be recomputed from the window, the model keeps these fields across bars, as
the code does.

## Model

| member | source | states |
|---|---|---|
| Classifier.Ordinal | CurrentMarketState.cs:15-20 | the plotted value of a state is its enum ordinal, in the range 0..2 |
| Classifier.OrdinalInjective | CurrentMarketState.cs:115 | different states plot different values |
| Classifier.GetMarketStateText | CurrentMarketState.cs:121-133 | the ranging text is chosen exactly for Ranging, the "Up Trend: HL" text exactly for UpTrend, the "Down Trend: LH" text exactly for DownTrend |
| DecimalText.NatToString | CurrentMarketState.cs:93 | the decimal text of an offset is non-empty, all digits, and a single character exactly for offsets below 10 |
| DecimalText.NatToStringInjective | CurrentMarketState.cs:107 | different offsets have different decimal texts, so `"LowerHigh"+i` and `"HigherLow"+i` name one line per offset |
| Classifier.Scan | CurrentMarketState.cs:84-111 | after handling offsets 1..k-1 of a trend loop, every offset where a pivot line was drawn lies in 1..k-1 |
| Classifier.RangeHigh | CurrentMarketState.cs:68-75 | rangeHigh after the running-max loop over bars 0..n-1 is at least every `High[j]` in the window |
| Classifier.RangeLow | CurrentMarketState.cs:69-75 | rangeLow after the running-min loop over bars 0..n-1 is at most every `Low[j]` in the window |
| ClassifierProperties.RangeHighIsMax | CurrentMarketState.cs:73 | rangeHigh after the loop equals `High[j]` for some j < LookbackPeriod, so together with RangeHigh's bound it is the window's maximum |
| ClassifierProperties.RangeLowIsMin | CurrentMarketState.cs:74 | rangeLow after the loop equals `Low[j]` for some j < LookbackPeriod, so together with RangeLow's bound it is the window's minimum |
| ClassifierProperties.ScanPivotsAreReversals | CurrentMarketState.cs:90 | every pivot bar closed above the bar before it |
| ClassifierProperties.ScanExtremeIsLastPivot | CurrentMarketState.cs:87-95 | after the scan, lastTrendExtreme is the tracked price of the last pivot, or of bar 0 when no pivot was drawn |
| ClassifierProperties.ScanPivotsIncreasing | CurrentMarketState.cs:88-95 | pivots are drawn at strictly increasing offsets; each pivot's price strictly beats every earlier pivot's price; the first one strictly beats bar 0 |
| ClassifierProperties.ScanExtremeIsMostExtreme | CurrentMarketState.cs:87-110 | lastTrendExtreme is the most extreme tracked price among bar 0 and the reversal bars scanned: none beats it, and one of them equals it |
| ClassifierProperties.ScanStep | CurrentMarketState.cs:94 | one iteration never moves the tracked extreme back |
| ClassifierProperties.ScanExtremeMonotone | CurrentMarketState.cs:87-110 | in a DownTrend the extreme starts at `High[0]` and never decreases; in an UpTrend it starts at `Low[0]` and never increases |
| ClassifierProperties.BeatsExtremeIffBeatsAll | CurrentMarketState.cs:90 | a price beats the extreme so far exactly when it beats every eligible bar seen so far |
| ClassifierProperties.ScanPivotsBelow | CurrentMarketState.cs:88 | every pivot offset lies in 1..k-1 |
| ClassifierProperties.ScanPivotAtStep | CurrentMarketState.cs:90-95 | offset k-1 becomes a pivot exactly when it is a record: a reversal bar beating bar 0 and every reversal bar before it |
| ClassifierProperties.ScanPivotKept | CurrentMarketState.cs:88-96 | an iteration never adds or removes a pivot at any other offset |
| ClassifierProperties.ScanPivotIff | CurrentMarketState.cs:88-110 | an offset gets a pivot line exactly when it lies in the window and is a record bar |
| ClassifierProperties.PivotNameInjective | CurrentMarketState.cs:93 | two pivot names of one trend are equal only for the same offset |
| Classifier.TrendCleanupNames | CurrentMarketState.cs:140-144 | the `"HigherHigh"+i` and `"LowerLow"+i` names the cleanup loop removes for i < LookbackPeriod; none of them is `"RangeHigh"`, `"RangeLow"` or `"StateText"` |
| Classifier.CleanupNames | CurrentMarketState.cs:136-145 | every name the cleanup removes; `"StateText"` is never among them, so the status text is only ever replaced |
| Classifier.TrendDirection | CurrentMarketState.cs:84 | a trending bar's direction is a trend state; it is DownTrend exactly when `Close[0] > Close[1]` |
| Classifier.AddLines | CurrentMarketState.cs:88-110 | the chart after the `Draw.Line` calls of a trend loop, in drawing order; drawing never removes an object |
| ClassifierProperties.PivotNameNotCleaned | CurrentMarketState.cs:136-145 | no `"LowerHigh"+i` or `"HigherLow"+i` name is in the cleanup set, and none equals `"StateText"` |
| ClassifierProperties.AddLinesKeys | CurrentMarketState.cs:93 | drawing the pivot lines adds exactly their names to the chart |
| ClassifierProperties.AddLinesAt | CurrentMarketState.cs:93 | after drawing, each pivot's name holds that pivot's line, from its bar to the current bar at its price |
| ClassifierProperties.AddLinesOther | CurrentMarketState.cs:107 | drawing pivot lines leaves every other name as it was |
| ClassifierProperties.AddLinesAlreadyDrawn | CurrentMarketState.cs:107 | redrawing lines that are already on the chart changes nothing |
| Classifier.Update | CurrentMarketState.cs:52-119 | one bar close as a function of the old state; after a classifying update the `"StateText"` object shows exactly the selected text for the new state and its new fields |
| ClassifierProperties.UpdateIdle | CurrentMarketState.cs:54-55 | while CurrentBar < LookbackPeriod, the state, fields, plot and chart are all unchanged |
| ClassifierProperties.UpdateClassifies | CurrentMarketState.cs:52-119 | Ranging exactly when the bar height is at most the threshold (ties go to Ranging); DownTrend exactly when trending with `Close[0] > Close[1]`; UpTrend exactly when trending otherwise, equal closes included; the plot gains the ordinal at the current bar and nothing else |
| ClassifierProperties.UpdateRanging | CurrentMarketState.cs:64-79 | a ranging update sets rangeHigh and rangeLow to the window's maximum high and minimum low, keeps lastTrendExtreme, draws both range lines over LookbackPeriod bars and the ranging text, and leaves every other surviving object unchanged |
| ClassifierProperties.DrawnPivotNamesOfScan | CurrentMarketState.cs:88-110 | the names the trend loop draws are exactly the pivot names of the record bars in the window |
| ClassifierProperties.UpdateTrend | CurrentMarketState.cs:81-112 | a trending update keeps rangeHigh and rangeLow; lastTrendExtreme is the most extreme eligible price; the chart's names are the survivors of the cleanup plus `"StateText"` plus the record bars' pivot names; each record bar gets its line; the text matches the direction; every other surviving object keeps its value |
| ClassifierProperties.UpdateTrendKeepsOthers | CurrentMarketState.cs:88-110 | a trending update leaves every object that survives the cleanup and is neither the status text nor a newly drawn pivot line as it was |
| ClassifierProperties.UpdateTrendLookbackOne | CurrentMarketState.cs:88 | with LookbackPeriod 1, a trending update draws no pivot line and the extreme is bar 0's own price |
| ClassifierProperties.RangeLinesIffRanging | CurrentMarketState.cs:61-79 | after a classifying update, `"RangeHigh"` and `"RangeLow"` are on the chart exactly when the state is Ranging |
| ClassifierProperties.TrendCleanupNamesNeverDrawn | CurrentMarketState.cs:140-144 | a `"HigherHigh"+i` or `"LowerLow"+i` name is present after an update only if it was present before and the update was idle; the update never draws one |
| ClassifierProperties.PivotLineSurvives | CurrentMarketState.cs:61 | a pivot line on the chart is still there after any update; it keeps its old value unless this update redraws the same trend's record at the same offset |
| ClassifierProperties.PivotLinesAccumulate | CurrentMarketState.cs:52-119 | once a pivot name is on the chart, it stays there through any sequence of later bar closes |
| ClassifierProperties.UpdateIdempotent | CurrentMarketState.cs:52-119 | handling the same bar close twice gives the same state as handling it once |
| ClassifierProperties.RangingIdempotent | CurrentMarketState.cs:64-80 | a second ranging update on the same bars changes nothing |
| ClassifierProperties.RedrawNoop | CurrentMarketState.cs:93 | cleaning up and then redrawing the same pivot lines over a chart that already holds them changes nothing |
| ClassifierProperties.TrendRedrawNoop | CurrentMarketState.cs:107 | redrawing a trending update's pivot lines over its own result changes nothing |
| ClassifierProperties.TrendIdempotent | CurrentMarketState.cs:81-112 | a second trending update on the same bars changes nothing |
| Indicators.CurrentMarketState.constructor | CurrentMarketState.cs:22-25 | a new indicator starts Ranging with rangeHigh, rangeLow and lastTrendExtreme zero, and nothing plotted or drawn |
| Indicators.CurrentMarketState.RemoveDrawObject | CurrentMarketState.cs:138 | removing a name deletes it from the chart; a missing name is ignored |
| Indicators.CurrentMarketState.RemoveDrawObjects | CurrentMarketState.cs:136-145 | the loop removes exactly `"RangeHigh"`, `"RangeLow"`, and `"HigherHigh"+i` and `"LowerLow"+i` for i < LookbackPeriod |
| Indicators.CurrentMarketState.OnBarUpdate | CurrentMarketState.cs:52-119 | the new fields, plot and chart are exactly `Update` of the old ones, with threshold `atr * RangeThreshold` |
| Indicators.CurrentMarketState.MarkRange | CurrentMarketState.cs:64-79 | the running max and min loop leaves rangeHigh and rangeLow at RangeHigh and RangeLow of the window, and draws the two range lines |
| Indicators.CurrentMarketState.MarkLowerHighs | CurrentMarketState.cs:84-96 | the DownTrend loop leaves lastTrendExtreme at the scan's extreme and the chart with exactly the scan's `"LowerHigh"+i` lines drawn in order |
| Indicators.CurrentMarketState.MarkHigherLows | CurrentMarketState.cs:98-111 | the UpTrend loop leaves lastTrendExtreme at the scan's extreme and the chart with exactly the scan's `"HigherLow"+i` lines drawn in order |
| Indicators.TrendCleanupNamesStep | CurrentMarketState.cs:140-144 | each cleanup iteration adds exactly the two names of its offset to those removed |
| Indicators.TrendStep | CurrentMarketState.cs:88-96 | one trend-loop iteration draws a pivot line and moves the extreme exactly when the bar beats the extreme and is a reversal; otherwise it changes nothing |

## Left out

- `OnStateChange` is not modelled. It holds host lifecycle, default values and plot setup, with no logic.
- `ATR(14)` is a library indicator. `OnBarUpdate` takes its current value as the parameter `atr`.
- Drawing arguments are not modelled: colours, dash style, width and text position.
- The `"N2"` formatting of the status text is not modelled. `StatusText` records which text variant is chosen and the values it shows.
- The status text's `"Unknown State"` default is not modelled: the enum has only three values, so that case cannot be reached.
- The property attributes are not modelled. `LookbackPeriod >= 1` is a precondition of the constructor and of `OnBarUpdate`. The `Range(0.1, 1.0)` bound on `RangeThreshold` is not needed by any property, so it is not imposed.
- The generated caching and factory code is not modelled; it is platform boilerplate.
- `previousLowerHigh` and `previousHigherLow` are not modelled: they are never read or written after initialisation.
- Prices are mathematical reals, not IEEE doubles. The indicator only compares prices and takes maxima and minima, so NaN and rounding are not represented.
- The bar series and the chart's object collection belong to the host. They appear as the `bars` parameter and the `drawn` field; the host's own rendering is not modelled.
