/** What one bar update of the CurrentMarketState indicator guarantees,
    proved about the functions of module Classifier. */
module ClassifierProperties {
  import opened DecimalText
  import opened Classifier

  // ---------------------------------------------------------------------
  // The ranging scan

  /** rangeHigh is the highest high of bars 0..n-1: no high exceeds it
      (the contract of RangeHigh) and one of them equals it. */
  lemma {:induction false} RangeHighIsMax(bars: seq<Bar>, n: nat)
    requires 1 <= n <= |bars|
    ensures exists j :: 0 <= j < n && bars[j].high == RangeHigh(bars, n)
  {
    assert bars[0].high == RangeHigh(bars, 1);
    if n > 1 {
      RangeHighIsMax(bars, n - 1);
      var w :| 0 <= w < n - 1 && bars[w].high == RangeHigh(bars, n - 1);
      var v := if RangeHigh(bars, n) == bars[w].high then w else n - 1;
      assert 0 <= v < n && bars[v].high == RangeHigh(bars, n);
    }
  }

  /** rangeLow is the lowest low of bars 0..n-1: no low is below it
      (the contract of RangeLow) and one of them equals it. */
  lemma {:induction false} RangeLowIsMin(bars: seq<Bar>, n: nat)
    requires 1 <= n <= |bars|
    ensures exists j :: 0 <= j < n && bars[j].low == RangeLow(bars, n)
  {
    assert bars[0].low == RangeLow(bars, 1);
    if n > 1 {
      RangeLowIsMin(bars, n - 1);
      var w :| 0 <= w < n - 1 && bars[w].low == RangeLow(bars, n - 1);
      var v := if RangeLow(bars, n) == bars[w].low then w else n - 1;
      assert 0 <= v < n && bars[v].low == RangeLow(bars, n);
    }
  }

  // ---------------------------------------------------------------------
  // The trend scan

  /** Every pivot is a reversal bar. */
  lemma {:induction false} ScanPivotsAreReversals(bars: seq<Bar>, d: MarketState, k: nat)
    requires IsTrend(d) && 1 <= k < |bars|
    ensures forall a :: 0 <= a < |Scan(bars, d, k).pivots| ==> IsReversal(bars, Scan(bars, d, k).pivots[a])
  {
    if k > 1 {
      ScanPivotsAreReversals(bars, d, k - 1);
      var prev := Scan(bars, d, k - 1);
      if Beats(d, Extremum(d, bars[k - 1]), prev.extreme) && IsReversal(bars, k - 1) {
        var ps := prev.pivots + [k - 1];
        assert Scan(bars, d, k).pivots == ps;
        forall a | 0 <= a < |ps|
          ensures IsReversal(bars, ps[a])
        {
          if a < |prev.pivots| {
            assert ps[a] == prev.pivots[a];
          }
        }
      }
    }
  }

  /** The tracked extreme is the price of the last pivot, or of bar 0 while
      there is none. */
  lemma {:induction false} ScanExtremeIsLastPivot(bars: seq<Bar>, d: MarketState, k: nat)
    requires IsTrend(d) && 1 <= k < |bars|
    ensures var r := Scan(bars, d, k);
      r.extreme == Extremum(d, bars[if r.pivots == [] then 0 else r.pivots[|r.pivots| - 1]])
  {
    if k > 1 {
      ScanExtremeIsLastPivot(bars, d, k - 1);
    }
  }

  /** Pivots are drawn at strictly increasing offsets, each strictly more
      extreme than every earlier one, and the first more extreme than bar 0. */
  lemma {:induction false} ScanPivotsIncreasing(bars: seq<Bar>, d: MarketState, k: nat)
    requires IsTrend(d) && 1 <= k < |bars|
    ensures var r := Scan(bars, d, k);
      && (forall a, b :: 0 <= a < b < |r.pivots| ==>
            r.pivots[a] < r.pivots[b] && Beats(d, Extremum(d, bars[r.pivots[b]]), Extremum(d, bars[r.pivots[a]])))
      && (r.pivots != [] ==> Beats(d, Extremum(d, bars[r.pivots[0]]), Extremum(d, bars[0])))
  {
    if k > 1 {
      ScanPivotsIncreasing(bars, d, k - 1);
      ScanExtremeIsLastPivot(bars, d, k - 1);
    }
  }

  /** The tracked extreme is at least as extreme as bar 0 and every
      reversal bar among offsets 1..k-1, and it is the price of one of them:
      it is the most extreme price among the eligible bars. */
  lemma {:induction false} ScanExtremeIsMostExtreme(bars: seq<Bar>, d: MarketState, k: nat)
    requires IsTrend(d) && 1 <= k < |bars|
    ensures forall j :: 0 <= j < k && Eligible(bars, j) ==> !Beats(d, Extremum(d, bars[j]), Scan(bars, d, k).extreme)
    ensures exists j :: 0 <= j < k && Eligible(bars, j) && Extremum(d, bars[j]) == Scan(bars, d, k).extreme
  {
    var r := Scan(bars, d, k);
    ScanPivotsAreReversals(bars, d, k);
    ScanExtremeIsLastPivot(bars, d, k);
    var w := if r.pivots == [] then 0 else r.pivots[|r.pivots| - 1];
    assert Eligible(bars, w) && Extremum(d, bars[w]) == r.extreme;
    if k > 1 {
      ScanExtremeIsMostExtreme(bars, d, k - 1);
    }
  }

  /** One step of the scan keeps or improves the tracked extreme. */
  lemma ScanStep(bars: seq<Bar>, d: MarketState, k: nat)
    requires IsTrend(d) && 2 <= k < |bars|
    ensures !Beats(d, Scan(bars, d, k - 1).extreme, Scan(bars, d, k).extreme)
  {
  }

  /** The tracked extreme never moves back: in a DownTrend it never
      decreases, in an UpTrend it never increases. */
  lemma {:induction false} ScanExtremeMonotone(bars: seq<Bar>, d: MarketState, k1: nat, k2: nat)
    requires IsTrend(d) && 1 <= k1 <= k2 < |bars|
    ensures !Beats(d, Scan(bars, d, k1).extreme, Scan(bars, d, k2).extreme)
    ensures d == DownTrend ==> bars[0].high <= Scan(bars, d, k1).extreme <= Scan(bars, d, k2).extreme
    ensures d == UpTrend ==> bars[0].low >= Scan(bars, d, k1).extreme >= Scan(bars, d, k2).extreme
    decreases k2
  {
    if k1 < k2 {
      ScanExtremeMonotone(bars, d, k1, k2 - 1);
      ScanStep(bars, d, k2);
    }
    ScanExtremeIsMostExtreme(bars, d, k1);
    assert Eligible(bars, 0);
  }

  /** Beating the extreme tracked so far is the same as beating every
      eligible bar seen so far. */
  lemma BeatsExtremeIffBeatsAll(bars: seq<Bar>, d: MarketState, k: nat, x: real)
    requires IsTrend(d) && 1 <= k < |bars|
    ensures Beats(d, x, Scan(bars, d, k).extreme)
        <==> forall j :: 0 <= j < k && Eligible(bars, j) ==> Beats(d, x, Extremum(d, bars[j]))
  {
    var e := Scan(bars, d, k).extreme;
    ScanExtremeIsMostExtreme(bars, d, k);
    var w :| 0 <= w < k && Eligible(bars, w) && Extremum(d, bars[w]) == e;
    if Beats(d, x, e) {
      forall j | 0 <= j < k && Eligible(bars, j)
        ensures Beats(d, x, Extremum(d, bars[j]))
      {
        assert !Beats(d, Extremum(d, bars[j]), e);
      }
    }
  }

  /** Pivots lie among the offsets already scanned. */
  lemma ScanPivotsBelow(bars: seq<Bar>, d: MarketState, k: nat, i: nat)
    requires IsTrend(d) && 1 <= k < |bars| && i in Scan(bars, d, k).pivots
    ensures 1 <= i < k
  {
    var ps := Scan(bars, d, k).pivots;
    var a :| 0 <= a < |ps| && ps[a] == i;
  }

  /** The step that handles offset k - 1 draws a pivot there exactly when
      bar k - 1 is a record. */
  lemma ScanPivotAtStep(bars: seq<Bar>, d: MarketState, k: nat)
    requires IsTrend(d) && 2 <= k < |bars|
    ensures k - 1 in Scan(bars, d, k).pivots <==> IsRecord(bars, d, k - 1)
  {
    var prev := Scan(bars, d, k - 1);
    if k - 1 in prev.pivots {
      ScanPivotsBelow(bars, d, k - 1, k - 1);
    }
    BeatsExtremeIffBeatsAll(bars, d, k - 1, Extremum(d, bars[k - 1]));
  }

  /** Later steps neither add nor remove a pivot at an earlier offset. */
  lemma ScanPivotKept(bars: seq<Bar>, d: MarketState, k: nat, i: nat)
    requires IsTrend(d) && 2 <= k < |bars| && i != k - 1
    ensures i in Scan(bars, d, k).pivots <==> i in Scan(bars, d, k - 1).pivots
  {
  }

  /** A pivot line is drawn at offset i exactly when bar i is a record: a
      reversal bar strictly more extreme than bar 0 and every reversal bar
      nearer to the current bar. */
  lemma {:induction false} ScanPivotIff(bars: seq<Bar>, d: MarketState, k: nat, i: nat)
    requires IsTrend(d) && 1 <= k < |bars|
    ensures i in Scan(bars, d, k).pivots <==> i < k && IsRecord(bars, d, i)
  {
    if i in Scan(bars, d, k).pivots {
      ScanPivotsBelow(bars, d, k, i);
    }
    if k > 1 && i < k {
      if i == k - 1 {
        ScanPivotAtStep(bars, d, k);
      } else {
        ScanPivotKept(bars, d, k, i);
        ScanPivotIff(bars, d, k - 1, i);
      }
    }
  }

  // ---------------------------------------------------------------------
  // Names

  /** Distinct offsets give distinct pivot names. */
  lemma PivotNameInjective(d: MarketState, i: nat, j: nat)
    requires IsTrend(d) && PivotName(d, i) == PivotName(d, j)
    ensures i == j
  {
    var prefix := if d == DownTrend then "LowerHigh" else "HigherLow";
    assert NatToString(i) == PivotName(d, i)[|prefix|..];
    assert NatToString(j) == PivotName(d, j)[|prefix|..];
    NatToStringInjective(i, j);
  }

  /** No pivot name is one the cleanup removes, nor the status text's name. */
  lemma PivotNameNotCleaned(d: MarketState, i: nat, n: nat)
    requires IsTrend(d)
    ensures PivotName(d, i) !in CleanupNames(n)
    ensures PivotName(d, i) != StateTextName
  {
    var x := PivotName(d, i);
    assert x[0] != RangeHighName[0] && x[0] != RangeLowName[0] && x[0] != StateTextName[0];
    forall j: nat | j < n
      ensures x != HigherHighName(j) && x != LowerLowName(j)
    {
      if d == DownTrend {
        assert x[0] != HigherHighName(j)[0];
        assert x[5] != LowerLowName(j)[5];
      } else {
        assert x[6] != HigherHighName(j)[6];
        assert x[0] != LowerLowName(j)[0];
      }
    }
  }

  // ---------------------------------------------------------------------
  // Drawing pivot lines

  /** Drawing the lines of `ps` adds exactly their names to the chart. */
  lemma {:induction false} AddLinesKeys(m: map<string, DrawObject>, bars: seq<Bar>, d: MarketState, ps: seq<nat>)
    requires IsTrend(d) && forall a :: 0 <= a < |ps| ==> ps[a] < |bars|
    ensures AddLines(m, bars, d, ps).Keys == m.Keys + (set p | p in ps :: PivotName(d, p))
    decreases |ps|
  {
    if ps != [] {
      var init := ps[..|ps| - 1];
      AddLinesKeys(m, bars, d, init);
      assert ps == init + [ps[|ps| - 1]];
      assert (set p | p in ps :: PivotName(d, p))
          == (set p | p in init :: PivotName(d, p)) + {PivotName(d, ps[|ps| - 1])};
    }
  }

  /** After drawing, the object under a pivot's name is that pivot's line. */
  lemma {:induction false} AddLinesAt(m: map<string, DrawObject>, bars: seq<Bar>, d: MarketState, ps: seq<nat>, p: nat)
    requires IsTrend(d) && forall a :: 0 <= a < |ps| ==> ps[a] < |bars|
    requires p in ps
    ensures PivotName(d, p) in AddLines(m, bars, d, ps)
    ensures AddLines(m, bars, d, ps)[PivotName(d, p)] == PivotLine(bars, d, p)
    decreases |ps|
  {
    var last := ps[|ps| - 1];
    var init := ps[..|ps| - 1];
    assert ps == init + [last];
    if PivotName(d, p) == PivotName(d, last) {
      PivotNameInjective(d, p, last);
    } else {
      AddLinesAt(m, bars, d, init, p);
    }
  }

  /** Drawing pivot lines leaves every other name as it was. */
  lemma {:induction false} AddLinesOther(m: map<string, DrawObject>, bars: seq<Bar>, d: MarketState, ps: seq<nat>, x: string)
    requires IsTrend(d) && forall a :: 0 <= a < |ps| ==> ps[a] < |bars|
    requires forall p :: p in ps ==> x != PivotName(d, p)
    ensures x in AddLines(m, bars, d, ps) <==> x in m
    ensures x in m ==> AddLines(m, bars, d, ps)[x] == m[x]
    decreases |ps|
  {
    if ps != [] {
      AddLinesOther(m, bars, d, ps[..|ps| - 1], x);
    }
  }

  /** Drawing lines that are already on the chart changes nothing. */
  lemma {:induction false} AddLinesAlreadyDrawn(m: map<string, DrawObject>, bars: seq<Bar>, d: MarketState, ps: seq<nat>)
    requires IsTrend(d) && forall a :: 0 <= a < |ps| ==> ps[a] < |bars|
    requires forall p :: p in ps ==> PivotName(d, p) in m && m[PivotName(d, p)] == PivotLine(bars, d, p)
    ensures AddLines(m, bars, d, ps) == m
    decreases |ps|
  {
    if ps != [] {
      AddLinesAlreadyDrawn(m, bars, d, ps[..|ps| - 1]);
    }
  }

  // ---------------------------------------------------------------------
  // One bar update

  /** Before LookbackPeriod bars have passed the update does nothing at all. */
  lemma UpdateIdle(s: IndicatorState, n: nat, bars: seq<Bar>, threshold: real)
    requires n >= 1 && |bars| >= 1 && |bars| - 1 < n
    ensures Update(s, n, bars, threshold) == s
  {
  }

  /** Once enough bars exist, the state is Ranging exactly when the current
      bar's height is at most the threshold (ties go to Ranging); otherwise a
      rising close gives DownTrend and a flat or falling close UpTrend. The
      plot gets the state's ordinal at the current bar and nowhere else. */
  lemma UpdateClassifies(s: IndicatorState, n: nat, bars: seq<Bar>, threshold: real)
    requires n >= 1 && |bars| - 1 >= n
    ensures var r := Update(s, n, bars, threshold);
      && (r.currentState == Ranging <==> bars[0].high - bars[0].low <= threshold)
      && (r.currentState == DownTrend <==> bars[0].high - bars[0].low > threshold && bars[0].close > bars[1].close)
      && (r.currentState == UpTrend <==> bars[0].high - bars[0].low > threshold && bars[0].close <= bars[1].close)
      && r.plot == s.plot[|bars| - 1 := Ordinal(r.currentState)]
      && r.plot[|bars| - 1] == (if r.currentState == Ranging then 0 else if r.currentState == UpTrend then 1 else 2)
  {
  }

  /** A ranging update sets rangeHigh to the highest high and rangeLow to
      the lowest low of bars 0..n-1, keeps lastTrendExtreme, draws both
      range lines and the ranging text, and leaves the chart otherwise as the
      cleanup left it. */
  lemma UpdateRanging(s: IndicatorState, n: nat, bars: seq<Bar>, threshold: real)
    requires n >= 1 && |bars| - 1 >= n && bars[0].high - bars[0].low <= threshold
    ensures var r := Update(s, n, bars, threshold);
      && (forall j :: 0 <= j < n ==> bars[j].high <= r.rangeHigh)
      && (exists j :: 0 <= j < n && bars[j].high == r.rangeHigh)
      && (forall j :: 0 <= j < n ==> r.rangeLow <= bars[j].low)
      && (exists j :: 0 <= j < n && bars[j].low == r.rangeLow)
      && r.lastTrendExtreme == s.lastTrendExtreme
      && r.drawn.Keys == (s.drawn.Keys - CleanupNames(n)) + {RangeHighName, RangeLowName, StateTextName}
      && r.drawn[RangeHighName] == Line(|bars| - 1 - n, r.rangeHigh, |bars| - 1, r.rangeHigh)
      && r.drawn[RangeLowName] == Line(|bars| - 1 - n, r.rangeLow, |bars| - 1, r.rangeLow)
      && r.drawn[StateTextName] == TextFixed(RangingText(r.rangeHigh, r.rangeLow))
      && (forall x :: x in s.drawn && x !in CleanupNames(n) && x != StateTextName ==> r.drawn[x] == s.drawn[x])
  {
    RangeHighIsMax(bars, n);
    RangeLowIsMin(bars, n);
  }

  /** The names of the pivot lines one trending update draws. */
  function DrawnPivotNames(bars: seq<Bar>, d: MarketState, n: nat): set<string>
    requires IsTrend(d) && n < |bars|
  {
    set i: nat | i < n && IsRecord(bars, d, i) :: PivotName(d, i)
  }

  lemma DrawnPivotNamesOfScan(bars: seq<Bar>, d: MarketState, n: nat)
    requires IsTrend(d) && 1 <= n < |bars|
    ensures DrawnPivotNames(bars, d, n) == (set p | p in Scan(bars, d, n).pivots :: PivotName(d, p))
  {
    var ps := Scan(bars, d, n).pivots;
    forall x | x in DrawnPivotNames(bars, d, n)
      ensures x in (set p | p in ps :: PivotName(d, p))
    {
      var i: nat :| i < n && IsRecord(bars, d, i) && x == PivotName(d, i);
      ScanPivotIff(bars, d, n, i);
    }
    forall x | x in (set p | p in ps :: PivotName(d, p))
      ensures x in DrawnPivotNames(bars, d, n)
    {
      var p :| p in ps && x == PivotName(d, p);
      ScanPivotIff(bars, d, n, p);
    }
  }

  /** A trending update keeps rangeHigh and rangeLow, sets lastTrendExtreme
      to the most extreme tracked price among bar 0 and the reversal bars of
      the window, draws a line exactly at every record bar, and the text. */
  lemma UpdateTrend(s: IndicatorState, n: nat, bars: seq<Bar>, threshold: real)
    requires n >= 1 && |bars| - 1 >= n && bars[0].high - bars[0].low > threshold
    ensures var r := Update(s, n, bars, threshold);
      var d := r.currentState;
      && IsTrend(d)
      && r.rangeHigh == s.rangeHigh && r.rangeLow == s.rangeLow
      && (forall j :: 0 <= j < n && Eligible(bars, j) ==> !Beats(d, Extremum(d, bars[j]), r.lastTrendExtreme))
      && (exists j :: 0 <= j < n && Eligible(bars, j) && Extremum(d, bars[j]) == r.lastTrendExtreme)
      && r.drawn.Keys == (s.drawn.Keys - CleanupNames(n)) + {StateTextName} + DrawnPivotNames(bars, d, n)
      && (forall i: nat :: i < n && IsRecord(bars, d, i) ==>
            PivotName(d, i) in r.drawn && r.drawn[PivotName(d, i)] == PivotLine(bars, d, i))
      && r.drawn[StateTextName] == TextFixed(if d == DownTrend then DownTrendText(r.lastTrendExtreme)
                                             else UpTrendText(r.lastTrendExtreme))
      && (forall x :: x in s.drawn && x !in CleanupNames(n) && x != StateTextName && x !in DrawnPivotNames(bars, d, n)
            ==> r.drawn[x] == s.drawn[x])
  {
    var d := TrendDirection(bars);
    var sc := Scan(bars, d, n);
    var cleaned := s.drawn - CleanupNames(n);
    ScanExtremeIsMostExtreme(bars, d, n);
    AddLinesKeys(cleaned, bars, d, sc.pivots);
    DrawnPivotNamesOfScan(bars, d, n);
    forall i: nat | i < n && IsRecord(bars, d, i)
      ensures PivotName(d, i) in AddLines(cleaned, bars, d, sc.pivots)
      ensures AddLines(cleaned, bars, d, sc.pivots)[PivotName(d, i)] == PivotLine(bars, d, i)
    {
      ScanPivotIff(bars, d, n, i);
      AddLinesAt(cleaned, bars, d, sc.pivots, i);
    }
    UpdateTrendKeepsOthers(s, n, bars, threshold);
  }

  /** A trending update leaves every object that survives the cleanup and
      is neither the status text nor a newly drawn pivot line as it was. */
  lemma UpdateTrendKeepsOthers(s: IndicatorState, n: nat, bars: seq<Bar>, threshold: real)
    requires n >= 1 && |bars| - 1 >= n && bars[0].high - bars[0].low > threshold
    ensures var r := Update(s, n, bars, threshold);
      var d := TrendDirection(bars);
      forall x :: x in s.drawn && x !in CleanupNames(n) && x != StateTextName && x !in DrawnPivotNames(bars, d, n)
        ==> r.drawn[x] == s.drawn[x]
  {
    var d := TrendDirection(bars);
    var sc := Scan(bars, d, n);
    var cleaned := s.drawn - CleanupNames(n);
    DrawnPivotNamesOfScan(bars, d, n);
    forall x | x in s.drawn && x !in CleanupNames(n) && x != StateTextName && x !in DrawnPivotNames(bars, d, n)
      ensures Update(s, n, bars, threshold).drawn[x] == s.drawn[x]
    {
      forall p | p in sc.pivots
        ensures x != PivotName(d, p)
      {
      }
      AddLinesOther(cleaned, bars, d, sc.pivots, x);
      TrendUnfold(s, n, bars, threshold);
    }
  }

  /** With a look-back period of 1 a trending update draws no pivot line and
      the tracked extreme is bar 0's own price. */
  lemma UpdateTrendLookbackOne(s: IndicatorState, bars: seq<Bar>, threshold: real)
    requires |bars| >= 2 && bars[0].high - bars[0].low > threshold
    ensures var r := Update(s, 1, bars, threshold);
      && r.lastTrendExtreme == Extremum(r.currentState, bars[0])
      && r.drawn.Keys == (s.drawn.Keys - CleanupNames(1)) + {StateTextName}
  {
    UpdateTrend(s, 1, bars, threshold);
    assert DrawnPivotNames(bars, TrendDirection(bars), 1) == {};
  }

  // ---------------------------------------------------------------------
  // The cleanup and the names actually drawn

  /** The range lines are on the chart after a classifying update exactly
      when that update was Ranging. */
  lemma RangeLinesIffRanging(s: IndicatorState, n: nat, bars: seq<Bar>, threshold: real)
    requires n >= 1 && |bars| - 1 >= n
    ensures var r := Update(s, n, bars, threshold);
      && (RangeHighName in r.drawn <==> r.currentState == Ranging)
      && (RangeLowName in r.drawn <==> r.currentState == Ranging)
  {
    if bars[0].high - bars[0].low > threshold {
      var d := TrendDirection(bars);
      UpdateTrend(s, n, bars, threshold);
      forall i: nat | i < n && IsRecord(bars, d, i)
        ensures PivotName(d, i) != RangeHighName && PivotName(d, i) != RangeLowName
      {
        PivotNameNotCleaned(d, i, n);
      }
    }
  }

  /** The cleanup removes "HigherHigh"+i and "LowerLow"+i, but no update
      ever draws such a name: one is present afterwards only if it was
      present before and the update was idle. */
  lemma TrendCleanupNamesNeverDrawn(s: IndicatorState, n: nat, bars: seq<Bar>, threshold: real, x: string)
    requires n >= 1 && |bars| >= 1
    requires x in TrendCleanupNames(n)
    ensures x in Update(s, n, bars, threshold).drawn <==> x in s.drawn && |bars| - 1 < n
  {
    if |bars| - 1 >= n && bars[0].high - bars[0].low > threshold {
      var d := TrendDirection(bars);
      UpdateTrend(s, n, bars, threshold);
      forall i: nat | i < n && IsRecord(bars, d, i)
        ensures PivotName(d, i) != x
      {
        PivotNameNotCleaned(d, i, n);
      }
    }
  }

  /** A pivot line on the chart survives every update: the cleanup never
      removes it, and it keeps its old anchor and price unless this very
      update redraws a pivot of the same trend at the same offset. */
  lemma PivotLineSurvives(s: IndicatorState, n: nat, bars: seq<Bar>, threshold: real, d: MarketState, i: nat)
    requires n >= 1 && |bars| >= 1 && IsTrend(d)
    requires PivotName(d, i) in s.drawn
    ensures var r := Update(s, n, bars, threshold);
      && PivotName(d, i) in r.drawn
      && (r.drawn[PivotName(d, i)] == s.drawn[PivotName(d, i)]
          || (|bars| - 1 >= n && r.currentState == d && i < n && IsRecord(bars, d, i)
              && r.drawn[PivotName(d, i)] == PivotLine(bars, d, i)))
  {
    var x := PivotName(d, i);
    PivotNameNotCleaned(d, i, n);
    if |bars| - 1 >= n && bars[0].high - bars[0].low > threshold {
      var e := TrendDirection(bars);
      var sc := Scan(bars, e, n);
      var cleaned := s.drawn - CleanupNames(n);
      if p :| p in sc.pivots && x == PivotName(e, p) {
        assert e == d by {
          assert x[0] == PivotName(e, p)[0];
        }
        PivotNameInjective(d, i, p);
        ScanPivotIff(bars, e, n, p);
        AddLinesAt(cleaned, bars, e, sc.pivots, p);
      } else {
        AddLinesOther(cleaned, bars, e, sc.pivots, x);
      }
    }
  }

  /** A sequence of bar closes, each with its bar series and threshold. */
  datatype BarClose = BarClose(bars: seq<Bar>, threshold: real)

  predicate WellFormedCloses(closes: seq<BarClose>) {
    forall c :: 0 <= c < |closes| ==> |closes[c].bars| >= 1
  }

  /** The indicator's state after handling `closes` in order. */
  function Run(s: IndicatorState, n: nat, closes: seq<BarClose>): IndicatorState
    requires n >= 1 && WellFormedCloses(closes)
    decreases |closes|
  {
    if closes == [] then s
    else Run(Update(s, n, closes[0].bars, closes[0].threshold), n, closes[1..])
  }

  /** Pivot lines accumulate: once a pivot name is on the chart it stays
      there through any number of later bar closes. */
  lemma {:induction false} PivotLinesAccumulate(s: IndicatorState, n: nat, closes: seq<BarClose>, d: MarketState, i: nat)
    requires n >= 1 && WellFormedCloses(closes) && IsTrend(d)
    requires PivotName(d, i) in s.drawn
    ensures PivotName(d, i) in Run(s, n, closes).drawn
    decreases |closes|
  {
    if closes != [] {
      PivotLineSurvives(s, n, closes[0].bars, closes[0].threshold, d, i);
      PivotLinesAccumulate(Update(s, n, closes[0].bars, closes[0].threshold), n, closes[1..], d, i);
    }
  }

  /** Handling the same bar close twice gives the same state as handling it
      once. */
  lemma UpdateIdempotent(s: IndicatorState, n: nat, bars: seq<Bar>, threshold: real)
    requires n >= 1 && |bars| >= 1
    ensures Update(Update(s, n, bars, threshold), n, bars, threshold) == Update(s, n, bars, threshold)
  {
    if |bars| - 1 >= n {
      if bars[0].high - bars[0].low <= threshold {
        RangingIdempotent(s, n, bars, threshold);
      } else {
        TrendIdempotent(s, n, bars, threshold);
      }
    }
  }

  lemma RangingIdempotent(s: IndicatorState, n: nat, bars: seq<Bar>, threshold: real)
    requires n >= 1 && |bars| - 1 >= n && bars[0].high - bars[0].low <= threshold
    ensures Update(Update(s, n, bars, threshold), n, bars, threshold) == Update(s, n, bars, threshold)
  {
    var r := Update(s, n, bars, threshold);
    var r2 := Update(r, n, bars, threshold);
    var cleaned := s.drawn - CleanupNames(n);
    assert r.drawn - CleanupNames(n) == cleaned[StateTextName := r.drawn[StateTextName]];
    assert r2.drawn == r.drawn;
  }

  lemma TrendUnfold(t: IndicatorState, n: nat, bars: seq<Bar>, threshold: real)
    requires n >= 1 && |bars| - 1 >= n && bars[0].high - bars[0].low > threshold
    ensures var d := TrendDirection(bars);
      var sc := Scan(bars, d, n);
      Update(t, n, bars, threshold)
        == Finish(t.(currentState := d, lastTrendExtreme := sc.extreme,
                     drawn := AddLines(t.drawn - CleanupNames(n), bars, d, sc.pivots)), |bars| - 1)
  {
  }

  /** Redrawing the pivot lines over a chart on which they and the status
      text were just drawn, after a cleanup, changes nothing. */
  lemma RedrawNoop(m: map<string, DrawObject>, bars: seq<Bar>, d: MarketState, ps: seq<nat>, n: nat, t: DrawObject)
    requires IsTrend(d) && forall a :: 0 <= a < |ps| ==> ps[a] < |bars|
    requires forall x :: x in m ==> x !in CleanupNames(n)
    ensures var D := AddLines(m, bars, d, ps)[StateTextName := t];
      AddLines(D - CleanupNames(n), bars, d, ps) == D
  {
    var D := AddLines(m, bars, d, ps)[StateTextName := t];
    AddLinesKeys(m, bars, d, ps);
    forall p | p in ps
      ensures PivotName(d, p) !in CleanupNames(n) && PivotName(d, p) != StateTextName
      ensures PivotName(d, p) in D && D[PivotName(d, p)] == PivotLine(bars, d, p)
    {
      PivotNameNotCleaned(d, p, n);
      AddLinesAt(m, bars, d, ps, p);
    }
    assert D - CleanupNames(n) == D;
    AddLinesAlreadyDrawn(D, bars, d, ps);
  }

  /** Redrawing the pivot lines of a trending update over its own result changes nothing. */
  lemma TrendRedrawNoop(s: IndicatorState, n: nat, bars: seq<Bar>, threshold: real)
    requires n >= 1 && |bars| - 1 >= n && bars[0].high - bars[0].low > threshold
    ensures var r := Update(s, n, bars, threshold);
      var d := TrendDirection(bars);
      AddLines(r.drawn - CleanupNames(n), bars, d, Scan(bars, d, n).pivots) == r.drawn
  {
    var r := Update(s, n, bars, threshold);
    var d := TrendDirection(bars);
    var sc := Scan(bars, d, n);
    var text := GetMarketStateText(r.currentState, r.rangeHigh, r.rangeLow, r.lastTrendExtreme);
    RedrawNoop(s.drawn - CleanupNames(n), bars, d, sc.pivots, n, TextFixed(text));
  }

  lemma TrendIdempotent(s: IndicatorState, n: nat, bars: seq<Bar>, threshold: real)
    requires n >= 1 && |bars| - 1 >= n && bars[0].high - bars[0].low > threshold
    ensures Update(Update(s, n, bars, threshold), n, bars, threshold) == Update(s, n, bars, threshold)
  {
    var r := Update(s, n, bars, threshold);
    TrendRedrawNoop(s, n, bars, threshold);
    TrendUnfold(r, n, bars, threshold);
    var d := TrendDirection(bars);
    var sc := Scan(bars, d, n);
    var cb := |bars| - 1;
    var mid := r.(currentState := d, lastTrendExtreme := sc.extreme, drawn := AddLines(r.drawn - CleanupNames(n), bars, d, sc.pivots));
    assert mid == r;
    var text := GetMarketStateText(r.currentState, r.rangeHigh, r.rangeLow, r.lastTrendExtreme);
    assert r.plot[cb := Ordinal(r.currentState)] == r.plot;
    assert r.drawn[StateTextName := TextFixed(text)] == r.drawn;
  }
}
