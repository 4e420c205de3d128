/**
 * The chart component's data logic: the effect that turns the analysis history into
 * chart series (a full `setData` on first load, an incremental `update` afterwards),
 * the pending-candle effect, the initial visible range and the crosshair lookup.
 * Calls on the chart library are returned as `ChartCall` records.
 */
module ElphieChart {
  import opened Wrappers
  import opened AnalysisData
  import opened Series

  /** Two hours, five minutes, and the bar count of the initial window (times in ms). */
  const TwoHours: int := 2 * 60 * 60 * 1000
  const FiveMinutes: int := 5 * 60 * 1000
  const WindowBars: int := 120

  function Max(a: int, b: int): int {
    if a < b then b else a
  }

  // ---------------------------------------------------------------------------
  // Series building, as the effect does it with `Map`s and arrays

  /** The candle `Map`: for each point in order, its bar is set when the time is not yet
      present and all four prices are positive. */
  method CandleMap(h: seq<AnalysisPoint>) returns (entries: seq<SeriesPoint>)
    ensures entries == Derived(h, CandleSel)
  {
    entries := [];
    var i := 0;
    while i < |h|
      invariant 0 <= i <= |h|
      invariant entries == Derived(h[..i], CandleSel)
    {
      var point := h[i];
      var time := TimeOf(point);
      DerivedStep(h[..i + 1], CandleSel);
      assert h[..i + 1][..i] == h[..i];
      if !HasTime(entries, time) && ValidCandle(point.candle) {
        entries := entries + [BarOf(point.candle)];
      }
      i := i + 1;
    }
    assert h[..|h|] == h;
  }

  /** The three sweep selections keep the same points, so their maps have the same times. */
  lemma SweepTimesAgree(h: seq<AnalysisPoint>, a: Side, b: Side, t: int)
    ensures HasTime(Derived(h, SweepSel(a)), t) == HasTime(Derived(h, SweepSel(b)), t)
  {
    DerivedHasTime(h, SweepSel(a), t);
    DerivedHasTime(h, SweepSel(b), t);
    if SelectedTime(h, SweepSel(a), t) {
      var i :| 0 <= i < |h| && Selected(h[i], SweepSel(a)) && TimeOf(h[i]) == t;
      assert Selected(h[i], SweepSel(b));
    }
    if SelectedTime(h, SweepSel(b), t) {
      var i :| 0 <= i < |h| && Selected(h[i], SweepSel(b)) && TimeOf(h[i]) == t;
      assert Selected(h[i], SweepSel(a));
    }
  }

  /** One step of the sweep pass: the three maps grow together, exactly when the bid map
      lacks the point's time. */
  lemma SweepStep(h: seq<AnalysisPoint>, i: int)
    requires 0 <= i < |h|
    ensures var t := TimeOf(h[i]);
            var unseen := !HasTime(Derived(h[..i], SweepSel(AtBid)), t);
            && Derived(h[..i + 1], SweepSel(AtBid)) ==
                 (if unseen then Derived(h[..i], SweepSel(AtBid)) + [Level(t, h[i].sweepAtBid)] else Derived(h[..i], SweepSel(AtBid)))
            && Derived(h[..i + 1], SweepSel(AtAsk)) ==
                 (if unseen then Derived(h[..i], SweepSel(AtAsk)) + [Level(t, h[i].sweepAtAsk)] else Derived(h[..i], SweepSel(AtAsk)))
            && Derived(h[..i + 1], SweepSel(Unknown)) ==
                 (if unseen then Derived(h[..i], SweepSel(Unknown)) + [Level(t, h[i].sweepUnknown)] else Derived(h[..i], SweepSel(Unknown)))
  {
    assert h[..i + 1][..i] == h[..i];
    DerivedStep(h[..i + 1], SweepSel(AtBid));
    DerivedStep(h[..i + 1], SweepSel(AtAsk));
    DerivedStep(h[..i + 1], SweepSel(Unknown));
    SweepTimesAgree(h[..i], AtBid, AtAsk, TimeOf(h[i]));
    SweepTimesAgree(h[..i], AtBid, Unknown, TimeOf(h[i]));
  }

  /** The three sweep `Map`s, filled in one pass; only the bid map is asked whether a time
      is present, and all three are set together. */
  method SweepMaps(h: seq<AnalysisPoint>) returns (bid: seq<SeriesPoint>, ask: seq<SeriesPoint>, unknown: seq<SeriesPoint>)
    ensures bid == Derived(h, SweepSel(AtBid))
    ensures ask == Derived(h, SweepSel(AtAsk))
    ensures unknown == Derived(h, SweepSel(Unknown))
  {
    bid, ask, unknown := [], [], [];
    var i := 0;
    while i < |h|
      invariant 0 <= i <= |h|
      invariant bid == Derived(h[..i], SweepSel(AtBid))
      invariant ask == Derived(h[..i], SweepSel(AtAsk))
      invariant unknown == Derived(h[..i], SweepSel(Unknown))
    {
      var p := h[i];
      var time := TimeOf(p);
      SweepStep(h, i);
      if !HasTime(bid, time) {
        bid := bid + [Level(time, p.sweepAtBid)];
        ask := ask + [Level(time, p.sweepAtAsk)];
        unknown := unknown + [Level(time, p.sweepUnknown)];
      }
      i := i + 1;
    }
    assert h[..|h|] == h;
  }

  /** The four dark-pool arrays: every point with a positive sum and VWAP is pushed, in
      history order, onto the array of its magnitude class. */
  method DarkPoolBySize(h: seq<AnalysisPoint>)
    returns (small: seq<SeriesPoint>, medium: seq<SeriesPoint>, large: seq<SeriesPoint>, xlarge: seq<SeriesPoint>)
    ensures small == Project(h, DarkPoolSel(Small))
    ensures medium == Project(h, DarkPoolSel(Medium))
    ensures large == Project(h, DarkPoolSel(Large))
    ensures xlarge == Project(h, DarkPoolSel(XLarge))
  {
    small, medium, large, xlarge := [], [], [], [];
    var i := 0;
    while i < |h|
      invariant 0 <= i <= |h|
      invariant small == Project(h[..i], DarkPoolSel(Small))
      invariant medium == Project(h[..i], DarkPoolSel(Medium))
      invariant large == Project(h[..i], DarkPoolSel(Large))
      invariant xlarge == Project(h[..i], DarkPoolSel(XLarge))
    {
      var p := h[i];
      assert h[..i + 1][..i] == h[..i];
      if HasDarkPool(p) {
        var dataPoint := Level(TimeOf(p), p.darkPoolVWAP);
        if p.darkPoolSum < MediumFloor {
          small := small + [dataPoint];
        } else if p.darkPoolSum < LargeFloor {
          medium := medium + [dataPoint];
        } else if p.darkPoolSum < XLargeFloor {
          large := large + [dataPoint];
        } else {
          xlarge := xlarge + [dataPoint];
        }
      }
      i := i + 1;
    }
    assert h[..|h|] == h;
  }

  /** `sortAndDedupe`: keep the first entry per time, then sort by time. */
  method SortAndDedupe(data: seq<SeriesPoint>) returns (r: seq<SeriesPoint>)
    ensures r == SortByTime(FirstWins(data))
  {
    var entries := [];
    var i := 0;
    while i < |data|
      invariant 0 <= i <= |data|
      invariant entries == FirstWins(data[..i])
    {
      assert data[..i + 1][..i] == data[..i];
      if !HasTime(entries, data[i].time) {
        entries := entries + [data[i]];
      }
      i := i + 1;
    }
    assert data[..|data|] == data;
    r := SortByTime(entries);
  }

  // ---------------------------------------------------------------------------
  // What the effect sends to the chart

  /** The initial visible range: from the later of two hours before the last bar and the
      120th bar from the end, to five minutes after the last bar. */
  function VisibleRange(candles: seq<SeriesPoint>): (r: (int, int))
    requires |candles| > 0
  {
    var lastTime := candles[|candles| - 1].time;
    var twoHoursAgo := lastTime - TwoHours;
    var startIndex := Max(0, |candles| - WindowBars);
    var startTime := candles[startIndex].time;
    (Max(twoHoursAgo, startTime), lastTime + FiveMinutes)
  }

  /** The call that frames the chart after a full load. */
  function RangeCall(candles: seq<SeriesPoint>): ChartCall {
    if |candles| > 0 then SetVisibleRange(VisibleRange(candles).0, VisibleRange(candles).1)
    else FitContent
  }

  /** The `setData` of one dark-pool series, made only when its array is not empty. */
  function DarkPoolCall(h: seq<AnalysisPoint>, b: Bucket): seq<ChartCall> {
    if |Project(h, DarkPoolSel(b))| > 0 then [SetData(DarkPool(b), SeriesData(h, DarkPoolSel(b)))] else []
  }

  /** The `setData` calls of the candle series and the three sweep series. */
  function PriceAndSweepCalls(h: seq<AnalysisPoint>): seq<ChartCall> {
    [ SetData(Candles, SeriesData(h, CandleSel)),
      SetData(Sweep(AtBid), SeriesData(h, SweepSel(AtBid))),
      SetData(Sweep(AtAsk), SeriesData(h, SweepSel(AtAsk))),
      SetData(Sweep(Unknown), SeriesData(h, SweepSel(Unknown))) ]
  }

  /** The `setData` calls of the four dark-pool series, in class order. */
  function DarkPoolCalls(h: seq<AnalysisPoint>): seq<ChartCall> {
    DarkPoolCall(h, Small) + DarkPoolCall(h, Medium) + DarkPoolCall(h, Large) + DarkPoolCall(h, XLarge)
  }

  /** Every call of a full load, in the order the effect makes them. */
  function FullLoadCalls(h: seq<AnalysisPoint>): seq<ChartCall> {
    PriceAndSweepCalls(h) + DarkPoolCalls(h) + [RangeCall(SeriesData(h, CandleSel))]
  }

  /** A pending candle newer than the latest closed point holds back the incremental update. */
  predicate NewerPending(h: seq<AnalysisPoint>, pending: Option<Candle>)
    requires |h| > 0
  {
    pending.Some? && pending.value.periodStart > TimeOf(h[|h| - 1])
  }

  /** Every call of an incremental update, in the order the effect makes them. */
  function IncrementalCalls(h: seq<AnalysisPoint>, pending: Option<Candle>): seq<ChartCall>
    requires |h| > 0
  {
    var latest := h[|h| - 1];
    var candles := SeriesData(h, CandleSel);
    var time := TimeOf(latest);
    if NewerPending(h, pending) then []
    else
      (if ValidCandle(latest.candle) && |candles| > 0 then [Update(Candles, candles[|candles| - 1])] else [])
      + [ Update(Sweep(AtBid), Level(time, latest.sweepAtBid)),
          Update(Sweep(AtAsk), Level(time, latest.sweepAtAsk)),
          Update(Sweep(Unknown), Level(time, latest.sweepUnknown)) ]
      + (if HasDarkPool(latest) then [Update(DarkPool(BucketOf(latest.darkPoolSum)), Level(time, latest.darkPoolVWAP))] else [])
  }

  lemma {:induction false} ProjectNonEmpty(h: seq<AnalysisPoint>, sel: Selector)
    ensures |Project(h, sel)| > 0 <==> exists i | 0 <= i < |h| :: Selected(h[i], sel)
  {
    if |h| > 0 {
      var init := h[..|h| - 1];
      ProjectNonEmpty(init, sel);
      if exists i | 0 <= i < |init| :: Selected(init[i], sel) {
        var i :| 0 <= i < |init| && Selected(init[i], sel);
        assert h[i] == init[i];
      }
      if exists i | 0 <= i < |h| :: Selected(h[i], sel) {
        var i :| 0 <= i < |h| && Selected(h[i], sel);
        if i < |init| {
          assert init[i] == h[i];
        }
      }
    }
  }

  /** One magnitude class of a full load: `setData(sortAndDedupe(bucket))` when the
      bucket's array is not empty. */
  method BucketLoad(b: Bucket, bucket: seq<SeriesPoint>) returns (calls: seq<ChartCall>)
    ensures calls == if |bucket| > 0 then [SetData(DarkPool(b), SortByTime(FirstWins(bucket)))] else []
  {
    calls := [];
    if |bucket| > 0 {
      var data := SortAndDedupe(bucket);
      calls := [SetData(DarkPool(b), data)];
    }
  }

  /** The dark-pool part of a full load: one `setData` per non-empty magnitude class. */
  method DarkPoolLoad(history: seq<AnalysisPoint>) returns (calls: seq<ChartCall>)
    ensures calls == DarkPoolCalls(history)
  {
    var hasDarkPoolData := exists k | 0 <= k < |history| :: HasDarkPool(history[k]);
    if hasDarkPoolData {
      var small, medium, large, xlarge := DarkPoolBySize(history);
      var c1 := BucketLoad(Small, small);
      var c2 := BucketLoad(Medium, medium);
      var c3 := BucketLoad(Large, large);
      var c4 := BucketLoad(XLarge, xlarge);
      calls := c1 + c2 + c3 + c4;
    } else {
      forall b: Bucket ensures |Project(history, DarkPoolSel(b))| == 0 {
        ProjectNonEmpty(history, DarkPoolSel(b));
      }
      calls := [];
    }
  }

  /** The full-load branch of the data effect: every series replaced, then the view framed. */
  method FullLoad(history: seq<AnalysisPoint>) returns (calls: seq<ChartCall>)
    ensures calls == FullLoadCalls(history)
  {
    var candleEntries := CandleMap(history);
    var formattedCandles := SortByTime(candleEntries);
    var bid, ask, unknown := SweepMaps(history);
    var seriesCalls := [ SetData(Candles, formattedCandles),
                         SetData(Sweep(AtBid), SortByTime(bid)),
                         SetData(Sweep(AtAsk), SortByTime(ask)),
                         SetData(Sweep(Unknown), SortByTime(unknown)) ];
    assert seriesCalls == PriceAndSweepCalls(history);
    var darkPoolCalls := DarkPoolLoad(history);
    calls := seriesCalls + darkPoolCalls + [RangeCall(formattedCandles)];
  }

  /** The incremental branch of the data effect: nothing when a newer pending candle is on
      the chart; otherwise the newest bar (when the latest point's prices are all positive),
      the three sweep values and the dark-pool marker of the latest point. */
  method IncrementalUpdate(history: seq<AnalysisPoint>, pending: Option<Candle>) returns (calls: seq<ChartCall>)
    requires |history| > 0
    ensures calls == IncrementalCalls(history, pending)
  {
    var candleEntries := CandleMap(history);
    var formattedCandles := SortByTime(candleEntries);
    var latestPoint := history[|history| - 1];
    if pending.Some? && pending.value.periodStart > TimeOf(latestPoint) {
      return [];
    }
    calls := [];
    if ValidCandle(latestPoint.candle) && |formattedCandles| > 0 {
      calls := [Update(Candles, formattedCandles[|formattedCandles| - 1])];
    }
    var time := TimeOf(latestPoint);
    calls := calls + [ Update(Sweep(AtBid), Level(time, latestPoint.sweepAtBid)),
                       Update(Sweep(AtAsk), Level(time, latestPoint.sweepAtAsk)),
                       Update(Sweep(Unknown), Level(time, latestPoint.sweepUnknown)) ];
    if HasDarkPool(latestPoint) {
      var dataPoint := Level(time, latestPoint.darkPoolVWAP);
      if latestPoint.darkPoolSum < MediumFloor {
        calls := calls + [Update(DarkPool(Small), dataPoint)];
      } else if latestPoint.darkPoolSum < LargeFloor {
        calls := calls + [Update(DarkPool(Medium), dataPoint)];
      } else if latestPoint.darkPoolSum < XLargeFloor {
        calls := calls + [Update(DarkPool(Large), dataPoint)];
      } else {
        calls := calls + [Update(DarkPool(XLarge), dataPoint)];
      }
    }
  }

  /** The chart component's state across effect runs: the `isHistoryLoaded` ref. */
  class Chart {
    var historyLoaded: bool

    /** Mounting creates the chart with nothing loaded. */
    constructor ()
      ensures !historyLoaded
    {
      historyLoaded := false;
    }

    /** Unmount cleanup of the chart-creation effect clears the flag. */
    method Dispose()
      modifies this
      ensures !historyLoaded
    {
      historyLoaded := false;
    }

    /** One run of the data effect for the given history and pending candle. An empty
        history resets the flag and draws nothing; series that are not yet created skip the
        run; otherwise the first run after a reset loads every series in full and sets the
        flag, and later runs update the newest point only. */
    method OnDataChange(history: seq<AnalysisPoint>, pending: Option<Candle>, seriesReady: bool)
      returns (calls: seq<ChartCall>)
      modifies this
      ensures |history| == 0 ==> calls == [] && !historyLoaded
      ensures |history| > 0 && !seriesReady ==> calls == [] && historyLoaded == old(historyLoaded)
      ensures |history| > 0 && seriesReady && !old(historyLoaded) ==>
                calls == FullLoadCalls(history) && historyLoaded
      ensures |history| > 0 && seriesReady && old(historyLoaded) ==>
                calls == IncrementalCalls(history, pending) && historyLoaded
    {
      if |history| == 0 {
        historyLoaded := false;
        return [];
      }
      if !seriesReady {
        return [];
      }
      if !historyLoaded {
        calls := FullLoad(history);
        historyLoaded := true;
      } else {
        calls := IncrementalUpdate(history, pending);
      }
    }
  }

  /** One run of the pending-candle effect: the forming bar is drawn only when the candle
      series exists and all four of the bar's prices are positive. */
  function PendingCandleCalls(pending: Option<Candle>, seriesReady: bool): (calls: seq<ChartCall>)
    ensures calls == [] <==> pending.None? || !seriesReady || !ValidCandle(pending.value)
    ensures calls != [] ==> calls == [Update(Candles, BarOf(pending.value))]
  {
    match pending
    case None => []
    case Some(c) =>
      if seriesReady && c.open > 0 && c.high > 0 && c.low > 0 && c.close > 0 then [Update(Candles, BarOf(c))] else []
  }

  // ---------------------------------------------------------------------------
  // Crosshair lookup

  /** `Array.find` on the history: the first point whose period starts at `t`. */
  function FindAt(h: seq<AnalysisPoint>, t: int): (r: Option<AnalysisPoint>)
    ensures r.Some? ==> exists i | 0 <= i < |h| :: h[i] == r.value && TimeOf(h[i]) == t &&
                          forall j | 0 <= j < i :: TimeOf(h[j]) != t
    ensures r.None? ==> forall i | 0 <= i < |h| :: TimeOf(h[i]) != t
  {
    if |h| == 0 then None
    else if TimeOf(h[0]) == t then Some(h[0])
    else
      var r := FindAt(h[1..], t);
      assert r.Some? ==> exists i | 0 <= i < |h[1..]| :: h[1..][i] == r.value && TimeOf(h[1..][i]) == t &&
                          forall j | 0 <= j < i :: TimeOf(h[1..][j]) != t;
      r
  }

  /** The point shown for a hovered chart time: none when the crosshair has no time (or the
      falsy time 0), otherwise the first history point at that time, if any. */
  function CrosshairPoint(h: seq<AnalysisPoint>, hovered: Option<int>): (r: Option<AnalysisPoint>)
    ensures hovered.None? || hovered.value == 0 ==> r.None?
    ensures hovered.Some? && hovered.value != 0 ==> r == FindAt(h, hovered.value)
  {
    if hovered.None? || hovered.value == 0 then None else FindAt(h, hovered.value)
  }
}
