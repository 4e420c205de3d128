/**
 * What the chart component's derived series and calls guarantee, for every history.
 */
module ChartProperties {
  import opened Wrappers
  import opened AnalysisData
  import opened Series
  import opened ElphieChart

  /** Point `i` is the first point of `h` with drawable prices at its time. */
  predicate FirstValidAt(h: seq<AnalysisPoint>, i: int) {
    && 0 <= i < |h|
    && ValidCandle(h[i].candle)
    && forall j | 0 <= j < i :: ValidCandle(h[j].candle) ==> TimeOf(h[j]) != TimeOf(h[i])
  }

  /** Point `i` is the first point of `h` at its time, whatever its prices. */
  predicate FirstAt(h: seq<AnalysisPoint>, i: int) {
    && 0 <= i < |h|
    && forall j | 0 <= j < i :: TimeOf(h[j]) != TimeOf(h[i])
  }

  /** Point `i` is the first point of `h` with a dark-pool print in class `b` at its time. */
  predicate FirstInBucketAt(h: seq<AnalysisPoint>, i: int, b: Bucket) {
    && 0 <= i < |h|
    && HasDarkPool(h[i]) && BucketOf(h[i].darkPoolSum) == b
    && forall j | 0 <= j < i :: HasDarkPool(h[j]) && BucketOf(h[j].darkPoolSum) == b ==> TimeOf(h[j]) != TimeOf(h[i])
  }

  /** The candle series of a full load is strictly ascending by time, holds only bars whose
      four prices are positive, and holds exactly the bar of the first point with positive
      prices at each time: an earlier point with a zero price does not take a later valid
      point's place. */
  lemma CandleSeriesSpec(h: seq<AnalysisPoint>)
    ensures Ascending(SeriesData(h, CandleSel))
    ensures forall k | 0 <= k < |SeriesData(h, CandleSel)| ::
              var e := SeriesData(h, CandleSel)[k];
              e.Bar? && e.open > 0 && e.high > 0 && e.low > 0 && e.close > 0
    ensures forall e :: e in SeriesData(h, CandleSel) <==>
              exists i :: FirstValidAt(h, i) && e == BarOf(h[i].candle)
  {
    var c := SeriesData(h, CandleSel);
    SeriesDataSpec(h, CandleSel);
    forall k | 0 <= k < |c|
      ensures c[k].Bar? && c[k].open > 0 && c[k].high > 0 && c[k].low > 0 && c[k].close > 0
    {
      assert c[k] in c;
      var i :| FirstSelectedAt(h, i, CandleSel) && c[k] == EntryOf(h[i], CandleSel);
    }
    forall e ensures e in c <==> exists i :: FirstValidAt(h, i) && e == BarOf(h[i].candle) {
      if e in c {
        var i :| FirstSelectedAt(h, i, CandleSel) && e == EntryOf(h[i], CandleSel);
        assert FirstValidAt(h, i);
      }
      if exists i :: FirstValidAt(h, i) && e == BarOf(h[i].candle) {
        var i :| FirstValidAt(h, i) && e == BarOf(h[i].candle);
        assert FirstSelectedAt(h, i, CandleSel);
      }
    }
  }

  /** Each sweep series of a full load is strictly ascending, has an entry at exactly the
      times some point of the history has, and each entry carries the sweep value of the
      first point at that time, whether or not that point's prices are valid. */
  lemma SweepSeriesSpec(h: seq<AnalysisPoint>, side: Side)
    ensures Ascending(SeriesData(h, SweepSel(side)))
    ensures forall t :: HasTime(SeriesData(h, SweepSel(side)), t) <==>
              exists i | 0 <= i < |h| :: TimeOf(h[i]) == t
    ensures forall e :: e in SeriesData(h, SweepSel(side)) <==>
              exists i :: FirstAt(h, i) && e == Level(TimeOf(h[i]), SweepValue(h[i], side))
  {
    var s := SeriesData(h, SweepSel(side));
    SeriesDataSpec(h, SweepSel(side));
    forall t ensures HasTime(s, t) <==> exists i | 0 <= i < |h| :: TimeOf(h[i]) == t {
      if exists i | 0 <= i < |h| :: TimeOf(h[i]) == t {
        var i :| 0 <= i < |h| && TimeOf(h[i]) == t;
        assert Selected(h[i], SweepSel(side));
      }
    }
    forall e ensures e in s <==> exists i :: FirstAt(h, i) && e == Level(TimeOf(h[i]), SweepValue(h[i], side)) {
      if e in s {
        var i :| FirstSelectedAt(h, i, SweepSel(side)) && e == EntryOf(h[i], SweepSel(side));
        assert FirstAt(h, i);
      }
      if exists i :: FirstAt(h, i) && e == Level(TimeOf(h[i]), SweepValue(h[i], side)) {
        var i :| FirstAt(h, i) && e == Level(TimeOf(h[i]), SweepValue(h[i], side));
        assert FirstSelectedAt(h, i, SweepSel(side));
      }
    }
  }

  /** The three sweep series have the same times. */
  lemma SweepKeysAgree(h: seq<AnalysisPoint>, a: Side, b: Side)
    ensures forall t :: HasTime(SeriesData(h, SweepSel(a)), t) <==> HasTime(SeriesData(h, SweepSel(b)), t)
  {
    SweepSeriesSpec(h, a);
    SweepSeriesSpec(h, b);
  }

  /** Each dark-pool series of a full load is strictly ascending, has an entry at exactly the
      times of points whose print falls in its class, and each entry carries the VWAP of the
      first such point at that time. */
  lemma DarkPoolSeriesSpec(h: seq<AnalysisPoint>, b: Bucket)
    ensures Ascending(SeriesData(h, DarkPoolSel(b)))
    ensures forall t :: HasTime(SeriesData(h, DarkPoolSel(b)), t) <==>
              exists i | 0 <= i < |h| :: HasDarkPool(h[i]) && BucketOf(h[i].darkPoolSum) == b && TimeOf(h[i]) == t
    ensures forall e :: e in SeriesData(h, DarkPoolSel(b)) <==>
              exists i :: FirstInBucketAt(h, i, b) && e == Level(TimeOf(h[i]), h[i].darkPoolVWAP)
  {
    var s := SeriesData(h, DarkPoolSel(b));
    SeriesDataSpec(h, DarkPoolSel(b));
    forall e ensures e in s <==> exists i :: FirstInBucketAt(h, i, b) && e == Level(TimeOf(h[i]), h[i].darkPoolVWAP) {
      if e in s {
        var i :| FirstSelectedAt(h, i, DarkPoolSel(b)) && e == EntryOf(h[i], DarkPoolSel(b));
        assert FirstInBucketAt(h, i, b);
      }
      if exists i :: FirstInBucketAt(h, i, b) && e == Level(TimeOf(h[i]), h[i].darkPoolVWAP) {
        var i :| FirstInBucketAt(h, i, b) && e == Level(TimeOf(h[i]), h[i].darkPoolVWAP);
        assert FirstSelectedAt(h, i, DarkPoolSel(b));
      }
    }
  }

  /** Every time of a point with a dark-pool print appears in some dark-pool series, and
      every dark-pool series' time is the time of such a point. */
  lemma DarkPoolTimesCovered(h: seq<AnalysisPoint>, t: int)
    ensures (exists i | 0 <= i < |h| :: HasDarkPool(h[i]) && TimeOf(h[i]) == t) <==>
            (exists b: Bucket :: HasTime(SeriesData(h, DarkPoolSel(b)), t))
  {
    if exists i | 0 <= i < |h| :: HasDarkPool(h[i]) && TimeOf(h[i]) == t {
      var i :| 0 <= i < |h| && HasDarkPool(h[i]) && TimeOf(h[i]) == t;
      var b := BucketOf(h[i].darkPoolSum);
      DarkPoolSeriesSpec(h, b);
      assert HasTime(SeriesData(h, DarkPoolSel(b)), t);
    }
    if exists b: Bucket :: HasTime(SeriesData(h, DarkPoolSel(b)), t) {
      var b: Bucket :| HasTime(SeriesData(h, DarkPoolSel(b)), t);
      DarkPoolSeriesSpec(h, b);
    }
  }

  /** Two points with the same period whose sums fall in different classes put that time in
      both classes' dark-pool series, so one time can be drawn twice. */
  lemma SameTimeInTwoBuckets(h: seq<AnalysisPoint>, i: int, j: int)
    requires 0 <= i < |h| && 0 <= j < |h|
    requires TimeOf(h[i]) == TimeOf(h[j]) && HasDarkPool(h[i]) && HasDarkPool(h[j])
    requires BucketOf(h[i].darkPoolSum) != BucketOf(h[j].darkPoolSum)
    ensures HasTime(SeriesData(h, DarkPoolSel(BucketOf(h[i].darkPoolSum))), TimeOf(h[i]))
    ensures HasTime(SeriesData(h, DarkPoolSel(BucketOf(h[j].darkPoolSum))), TimeOf(h[i]))
  {
    DarkPoolSeriesSpec(h, BucketOf(h[i].darkPoolSum));
    DarkPoolSeriesSpec(h, BucketOf(h[j].darkPoolSum));
  }

  /** For sorted candles the initial window starts no earlier than the first bar and no later
      than the last, spans at most two hours before the last bar, leaves out every bar older
      than the last 120, and ends five minutes after the last bar. */
  lemma VisibleRangeBounds(candles: seq<SeriesPoint>)
    requires |candles| > 0 && Ascending(candles)
    ensures var (from, to) := VisibleRange(candles);
            var last := candles[|candles| - 1].time;
            && candles[0].time <= from <= last
            && last - from <= TwoHours
            && to == last + FiveMinutes
            && forall k | 0 <= k < |candles| - WindowBars :: candles[k].time < from
  {
    var n := |candles|;
    var start := Max(0, n - WindowBars);
    assert candles[0].time <= candles[start].time <= candles[n - 1].time by {
      if 0 < start { assert candles[0].time < candles[start].time; }
      if start < n - 1 { assert candles[start].time < candles[n - 1].time; }
    }
  }

  /** A full load frames the chart on its candles when there are any, and calls
      `fitContent` otherwise. */
  lemma FullLoadFraming(h: seq<AnalysisPoint>)
    ensures var calls := FullLoadCalls(h);
            var c := SeriesData(h, CandleSel);
            && |calls| >= 5
            && calls[|calls| - 1] == RangeCall(c)
            && (|c| > 0 ==> calls[|calls| - 1].SetVisibleRange? &&
                            c[0].time <= calls[|calls| - 1].from <= c[|c| - 1].time < calls[|calls| - 1].to)
            && (|c| == 0 ==> calls[|calls| - 1] == FitContent)
  {
    var c := SeriesData(h, CandleSel);
    if |c| > 0 {
      CandleSeriesSpec(h);
      VisibleRangeBounds(c);
    }
  }

  /** A dark-pool call names its own class and exists only for a class with points. */
  lemma DarkPoolCallShape(h: seq<AnalysisPoint>, b: Bucket, c: ChartCall)
    requires c in DarkPoolCall(h, b)
    ensures c == SetData(DarkPool(b), SeriesData(h, DarkPoolSel(b)))
    ensures |Project(h, DarkPoolSel(b))| > 0
  {
  }

  /** Every series the effect derives is strictly ascending. */
  lemma SeriesAscending(h: seq<AnalysisPoint>, sel: Selector)
    ensures Ascending(SeriesData(h, sel))
  {
    DerivedUnique(h, sel);
    SortByTimeSpec(Derived(h, sel));
  }

  /** The candle and sweep calls of a full load set strictly ascending series. */
  lemma PriceAndSweepAscending(h: seq<AnalysisPoint>)
    ensures forall c | c in PriceAndSweepCalls(h) :: c.SetData? && Ascending(c.points)
  {
    SeriesAscending(h, CandleSel);
    SeriesAscending(h, SweepSel(AtBid));
    SeriesAscending(h, SweepSel(AtAsk));
    SeriesAscending(h, SweepSel(Unknown));
  }

  /** The dark-pool calls of a full load set strictly ascending series. */
  lemma DarkPoolAscending(h: seq<AnalysisPoint>)
    ensures forall c | c in DarkPoolCalls(h) :: c.SetData? && Ascending(c.points)
  {
    var d1, d2, d3, d4 := DarkPoolCall(h, Small), DarkPoolCall(h, Medium), DarkPoolCall(h, Large), DarkPoolCall(h, XLarge);
    assert DarkPoolCalls(h) == d1 + d2 + d3 + d4;
    forall c: ChartCall | c in d1 + d2 + d3 + d4 ensures c.SetData? && Ascending(c.points) {
      if c in d1 { DarkPoolCallShape(h, Small, c); SeriesAscending(h, DarkPoolSel(Small)); }
      else if c in d2 { DarkPoolCallShape(h, Medium, c); SeriesAscending(h, DarkPoolSel(Medium)); }
      else if c in d3 { DarkPoolCallShape(h, Large, c); SeriesAscending(h, DarkPoolSel(Large)); }
      else { DarkPoolCallShape(h, XLarge, c); SeriesAscending(h, DarkPoolSel(XLarge)); }
    }
  }

  /** Every `setData` of a full load hands the chart a strictly ascending series. */
  lemma FullLoadAscending(h: seq<AnalysisPoint>)
    ensures forall c | c in FullLoadCalls(h) && c.SetData? :: Ascending(c.points)
  {
    var ps, ds, r := PriceAndSweepCalls(h), DarkPoolCalls(h), [RangeCall(SeriesData(h, CandleSel))];
    assert FullLoadCalls(h) == ps + ds + r;
    PriceAndSweepAscending(h);
    DarkPoolAscending(h);
    assert forall c: ChartCall | c in r :: !c.SetData?;
  }

  /** The only `setData` calls of a full load that name a dark-pool series are the
      dark-pool calls. */
  lemma FullLoadDarkPoolCalls(h: seq<AnalysisPoint>)
    ensures forall c | c in FullLoadCalls(h) && c.SetData? && c.series.DarkPool? :: c in DarkPoolCalls(h)
  {
    var ps, ds, r := PriceAndSweepCalls(h), DarkPoolCalls(h), [RangeCall(SeriesData(h, CandleSel))];
    assert FullLoadCalls(h) == ps + ds + r;
    forall c: ChartCall | c in ps + ds + r && c.SetData? && c.series.DarkPool? ensures c in ds {
      assert c !in ps;
      assert c !in r;
    }
  }

  /** A full load sets a dark-pool series only with that class's own series, and only when
      some point's print falls in the class: a class that received nothing is not cleared and
      keeps whatever the series held before. */
  lemma FullLoadSetsOnlyFilledBucket(h: seq<AnalysisPoint>, b: Bucket, c: ChartCall)
    requires c in FullLoadCalls(h) && c.SetData? && c.series == DarkPool(b)
    ensures c.points == SeriesData(h, DarkPoolSel(b))
    ensures exists i | 0 <= i < |h| :: HasDarkPool(h[i]) && BucketOf(h[i].darkPoolSum) == b
  {
    FullLoadDarkPoolCalls(h);
    var d1, d2, d3, d4 := DarkPoolCall(h, Small), DarkPoolCall(h, Medium), DarkPoolCall(h, Large), DarkPoolCall(h, XLarge);
    assert c in d1 + d2 + d3 + d4;
    if c in d1 { DarkPoolCallShape(h, Small, c); }
    else if c in d2 { DarkPoolCallShape(h, Medium, c); }
    else if c in d3 { DarkPoolCallShape(h, Large, c); }
    else { DarkPoolCallShape(h, XLarge, c); }
    ProjectNonEmpty(h, DarkPoolSel(b));
    var i :| 0 <= i < |h| && Selected(h[i], DarkPoolSel(b));
  }

  /** A full load sets the series of every class that some point's print falls in. */
  lemma FullLoadSetsFilledBucket(h: seq<AnalysisPoint>, i: int)
    requires 0 <= i < |h| && HasDarkPool(h[i])
    ensures SetData(DarkPool(BucketOf(h[i].darkPoolSum)), SeriesData(h, DarkPoolSel(BucketOf(h[i].darkPoolSum))))
              in FullLoadCalls(h)
  {
    var b := BucketOf(h[i].darkPoolSum);
    assert Selected(h[i], DarkPoolSel(b));
    ProjectNonEmpty(h, DarkPoolSel(b));
    var c := SetData(DarkPool(b), SeriesData(h, DarkPoolSel(b)));
    assert DarkPoolCall(h, b) == [c];
    var d1, d2, d3, d4 := DarkPoolCall(h, Small), DarkPoolCall(h, Medium), DarkPoolCall(h, Large), DarkPoolCall(h, XLarge);
    assert c in d1 + d2 + d3 + d4;
    assert c in DarkPoolCalls(h);
  }

  /** The incremental update draws nothing exactly when a pending candle newer than the latest
      point is on the chart; otherwise it always updates the three sweep series with the latest
      point's values. */
  lemma IncrementalGuard(h: seq<AnalysisPoint>, pending: Option<Candle>)
    requires |h| > 0
    ensures IncrementalCalls(h, pending) == [] <==>
            pending.Some? && pending.value.periodStart > TimeOf(h[|h| - 1])
    ensures IncrementalCalls(h, pending) != [] ==>
            var p := h[|h| - 1];
            Update(Sweep(AtBid), Level(TimeOf(p), p.sweepAtBid)) in IncrementalCalls(h, pending) &&
            Update(Sweep(AtAsk), Level(TimeOf(p), p.sweepAtAsk)) in IncrementalCalls(h, pending) &&
            Update(Sweep(Unknown), Level(TimeOf(p), p.sweepUnknown)) in IncrementalCalls(h, pending)
  {
  }

  /** When the latest point has valid prices and no newer pending candle holds the update
      back, the bar updated is the newest bar of the candle series: it is no older than the
      latest point, and no point with valid prices is newer. */
  lemma IncrementalCandleIsNewest(h: seq<AnalysisPoint>, pending: Option<Candle>)
    requires |h| > 0 && !NewerPending(h, pending) && ValidCandle(h[|h| - 1].candle)
    ensures var c := SeriesData(h, CandleSel);
            && |c| > 0
            && IncrementalCalls(h, pending)[0] == Update(Candles, c[|c| - 1])
            && TimeOf(h[|h| - 1]) <= c[|c| - 1].time
            && forall i | 0 <= i < |h| && ValidCandle(h[i].candle) :: TimeOf(h[i]) <= c[|c| - 1].time
  {
    var c := SeriesData(h, CandleSel);
    SeriesDataSpec(h, CandleSel);
    var n := |h| - 1;
    assert Selected(h[n], CandleSel);
    assert HasTime(c, TimeOf(h[n]));
    forall i | 0 <= i < |h| && ValidCandle(h[i].candle) ensures TimeOf(h[i]) <= c[|c| - 1].time {
      assert Selected(h[i], CandleSel);
      assert HasTime(c, TimeOf(h[i]));
      var k :| 0 <= k < |c| && c[k].time == TimeOf(h[i]);
      if k < |c| - 1 {
        assert c[k].time < c[|c| - 1].time;
      }
    }
  }

  /** The incremental update redraws a candle bar exactly when no newer pending candle holds it
      back and the latest point's four prices are all positive; the bar is then the newest bar of
      the candle series. */
  lemma IncrementalCandleGate(h: seq<AnalysisPoint>, pending: Option<Candle>, x: SeriesPoint)
    requires |h| > 0
    ensures var c := SeriesData(h, CandleSel);
            Update(Candles, x) in IncrementalCalls(h, pending) <==>
              !NewerPending(h, pending) && ValidCandle(h[|h| - 1].candle) && |c| > 0 && x == c[|c| - 1]
  {
    if !NewerPending(h, pending) && ValidCandle(h[|h| - 1].candle) {
      IncrementalCandleIsNewest(h, pending);
    }
  }

  /** The incremental update moves a dark-pool marker exactly when no newer pending candle holds
      it back and the latest point has a dark-pool print; the marker goes to the series of the
      print's own class, at the latest point's time and VWAP. */
  lemma IncrementalDarkPoolGate(h: seq<AnalysisPoint>, pending: Option<Candle>, b: Bucket, x: SeriesPoint)
    requires |h| > 0
    ensures var p := h[|h| - 1];
            Update(DarkPool(b), x) in IncrementalCalls(h, pending) <==>
              !NewerPending(h, pending) && HasDarkPool(p) && b == BucketOf(p.darkPoolSum)
              && x == Level(TimeOf(p), p.darkPoolVWAP)
  {
  }

  /** A period delivered twice, both times with valid prices: the candle series keeps the
      first delivery's bar only. */
  lemma RedeliveredCandleSeries(first: AnalysisPoint, again: AnalysisPoint)
    requires TimeOf(first) == TimeOf(again) && ValidCandle(first.candle) && ValidCandle(again.candle)
    ensures SeriesData([first, again], CandleSel) == [BarOf(first.candle)]
  {
    var h := [first, again];
    var bar := BarOf(first.candle);
    assert [first][..0] == [];
    DerivedStep([first], CandleSel);
    assert Derived([first], CandleSel) == [bar];
    assert h[..1] == [first];
    DerivedStep(h, CandleSel);
    assert HasTime([bar], TimeOf(again));
    assert Derived(h, CandleSel) == [bar];
    assert [bar][..0] == [];
    assert SortByTime([bar]) == Insert([], bar);
  }

  /** A period delivered again with corrected prices: the incremental update redraws the
      bar with the first delivery's prices, while the sweep updates carry the second
      delivery's values. */
  lemma RedeliveredPeriodKeepsFirstBar(first: AnalysisPoint, again: AnalysisPoint, pending: Option<Candle>)
    requires TimeOf(first) == TimeOf(again) && ValidCandle(first.candle) && ValidCandle(again.candle)
    requires !NewerPending([first, again], pending)
    ensures var calls := IncrementalCalls([first, again], pending);
            && |calls| >= 4
            && calls[0] == Update(Candles, BarOf(first.candle))
            && calls[1] == Update(Sweep(AtBid), Level(TimeOf(again), again.sweepAtBid))
            && calls[2] == Update(Sweep(AtAsk), Level(TimeOf(again), again.sweepAtAsk))
            && calls[3] == Update(Sweep(Unknown), Level(TimeOf(again), again.sweepUnknown))
  {
    RedeliveredCandleSeries(first, again);
  }

  /** The crosshair lookup returns the first point whose period starts at the hovered time,
      and nothing when the crosshair has no time or no point has that time. */
  lemma CrosshairSpec(h: seq<AnalysisPoint>, hovered: Option<int>)
    ensures CrosshairPoint(h, hovered).Some? <==>
            hovered.Some? && hovered.value != 0 && exists i | 0 <= i < |h| :: TimeOf(h[i]) == hovered.value
    ensures CrosshairPoint(h, hovered).Some? ==>
            exists i :: FirstAt(h, i) && TimeOf(h[i]) == hovered.value && h[i] == CrosshairPoint(h, hovered).value
  {
    if hovered.Some? && hovered.value != 0 {
      var r := FindAt(h, hovered.value);
      if r.Some? {
        var i :| 0 <= i < |h| && h[i] == r.value && TimeOf(h[i]) == hovered.value &&
                 forall j | 0 <= j < i :: TimeOf(h[j]) != hovered.value;
        assert FirstAt(h, i);
      }
    }
  }
}
