/**
 * The hook's state feeding the chart's data effect: each change of the state cells is
 * followed by one run of the effect on the new cells.
 */
module FeedToChart {
  import opened Wrappers
  import opened AnalysisData
  import opened ElphieChart
  import opened ElphieFeed
  import opened WebsocketService

  /** Switching dates clears the history, so the effect run that follows draws nothing and
      resets the loaded flag; the next snapshot is then drawn by a full load and never by an
      incremental update, whatever was loaded before. */
  method SwitchDate<M>(feed: FeedState<M>, chart: Chart, ymd: string, opts: SelectOptions, snapshot: seq<AnalysisPoint>)
    returns (sent: SelectDate, cleared: seq<ChartCall>, loaded: seq<ChartCall>)
    requires |snapshot| > 0
    modifies feed, chart
    ensures sent == SelectionMessage(ymd, opts)
    ensures cleared == []
    ensures loaded == FullLoadCalls(snapshot) && chart.historyLoaded
    ensures feed.history == snapshot && feed.selectedDate == Some(ymd)
  {
    sent := feed.SelectDate(ymd, opts);
    cleared := chart.OnDataChange(feed.history, feed.pendingCandle, true);
    feed.OnAnalysisHistory(snapshot);
    loaded := chart.OnDataChange(feed.history, feed.pendingCandle, true);
  }

  /** A live point on a loaded chart: the history grows by the point and the effect run
      updates the newest values only. */
  method LivePoint<M>(feed: FeedState<M>, chart: Chart, point: AnalysisPoint) returns (calls: seq<ChartCall>)
    requires chart.historyLoaded
    modifies feed, chart
    ensures feed.history == old(feed.history) + [point]
    ensures calls == IncrementalCalls(old(feed.history) + [point], feed.pendingCandle)
    ensures chart.historyLoaded
  {
    feed.OnNewAnalysisPoint(point);
    calls := chart.OnDataChange(feed.history, feed.pendingCandle, true);
  }

  /** Appends are not held back after a date switch: a point of the old session that
      arrives before the new snapshot becomes the whole history, and the chart full-loads
      that single point. */
  method LateAppendAfterSwitch<M>(feed: FeedState<M>, chart: Chart, ymd: string, opts: SelectOptions, late: AnalysisPoint)
    returns (calls: seq<ChartCall>)
    modifies feed, chart
    ensures feed.history == [late]
    ensures calls == FullLoadCalls([late]) && chart.historyLoaded
  {
    var _ := feed.SelectDate(ymd, opts);
    var _ := chart.OnDataChange(feed.history, feed.pendingCandle, true);
    feed.OnNewAnalysisPoint(late);
    calls := chart.OnDataChange(feed.history, feed.pendingCandle, true);
  }

  /** A snapshot that arrives while the loaded flag is set is not full-loaded: the effect run
      only redraws the snapshot's newest values, as for a live point. */
  method SnapshotOnLoadedChart<M>(feed: FeedState<M>, chart: Chart, snapshot: seq<AnalysisPoint>)
    returns (calls: seq<ChartCall>)
    requires |snapshot| > 0 && chart.historyLoaded
    modifies feed, chart
    ensures feed.history == snapshot
    ensures calls == IncrementalCalls(snapshot, feed.pendingCandle) && chart.historyLoaded
  {
    feed.OnAnalysisHistory(snapshot);
    calls := chart.OnDataChange(feed.history, feed.pendingCandle, true);
  }

  /** A server default date on a loaded chart keeps the history, so the loaded flag stays set
      and the next session's snapshot is drawn by the incremental update only. */
  method DefaultDateThenSnapshot<M>(feed: FeedState<M>, chart: Chart, info: Option<DateInfo>, snapshot: seq<AnalysisPoint>)
    returns (calls: seq<ChartCall>)
    requires |snapshot| > 0 && chart.historyLoaded
    modifies feed, chart
    ensures feed.history == snapshot
    ensures calls == IncrementalCalls(snapshot, feed.pendingCandle) && chart.historyLoaded
  {
    var _ := feed.OnServerDefaultDate(info);
    calls := SnapshotOnLoadedChart(feed, chart, snapshot);
  }
}
