/**
 * The feed hook: the state cells the chart reads (history, pending candle, pending metrics,
 * selected date), the handlers that the registry calls for the five feed kinds, the date
 * selection, and the subscription made at mount and undone at unmount.
 */
module ElphieFeed {
  import opened Wrappers
  import opened AnalysisData
  import opened WebsocketService

  /** The `server_default_date` payload. */
  datatype DateInfo = DateInfo(date: Option<string>, ticker: Option<string>, interval: Option<string>)

  /** The options passed with a date selection; `date` is `Some` when the options object has
      its own `date`, which then overrides the selected date in the outgoing message. */
  datatype SelectOptions = SelectOptions(date: Option<string>, ticker: Option<string>, interval: Option<string>)

  /** A payload as the registry holds it. `M` is the pending-metrics record, which the hook
      only stores. */
  datatype Event<M> =
    | DateEvent(info: Option<DateInfo>)
    | HistoryEvent(points: seq<AnalysisPoint>)
    | PointEvent(point: AnalysisPoint)
    | CandleEvent(candle: Option<Candle>)
    | MetricsEvent(metrics: Option<M>)
    | OtherEvent

  /** The five handler closures of one mount. */
  datatype Handlers = Handlers(date: Callback, history: Callback, point: Callback, candle: Callback, metrics: Callback)

  const DateKind: string := "server_default_date"
  const HistoryKind: string := "analysis_history"
  const PointKind: string := "new_analysis_point"
  const CandleKind: string := "pending_candle"
  const MetricsKind: string := "pending_metrics"

  /** A payload has the shape the hook's handler for its kind expects. */
  predicate Fits<M>(kind: string, e: Event<M>) {
    || (kind == DateKind && e.DateEvent?)
    || (kind == HistoryKind && e.HistoryEvent?)
    || (kind == PointKind && e.PointEvent?)
    || (kind == CandleKind && e.CandleEvent?)
    || (kind == MetricsKind && e.MetricsEvent?)
  }

  /** Every cached payload of the hook's five kinds has its kind's shape. */
  predicate CacheFits<M>(latest: map<string, Event<M>>) {
    forall k | k in latest && k in {DateKind, HistoryKind, PointKind, CandleKind, MetricsKind} :: Fits(k, latest[k])
  }

  /** The lists after the mount effect's five `on` calls. */
  function Subscribed(ls: map<string, seq<Callback>>, hs: Handlers): (r: map<string, seq<Callback>>)
    requires ls.Keys == Kinds
    ensures r.Keys == Kinds
  {
    ls[DateKind := ls[DateKind] + [hs.date]]
      [HistoryKind := ls[HistoryKind] + [hs.history]]
      [PointKind := ls[PointKind] + [hs.point]]
      [CandleKind := ls[CandleKind] + [hs.candle]]
      [MetricsKind := ls[MetricsKind] + [hs.metrics]]
  }

  /** The lists after the cleanup's five `off` calls. */
  function Unsubscribed(ls: map<string, seq<Callback>>, hs: Handlers): (r: map<string, seq<Callback>>)
    requires ls.Keys == Kinds
    ensures r.Keys == Kinds
  {
    ls[DateKind := RemoveFirst(ls[DateKind], hs.date)]
      [HistoryKind := RemoveFirst(ls[HistoryKind], hs.history)]
      [PointKind := RemoveFirst(ls[PointKind], hs.point)]
      [CandleKind := RemoveFirst(ls[CandleKind], hs.candle)]
      [MetricsKind := RemoveFirst(ls[MetricsKind], hs.metrics)]
  }

  /** The handlers of one mount are new closures: none is on its kind's list yet. */
  predicate Fresh(ls: map<string, seq<Callback>>, hs: Handlers)
    requires ls.Keys == Kinds
  {
    && hs.date !in ls[DateKind] && hs.history !in ls[HistoryKind] && hs.point !in ls[PointKind]
    && hs.candle !in ls[CandleKind] && hs.metrics !in ls[MetricsKind]
  }

  /** The cleanup removes exactly what the mount added: with new closures every list is back
      to what it was, and the lists of the other kinds are never touched. */
  lemma SubscribeUnsubscribe(ls: map<string, seq<Callback>>, hs: Handlers)
    requires ls.Keys == Kinds && Fresh(ls, hs)
    ensures Unsubscribed(Subscribed(ls, hs), hs) == ls
    ensures forall k | k in Kinds - {DateKind, HistoryKind, PointKind, CandleKind, MetricsKind} ::
              Subscribed(ls, hs)[k] == ls[k]
  {
    RemoveFirstAfterAppend(ls[DateKind], hs.date);
    RemoveFirstAfterAppend(ls[HistoryKind], hs.history);
    RemoveFirstAfterAppend(ls[PointKind], hs.point);
    RemoveFirstAfterAppend(ls[CandleKind], hs.candle);
    RemoveFirstAfterAppend(ls[MetricsKind], hs.metrics);
    var r := Unsubscribed(Subscribed(ls, hs), hs);
    assert forall k | k in Kinds :: r[k] == ls[k];
  }

  /** The outgoing message of a date selection: the options' own `date` overrides the
      selected one, and their ticker and interval go along when non-empty. */
  function SelectionMessage(ymd: string, opts: SelectOptions): (m: SelectDate)
    ensures m.date == if opts.date.Some? then opts.date else Some(ymd)
    ensures m.ticker == (if Truthy(opts.ticker) then opts.ticker else None)
    ensures m.interval == (if Truthy(opts.interval) then opts.interval else None)
  {
    SelectDateMessage(if opts.date.Some? then opts.date else Some(ymd), opts.ticker, opts.interval)
  }

  /** The values of the hook's four state cells. */
  datatype Cells<M> = Cells(history: seq<AnalysisPoint>, pendingCandle: Option<Candle>,
                            pendingMetrics: Option<M>, selectedDate: Option<string>)

  /** The date a `server_default_date` payload selects: its date when that is a non-empty
      string, none otherwise. */
  function DefaultDate(info: Option<DateInfo>): (d: Option<string>)
    ensures d.Some? <==> info.Some? && Truthy(info.value.date)
    ensures d.Some? ==> d == info.value.date && d.value != ""
  {
    if info.Some? && Truthy(info.value.date) then info.value.date else None
  }

  /** The cells after the handler for `kind` runs on payload `e`. */
  function Apply<M>(c: Cells<M>, kind: string, e: Event<M>): Cells<M>
    requires Fits(kind, e)
  {
    match e
    case DateEvent(info) => if DefaultDate(info).Some? then c.(selectedDate := DefaultDate(info)) else c
    case HistoryEvent(points) => c.(history := points)
    case PointEvent(point) => c.(history := c.history + [point])
    case CandleEvent(candle) => c.(pendingCandle := candle)
    case MetricsEvent(metrics) => c.(pendingMetrics := metrics)
  }

  /** The `select_date` message the handler for `kind` sends on payload `e`, if any. */
  function SentBy<M>(kind: string, e: Event<M>): Option<SelectDate>
    requires Fits(kind, e)
  {
    if e.DateEvent? && DefaultDate(e.info).Some? then
      Some(SelectDateMessage(e.info.value.date, e.info.value.ticker, e.info.value.interval))
    else None
  }

  /** What each handler does: a snapshot replaces only the history; a point is appended
      (the history grows by exactly one and keeps its earlier points); a pending candle or
      pending metrics replaces only its own cell; a default date selects the date, keeps the
      history and sends one `select_date`, or, without a non-empty date, does nothing. Only
      the date handler sends. */
  lemma ApplySpec<M>(c: Cells<M>, kind: string, e: Event<M>)
    requires Fits(kind, e)
    ensures var n := Apply(c, kind, e);
      && (kind == HistoryKind ==> n == c.(history := e.points))
      && (kind == PointKind ==> |n.history| == |c.history| + 1 && n.history[..|c.history|] == c.history &&
                                n.history[|c.history|] == e.point && n.(history := c.history) == c)
      && (kind == CandleKind ==> n == c.(pendingCandle := e.candle))
      && (kind == MetricsKind ==> n == c.(pendingMetrics := e.metrics))
      && (kind == DateKind ==> n.history == c.history && n.pendingCandle == c.pendingCandle &&
                               n.pendingMetrics == c.pendingMetrics)
      && (kind == DateKind && DefaultDate(e.info).Some? ==>
            n.selectedDate == e.info.value.date &&
            SentBy(kind, e) == Some(SelectDateMessage(e.info.value.date, e.info.value.ticker, e.info.value.interval)))
      && (kind == DateKind && DefaultDate(e.info).None? ==> n == c && SentBy(kind, e) == None)
      && (kind != DateKind ==> SentBy(kind, e) == None)
  {
    if kind == PointKind {
      assert (c.history + [e.point])[..|c.history|] == c.history;
    }
  }

  /** Runs the handler of `kind` on the cached payload of that kind, if there is one. */
  function Replay<M>(c: Cells<M>, latest: map<string, Event<M>>, kind: string): Cells<M>
    requires CacheFits(latest) && kind in {DateKind, HistoryKind, PointKind, CandleKind, MetricsKind}
  {
    if kind in latest then Apply(c, kind, latest[kind]) else c
  }

  /** The cells after the mount effect's five subscriptions replay the cache in order. */
  function Mounted<M>(c: Cells<M>, latest: map<string, Event<M>>): Cells<M>
    requires CacheFits(latest)
  {
    var c1 := Replay(c, latest, DateKind);
    var c2 := Replay(c1, latest, HistoryKind);
    var c3 := Replay(c2, latest, PointKind);
    var c4 := Replay(c3, latest, CandleKind);
    Replay(c4, latest, MetricsKind)
  }

  /** Mounting against a cache: the cached snapshot (or the old history) followed by the
      cached point, if any; each pending cell from the cache when cached; the cached default
      date when it is a non-empty string. */
  lemma MountedSpec<M>(c: Cells<M>, latest: map<string, Event<M>>)
    requires CacheFits(latest)
    ensures var n := Mounted(c, latest);
      && n.history == (if HistoryKind in latest then latest[HistoryKind].points else c.history) +
                      (if PointKind in latest then [latest[PointKind].point] else [])
      && n.pendingCandle == (if CandleKind in latest then latest[CandleKind].candle else c.pendingCandle)
      && n.pendingMetrics == (if MetricsKind in latest then latest[MetricsKind].metrics else c.pendingMetrics)
      && n.selectedDate == (if DateKind in latest && DefaultDate(latest[DateKind].info).Some?
                            then DefaultDate(latest[DateKind].info) else c.selectedDate)
  {
    var c1 := Replay(c, latest, DateKind);
    var c2 := Replay(c1, latest, HistoryKind);
    var c3 := Replay(c2, latest, PointKind);
    var c4 := Replay(c3, latest, CandleKind);
    if DateKind in latest { ApplySpec(c, DateKind, latest[DateKind]); }
    if HistoryKind in latest { ApplySpec(c1, HistoryKind, latest[HistoryKind]); }
    if PointKind in latest { ApplySpec(c2, PointKind, latest[PointKind]); }
    if CandleKind in latest { ApplySpec(c3, CandleKind, latest[CandleKind]); }
    if MetricsKind in latest { ApplySpec(c4, MetricsKind, latest[MetricsKind]); }
  }

  /** The hook's state cells. */
  class FeedState<M> {
    var history: seq<AnalysisPoint>
    var pendingCandle: Option<Candle>
    var pendingMetrics: Option<M>
    var selectedDate: Option<string>

    /** The current values of the four cells. */
    function State(): Cells<M>
      reads this
    {
      Cells(history, pendingCandle, pendingMetrics, selectedDate)
    }

    /** First render: an empty history and nothing pending or selected. */
    constructor ()
      ensures history == [] && pendingCandle == None && pendingMetrics == None && selectedDate == None
    {
      history := [];
      pendingCandle := None;
      pendingMetrics := None;
      selectedDate := None;
    }

    /** `server_default_date`: a missing info or an empty date does nothing; otherwise the
        date is selected and a `select_date` for it is sent (returned), with the server's
        ticker and interval. The history is kept. */
    method OnServerDefaultDate(info: Option<DateInfo>) returns (sent: Option<SelectDate>)
      modifies this
      ensures history == old(history) && pendingCandle == old(pendingCandle) && pendingMetrics == old(pendingMetrics)
      ensures info.None? || !Truthy(info.value.date) ==> selectedDate == old(selectedDate) && sent == None
      ensures info.Some? && Truthy(info.value.date) ==>
                selectedDate == info.value.date &&
                sent == Some(SelectDateMessage(info.value.date, info.value.ticker, info.value.interval))
    {
      sent := None;
      if info.None? || info.value.date.None? || info.value.date.value == "" {
        return;
      }
      var ymd := info.value.date;
      selectedDate := ymd;
      sent := Some(SelectDateMessage(ymd, info.value.ticker, info.value.interval));
    }

    /** `analysis_history`: the snapshot replaces the history wholesale. */
    method OnAnalysisHistory(points: seq<AnalysisPoint>)
      modifies this
      ensures history == points
      ensures pendingCandle == old(pendingCandle) && pendingMetrics == old(pendingMetrics) && selectedDate == old(selectedDate)
    {
      history := points;
    }

    /** `new_analysis_point`: the point is appended, even when a point with its period is
        already there. */
    method OnNewAnalysisPoint(point: AnalysisPoint)
      modifies this
      ensures history == old(history) + [point]
      ensures pendingCandle == old(pendingCandle) && pendingMetrics == old(pendingMetrics) && selectedDate == old(selectedDate)
    {
      history := history + [point];
    }

    /** `pending_candle`: replaces the pending candle only. */
    method OnPendingCandle(candle: Option<Candle>)
      modifies this
      ensures pendingCandle == candle
      ensures history == old(history) && pendingMetrics == old(pendingMetrics) && selectedDate == old(selectedDate)
    {
      pendingCandle := candle;
    }

    /** `pending_metrics`: replaces the pending metrics only. */
    method OnPendingMetrics(metrics: Option<M>)
      modifies this
      ensures pendingMetrics == metrics
      ensures history == old(history) && pendingCandle == old(pendingCandle) && selectedDate == old(selectedDate)
    {
      pendingMetrics := metrics;
    }

    /** `selectDate(ymd, opts)`: selects the date, sends one `select_date` (returned) and
        clears the history and both pending values while the new session loads. */
    method SelectDate(ymd: string, opts: SelectOptions) returns (sent: SelectDate)
      modifies this
      ensures selectedDate == Some(ymd)
      ensures sent == SelectionMessage(ymd, opts)
      ensures history == [] && pendingCandle == None && pendingMetrics == None
    {
      selectedDate := Some(ymd);
      sent := SelectDateMessage(if opts.date.Some? then opts.date else Some(ymd), opts.ticker, opts.interval);
      history := [];
      pendingCandle := None;
      pendingMetrics := None;
    }

    /** The hook's handler for `kind` called with payload `e`. */
    method Handle(kind: string, e: Event<M>) returns (sent: Option<SelectDate>)
      requires Fits(kind, e)
      modifies this
      ensures State() == Apply(old(State()), kind, e)
      ensures sent == SentBy(kind, e)
    {
      sent := None;
      match e
      case DateEvent(info) => sent := OnServerDefaultDate(info);
      case HistoryEvent(points) => OnAnalysisHistory(points);
      case PointEvent(point) => OnNewAnalysisPoint(point);
      case CandleEvent(candle) => OnPendingCandle(candle);
      case MetricsEvent(metrics) => OnPendingMetrics(metrics);
    }

    /** Subscribes one handler and replays the cached payload of its kind to it. */
    method SubscribeOne(r: Registry<Event<M>>, kind: string, cb: Callback) returns (sent: Option<SelectDate>)
      requires r.Valid() && CacheFits(r.latest)
      requires kind in {DateKind, HistoryKind, PointKind, CandleKind, MetricsKind}
      modifies this, r
      ensures r.Valid() && r.latest == old(r.latest)
      ensures r.listeners == old(r.listeners)[kind := old(r.listeners)[kind] + [cb]]
      ensures State() == Replay(old(State()), r.latest, kind)
      ensures sent == if kind in r.latest then SentBy(kind, r.latest[kind]) else None
    {
      sent := None;
      var replayed := r.On(kind, cb);
      if replayed.Some? {
        sent := Handle(kind, replayed.value);
      }
    }

    /** The mount effect: registers the five handlers, one per feed kind, each at the end of
        its list; a handler whose kind has a cached payload is called with it at once, in
        registration order. Only the date handler can send. */
    method Mount(r: Registry<Event<M>>, hs: Handlers) returns (sent: Option<SelectDate>)
      requires r.Valid() && CacheFits(r.latest)
      modifies this, r
      ensures r.Valid() && r.latest == old(r.latest)
      ensures r.listeners == Subscribed(old(r.listeners), hs)
      ensures State() == Mounted(old(State()), r.latest)
      ensures sent == if DateKind in r.latest then SentBy(DateKind, r.latest[DateKind]) else None
    {
      sent := SubscribeOne(r, DateKind, hs.date);
      var _ := SubscribeOne(r, HistoryKind, hs.history);
      var _ := SubscribeOne(r, PointKind, hs.point);
      var _ := SubscribeOne(r, CandleKind, hs.candle);
      var _ := SubscribeOne(r, MetricsKind, hs.metrics);
    }

    /** The cleanup of the mount effect: unregisters the five handlers; the state cells keep
        their values. */
    method Unmount(r: Registry<Event<M>>, hs: Handlers)
      requires r.Valid()
      modifies r
      ensures r.Valid() && r.latest == old(r.latest)
      ensures r.listeners == Unsubscribed(old(r.listeners), hs)
    {
      r.Off(DateKind, hs.date);
      r.Off(HistoryKind, hs.history);
      r.Off(PointKind, hs.point);
      r.Off(CandleKind, hs.candle);
      r.Off(MetricsKind, hs.metrics);
    }
  }

  /** Mounting with new closures and unmounting again leaves the registry's lists as they
      were and its cache untouched. */
  method MountThenUnmount<M>(feed: FeedState<M>, r: Registry<Event<M>>, hs: Handlers)
    requires r.Valid() && CacheFits(r.latest) && Fresh(r.listeners, hs)
    modifies feed, r
    ensures r.Valid() && r.listeners == old(r.listeners) && r.latest == old(r.latest)
  {
    var _ := feed.Mount(r, hs);
    feed.Unmount(r, hs);
    SubscribeUnsubscribe(old(r.listeners), hs);
  }
}
