# Elphie live chart: a Dafny model

This project models the client-side core of the Elphie market-microstructure viewer. A live
websocket feed delivers closed analysis points, one per period. Each point has a price candle, the
sweep volumes at bid, at ask and unknown, and a dark-pool sum and VWAP. The feed also delivers
history snapshots, a forming ("pending") candle, pending metrics and a server default date. The client turns these into eight chart series:

- one candlestick series;
- three sweep histograms;
- four dark-pool marker series, one per magnitude class.

The model covers three parts of the client:

- **Listener registry** (`src/services/websocketService.js`), in `websocket_service.dfy`.
  - A `Registry` class holds one callback list per event kind and a cache of the latest payload
    per kind.
  - `On` appends a callback and replays the cached payload to it.
  - `Off` removes the first occurrence of a callback.
  - `OnMessage` dispatches a decoded message. It drops messages without a type or with an unknown
    type, takes the payload from `data` when present, caches it, and calls the kind's callbacks in
    order until one throws.
  - `SelectDateMessage` builds the outgoing `select_date` message.
- **Feed hook** (`src/hooks/useElphieWebSocket.js`), in `elphie_feed.dfy`.
  - A `FeedState` class holds the four state cells: history, pending candle, pending metrics and
    selected date.
  - There is one method per handler, plus `SelectDate`.
  - `Mount` and `Unmount` subscribe and unsubscribe the five handlers on a registry; mounting
    replays cached payloads.
  - Each handler is proved against the pure transition function `Apply`.
- **Chart component** (`src/components/ElphieChart.jsx`), in `analysis_data.dfy`, `series.dfy`,
  `circle_size.dfy`, `elphie_chart.dfy` and `chart_properties.dfy`.
  - The data effect builds its `Map`s and bucket arrays in loops: `CandleMap`, `SweepMaps`,
    `DarkPoolBySize` and `SortAndDedupe`.
  - It then either replaces every series or updates the newest point, under the
    `isHistoryLoaded` flag (class `Chart`).
  - It frames the initial visible range.
  - The crosshair lookup finds the first raw point at the hovered time.
  - The pending-candle effect draws the forming bar.
  - The marker-size helper `calculateDarkPoolCircleSize` is a loop over a calibration table. The
    component defines it but never calls it: the four dark-pool series draw fixed radii 3, 5, 7
    and 9, so the size hint does not drive the markers.
  - Calls to the chart library are recorded as `ChartCall` values instead of being executed.

`feed_to_chart.dfy` composes the hook with the chart:

- a date switch, then a snapshot;
- a live point on a loaded chart;
- a late point arriving after a date switch.

**Units.**

- Times are `periodStart` in milliseconds. The chart's axis uses `periodStart / 1000`, and dividing
  by a positive constant keeps order and equality, so the model compares millisecond keys. The two
  hours and five minutes of the visible range are written in milliseconds.
- Prices and dark-pool sums are integer cents, as the feed delivers them.
- The dark-pool classes are exact cent thresholds: 10^10, 5·10^10 and 10^11 cents, i.e. 100M, 500M
  and 1000M dollars.
- The marker size uses exact reals, with `Math.round(x)` as `floor(x + 1/2)`.

**Series.** A JavaScript `Map` keeps insertion order and has unique keys. It is modelled as a
sequence of entries with unique times. `Array.prototype.sort` with a time comparator is modelled as
a stable insertion sort, `SortByTime`, which is proved to return a permutation that is strictly
ascending when times are unique. Every series the effect builds is
`SortByTime(FirstWins(Project(history, selector)))`:

- `Project` keeps the points the series accepts, in history order;
- `FirstWins` keeps the first entry per time.

`CandleMap`, `SweepMaps`, `DarkPoolBySize` and `SortAndDedupe` are proved to compute exactly
that.

**Where the code and the specification of the system differ, the model follows the code:**

- **A new point is appended blindly.** `new_analysis_point` appends even when a point with the same
  period is already in the history. The specification asks for an upsert with last-write-wins.
  - On a loaded chart, the incremental update redraws the newest bar of the deduplicated candle
    series. That bar is first-write-wins, so a re-delivered period keeps its first prices (see
    `ChartProperties.RedeliveredPeriodKeepsFirstBar`).
  - The sweep updates carry the newest values.
- **The pending guard looks the other way.** The specification discards a pending candle older
  than the last closed point. The code draws every valid pending candle. Instead, it skips the
  whole closed-point update (candle, sweeps and dark pool) when the pending candle is newer than
  the latest closed point (see `ChartProperties.IncrementalGuard`).
- **Late appends are not gated.** The specification ignores appends until the new snapshot arrives
  after a session switch. The code accepts them, and the chart full-loads the stale point (see
  `FeedToChart.LateAppendAfterSwitch`).
- **A snapshot on a loaded chart is not fully drawn.** While the loaded flag is set, a new
  snapshot only gets the incremental update of its newest values. This follows a late append after
  a switch (the stale point sets the flag) and a server default date on a loaded chart (the history
  is kept, so the flag never resets); see `FeedToChart.SnapshotOnLoadedChart` and
  `FeedToChart.DefaultDateThenSnapshot`.
- **An empty bucket is not cleared.** On a full load, a dark-pool class with no points gets no
  `setData` call, so that series keeps what it held before (see
  `ChartProperties.FullLoadSetsOnlyFilledBucket`).

## Model

| member | source | states |
|---|---|---|
| AnalysisData.BucketOf | src/components/ElphieChart.jsx:361-375 | a sum in cents is small below 100M dollars, medium below 500M, large below 1000M and xlarge otherwise, each as an if-and-only-if |
| Series.SortByTimeSpec | src/components/ElphieChart.jsx:307 | the model of the time sort is a permutation of its input of the same length, strictly ascending when the times are unique |
| Series.SeriesDataSpec | src/components/ElphieChart.jsx:292-307 | a derived series is strictly ascending, has a time exactly when some accepted point has it, and holds exactly the entry of the first accepted point at each time |
| Series.DerivedHasTime | src/components/ElphieChart.jsx:296 | the deduplicated map has a time exactly when an accepted point has that time |
| Series.DerivedMember | src/components/ElphieChart.jsx:388-392 | an entry is in the deduplicated map exactly when it comes from the first accepted point at its time |
| CircleSize.Round | src/components/ElphieChart.jsx:42 | rounding lands within one half of its argument, halves rounding up |
| CircleSize.CalculateDarkPoolCircleSize | src/components/ElphieChart.jsx:19-48 | the scan over the calibration table returns the reference size of the sum in millions of dollars |
| CircleSize.SizeHintInterpolates | src/components/ElphieChart.jsx:39-43 | on each segment of the table the size is the rounded linear interpolation between its end points |
| CircleSize.SizeHintRange | src/components/ElphieChart.jsx:23-47 | the size is always between 2 and 10 pixels |
| CircleSize.SizeHintAtCalibration | src/components/ElphieChart.jsx:23-37 | at each calibration value the size is that point's size |
| CircleSize.SizeHintClamped | src/components/ElphieChart.jsx:35-47 | sums up to 10M dollars give 2 and sums above 2000M dollars give 10 |
| CircleSize.SizeHintHalfway | src/components/ElphieChart.jsx:39-42 | 17.5M dollars gives 3 |
| CircleSize.SizeHintMonotone | src/components/ElphieChart.jsx:23-43 | a larger sum never gets a smaller marker |
| ElphieChart.CandleMap | src/components/ElphieChart.jsx:292-306 | the loop builds the first-valid-bar-per-time map of the history |
| ElphieChart.SweepTimesAgree | src/components/ElphieChart.jsx:321-325 | the three sweep maps have the same times at every prefix of the history |
| ElphieChart.SweepStep | src/components/ElphieChart.jsx:319-326 | one step of the sweep pass grows all three maps together, exactly when the bid map lacks the time |
| ElphieChart.SweepMaps | src/components/ElphieChart.jsx:315-326 | the loop builds the three first-point-per-time sweep maps, checking only the bid map |
| ElphieChart.DarkPoolBySize | src/components/ElphieChart.jsx:358-376 | the loop pushes every point with a dark-pool print, in order, onto exactly the array of its class |
| ElphieChart.SortAndDedupe | src/components/ElphieChart.jsx:386-394 | the result is the first entry per time, sorted by time |
| ElphieChart.ProjectNonEmpty | src/components/ElphieChart.jsx:333-348 | a selection is non-empty exactly when some point of the history is accepted |
| ElphieChart.BucketLoad | src/components/ElphieChart.jsx:396-407 | a class's series is set, sorted and deduplicated, only when its array is non-empty |
| ElphieChart.DarkPoolLoad | src/components/ElphieChart.jsx:348-408 | the dark-pool part of a full load makes one `setData` per non-empty class, in class order |
| ElphieChart.FullLoad | src/components/ElphieChart.jsx:340-425 | the full-load branch sets the candle, the three sweep and the non-empty dark-pool series, then frames the view |
| ElphieChart.IncrementalUpdate | src/components/ElphieChart.jsx:427-466 | the incremental branch makes exactly the calls of the incremental specification |
| ElphieChart.Chart.constructor | src/components/ElphieChart.jsx:63 | a new chart has not loaded any history |
| ElphieChart.Chart.Dispose | src/components/ElphieChart.jsx:219-222 | unmount cleanup clears the loaded flag |
| ElphieChart.Chart.OnDataChange | src/components/ElphieChart.jsx:277-467 | an empty history resets the flag and draws nothing; unready series skip; otherwise a full load when the flag is clear, which sets it, and an incremental update when set |
| ElphieChart.PendingCandleCalls | src/components/ElphieChart.jsx:485-498 | the forming bar is drawn exactly when it exists, the series exists and all four prices are positive |
| ElphieChart.FindAt | src/components/ElphieChart.jsx:236 | the lookup returns the first point at the time, and none only when no point has it |
| ElphieChart.CrosshairPoint | src/components/ElphieChart.jsx:229-240 | no hovered time (or time 0) gives none; otherwise the first point at that time |
| ChartProperties.CandleSeriesSpec | src/components/ElphieChart.jsx:292-307 | the candle series is strictly ascending, has only positive prices, and holds exactly the bar of the first valid point per time, so an earlier invalid duplicate does not block a later valid one |
| ChartProperties.SweepSeriesSpec | src/components/ElphieChart.jsx:315-330 | each sweep series is strictly ascending, has one entry per distinct period of the history, and takes the first point at each time whatever its prices |
| ChartProperties.SweepKeysAgree | src/components/ElphieChart.jsx:319-326 | the three sweep series have the same times |
| ChartProperties.DarkPoolSeriesSpec | src/components/ElphieChart.jsx:358-407 | each dark-pool series is strictly ascending, has exactly the times of its class's points, and takes the VWAP of the first such point per time |
| ChartProperties.DarkPoolTimesCovered | src/components/ElphieChart.jsx:333-376 | a time has a dark-pool print exactly when it appears in some dark-pool series |
| ChartProperties.SameTimeInTwoBuckets | src/components/ElphieChart.jsx:358-407 | for any history, two points of one period with dark-pool sums in different classes put that time in both classes' series |
| ChartProperties.VisibleRangeBounds | src/components/ElphieChart.jsx:412-421 | for sorted bars the window starts between the first and last bar, spans at most two hours, excludes bars before the last 120, and ends five minutes after the last bar |
| ChartProperties.FullLoadFraming | src/components/ElphieChart.jsx:412-424 | a full load ends with a visible range inside the candle times when there are candles, and with fit-content otherwise |
| ChartProperties.SeriesAscending | src/components/ElphieChart.jsx:307 | every derived series is strictly ascending |
| ChartProperties.PriceAndSweepAscending | src/components/ElphieChart.jsx:342-346 | the candle and sweep `setData` calls hand over strictly ascending series |
| ChartProperties.DarkPoolAscending | src/components/ElphieChart.jsx:396-407 | the dark-pool `setData` calls hand over strictly ascending series |
| ChartProperties.FullLoadAscending | src/components/ElphieChart.jsx:340-407 | every series handed to `setData` on a full load is strictly ascending |
| ChartProperties.FullLoadDarkPoolCalls | src/components/ElphieChart.jsx:396-407 | the only dark-pool `setData` calls of a full load are the per-class calls |
| ChartProperties.FullLoadSetsOnlyFilledBucket | src/components/ElphieChart.jsx:396-407 | a dark-pool series is set only with its own class's series and only when the class has a point |
| ChartProperties.FullLoadSetsFilledBucket | src/components/ElphieChart.jsx:358-407 | the series of every class that some point falls in is set |
| ChartProperties.IncrementalGuard | src/components/ElphieChart.jsx:430-446 | the incremental update is empty exactly when a newer pending candle exists, and otherwise always updates the three sweeps with the latest values |
| ChartProperties.IncrementalCandleIsNewest | src/components/ElphieChart.jsx:437-442 | the bar updated is the newest bar of the candle series, no older than the latest point and no older than any valid point |
| ChartProperties.IncrementalCandleGate | src/components/ElphieChart.jsx:432-442 | a candle bar is updated exactly when no newer pending candle holds the update back and all four prices of the latest point are positive, and the bar is then the newest bar of the candle series |
| ChartProperties.IncrementalDarkPoolGate | src/components/ElphieChart.jsx:448-464 | a dark-pool marker is updated exactly when no newer pending candle holds the update back and the latest point has a positive sum and VWAP, and it goes to the series of that sum's class at the latest time and VWAP |
| ChartProperties.RedeliveredCandleSeries | src/components/ElphieChart.jsx:292-307 | a period delivered twice with valid prices leaves only the first delivery's bar in the candle series |
| ChartProperties.RedeliveredPeriodKeepsFirstBar | src/components/ElphieChart.jsx:437-446 | for a period delivered twice, the incremental update redraws the first delivery's bar while the sweeps take the second delivery's values |
| ChartProperties.CrosshairSpec | src/components/ElphieChart.jsx:229-240 | a point is shown exactly when the hovered time is set, non-zero and present, and it is the first point at that time |
| WebsocketService.PayloadOf | src/services/websocketService.js:36 | the payload is the message's `data` when it has one and the whole message otherwise |
| WebsocketService.RemoveFirst | src/services/websocketService.js:60-67 | removing an absent callback changes nothing; removing a present one shortens the list by one |
| WebsocketService.RemoveFirstMultiset | src/services/websocketService.js:62-65 | exactly one copy of the callback is taken away, if any |
| WebsocketService.RemoveFirstSplice | src/services/websocketService.js:62-65 | splicing at the first index is removing the first occurrence |
| WebsocketService.RemoveFirstAfterAppend | src/services/websocketService.js:52-66 | `off` after `on` restores a list the callback was not on; otherwise the older copy goes |
| WebsocketService.IndexOf | src/services/websocketService.js:62 | the index is the first occurrence, or -1 exactly when the callback is absent |
| WebsocketService.CalledUntilThrowSpec | src/services/websocketService.js:38-41 | callbacks are called in order, all of them when none throws, stopping right after the first that throws |
| WebsocketService.Deliver | src/services/websocketService.js:38 | the loop calls exactly the callbacks the dispatch specification names |
| WebsocketService.Registry.constructor | src/services/websocketService.js:5-17 | one empty list per known kind and an empty cache |
| WebsocketService.Registry.On | src/services/websocketService.js:52-59 | an unknown kind changes nothing; a known kind appends the callback and replays the cached payload once |
| WebsocketService.Registry.Off | src/services/websocketService.js:60-67 | the first occurrence is removed from a known kind's list; nothing else changes |
| WebsocketService.Registry.OnMessage | src/services/websocketService.js:24-42 | unparsable, untyped or unknown messages change nothing; otherwise the payload is cached and the kind's callbacks are called in order until one throws |
| WebsocketService.ReplayToLateSubscriber | src/services/websocketService.js:36-57 | a payload dispatched with no listeners is replayed to the next subscriber |
| WebsocketService.OnThenOff | src/services/websocketService.js:52-66 | subscribing a new callback and unsubscribing it restores the registry |
| WebsocketService.SelectDateMessage | src/services/websocketService.js:68-71 | the message has the date, and has ticker and interval exactly when they are non-empty |
| ElphieFeed.DefaultDate | src/hooks/useElphieWebSocket.js:11-13 | a default date is taken exactly when the info has a non-empty date |
| ElphieFeed.SelectionMessage | src/hooks/useElphieWebSocket.js:54-56 | an own `date` in the options overrides the selected date in the message |
| ElphieFeed.ApplySpec | src/hooks/useElphieWebSocket.js:11-36 | snapshot replaces only the history; point appends (length plus one, prefix kept); pending cells replace only themselves; default date selects without clearing or is a no-op |
| ElphieFeed.MountedSpec | src/hooks/useElphieWebSocket.js:38-42 | mounting against a cache leaves the cached snapshot followed by the cached point, and the cached pending cells and default date |
| ElphieFeed.SubscribeUnsubscribe | src/hooks/useElphieWebSocket.js:38-51 | cleanup removes exactly the five handlers the mount added and never touches other kinds |
| ElphieFeed.FeedState.constructor | src/hooks/useElphieWebSocket.js:5-8 | empty history, nothing pending or selected |
| ElphieFeed.FeedState.OnServerDefaultDate | src/hooks/useElphieWebSocket.js:11-16 | a missing or empty date is a no-op; otherwise the date is selected and sent with ticker and interval, and the history is kept |
| ElphieFeed.FeedState.OnAnalysisHistory | src/hooks/useElphieWebSocket.js:18-21 | the snapshot replaces the history; the other cells are kept |
| ElphieFeed.FeedState.OnNewAnalysisPoint | src/hooks/useElphieWebSocket.js:23-26 | the point is appended without deduplication; the other cells are kept |
| ElphieFeed.FeedState.OnPendingCandle | src/hooks/useElphieWebSocket.js:28-31 | only the pending candle is replaced |
| ElphieFeed.FeedState.OnPendingMetrics | src/hooks/useElphieWebSocket.js:33-36 | only the pending metrics are replaced |
| ElphieFeed.FeedState.SelectDate | src/hooks/useElphieWebSocket.js:54-61 | the date is selected, one message is sent, and history and both pending cells are cleared |
| ElphieFeed.FeedState.Handle | src/hooks/useElphieWebSocket.js:11-36 | a handler call moves the cells by the transition function and sends what it names |
| ElphieFeed.FeedState.SubscribeOne | src/hooks/useElphieWebSocket.js:38-42 | one subscription appends the handler and replays its kind's cache to it |
| ElphieFeed.FeedState.Mount | src/hooks/useElphieWebSocket.js:38-42 | the five handlers are appended, one per kind, and the cache is replayed in registration order |
| ElphieFeed.FeedState.Unmount | src/hooks/useElphieWebSocket.js:45-51 | the first occurrence of each of the five handlers is removed |
| ElphieFeed.MountThenUnmount | src/hooks/useElphieWebSocket.js:38-51 | mount then cleanup with new closures restores the registry |
| FeedToChart.SwitchDate | src/hooks/useElphieWebSocket.js:54-61 | after a date switch the chart resets, and the next snapshot is drawn by a full load |
| FeedToChart.LivePoint | src/hooks/useElphieWebSocket.js:23-26 | a live point on a loaded chart gives the incremental update of the extended history |
| FeedToChart.LateAppendAfterSwitch | src/hooks/useElphieWebSocket.js:23-26 | a point arriving after a date switch but before the snapshot becomes the whole history and is full-loaded |
| FeedToChart.SnapshotOnLoadedChart | src/hooks/useElphieWebSocket.js:18-21 | a snapshot arriving while the chart is loaded replaces the history but is drawn only by the incremental update of its newest values |
| FeedToChart.DefaultDateThenSnapshot | src/hooks/useElphieWebSocket.js:11-16 | a server default date on a loaded chart keeps the history and the flag, so the following snapshot is drawn only incrementally |

## Left out

- Socket creation, `onopen`, `onclose` and its timed page reload (`src/services/websocketService.js:1-3, 19-22, 44-49`) are I/O and are not modelled.
- `socket.send`, `JSON.parse` and `JSON.stringify` are not modelled.
  - A parse result is an `Option<Message>` input, where `None` stands for a parse failure or a falsy message.
  - `SelectDateMessage` and the hook methods return the message instead of sending it.
  - Console logging is dropped.
- WebsocketService.Registry.OnMessage: does not model event kinds that are property names inherited by plain objects (such as `constructor`). Only the eight listed kinds have lists.
- WebsocketService.Registry.On: an inherited property name as the kind (such as `constructor`) passes the test at `src/services/websocketService.js:53` and then throws on `push`. This is not modelled; only the eight listed kinds have lists, and any other kind changes nothing.
- WebsocketService.Registry.OnMessage: callbacks are integer ids. What a callback does is modelled separately, for the hook's handlers in `FeedState.Handle`, and `throwing` says which callbacks throw.
- Re-entrant `on`/`off` calls made from inside a callback are not modelled.
- ElphieFeed.FeedState.OnAnalysisHistory: a `null` snapshot is not modelled. The history is always a sequence, and the chart's test for a missing history (`src/components/ElphieChart.jsx:278`) is modelled only as the empty case.
- ElphieFeed.FeedState.Mount: requires cached payloads of the hook's five kinds to have their kind's shape. A payload of another shape (a non-array snapshot, say) is not modelled.
- ElphieFeed.SelectionMessage: an options object whose own `date` property is `undefined` is modelled as having no `date`.
- Rendering is not modelled:
  - chart construction and series styling (`src/components/ElphieChart.jsx:81-223`);
  - the legend DOM (`src/components/ElphieChart.jsx:242-266`);
  - the resize listener (`src/components/ElphieChart.jsx:470-482`);
  - `formatMillions` (`src/components/ElphieChart.jsx:6-16`);
  - the `/ 100` dollar scaling of prices, which is display scaling in floating point.
- The chart library is a recorder of `setData`, `update`, `setVisibleRange` and `fitContent` calls, not an implementation.
- ElphieChart.CrosshairPoint: does not model the case where the legend element is missing. There the handler throws on the `innerHTML` assignment (`src/components/ElphieChart.jsx:231`) before anything is reported or cleared. The case cannot arise once the init effect has created the legend.
- Series readiness is a boolean input: `ElphieChart.Chart.OnDataChange` takes `seriesReady` for the test at `src/components/ElphieChart.jsx:284-286`. The per-series null checks inside the dark-pool branches are covered by it.
- IEEE floating point is replaced by exact arithmetic:
  - `sumInMillions` in the class thresholds and the marker size;
  - `Math.round`;
  - the seconds conversion.
- React scheduling is not modelled. Each effect run or state update is one method call, in delivery order.
- `src/App.jsx` is not part of this model.
