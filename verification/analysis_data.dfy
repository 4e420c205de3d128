/**
 * The records the live feed carries and the chart calls derived from them.
 *
 * Times are `periodStart` values in milliseconds. The chart's own time axis is
 * `periodStart / 1000` seconds; dividing by a positive constant keeps both order
 * and equality, so every comparison below is made on the millisecond key.
 * Prices and dark-pool sums are integer cents, exactly as the feed delivers them.
 */
module AnalysisData {

  /** One price candle; a pending candle has the same shape. */
  datatype Candle = Candle(
    periodStart: int,
    open: int,
    high: int,
    low: int,
    close: int,
    volume: int)

  /** One closed period of market activity. */
  datatype AnalysisPoint = AnalysisPoint(
    candle: Candle,
    sweepAtBid: int,
    sweepAtAsk: int,
    sweepUnknown: int,
    darkPoolSum: int,
    darkPoolVWAP: int,
    largestDarkPoolTxn: int)

  /** A candle is drawable only when all four prices are strictly positive. */
  predicate ValidCandle(c: Candle) {
    c.open > 0 && c.high > 0 && c.low > 0 && c.close > 0
  }

  /** A point carries a dark-pool print worth drawing. */
  predicate HasDarkPool(p: AnalysisPoint) {
    p.darkPoolSum > 0 && p.darkPoolVWAP > 0
  }

  /** A point's key: the start of its period. */
  function TimeOf(p: AnalysisPoint): int {
    p.candle.periodStart
  }

  /** An entry of a chart series: an OHLC bar or a single value (histogram or line). */
  datatype SeriesPoint =
    | Bar(time: int, open: int, high: int, low: int, close: int)
    | Level(time: int, value: int)

  /** The three sweep histograms. */
  datatype Side = AtBid | AtAsk | Unknown

  /** The four dark-pool marker series, one per magnitude class. */
  datatype Bucket = Small | Medium | Large | XLarge

  /** The eight series the chart shows. */
  datatype SeriesId = Candles | Sweep(side: Side) | DarkPool(bucket: Bucket)

  /** A call made on the chart library, recorded instead of executed. */
  datatype ChartCall =
    | SetData(series: SeriesId, points: seq<SeriesPoint>)
    | Update(series: SeriesId, point: SeriesPoint)
    | SetVisibleRange(from: int, to: int)
    | FitContent

  /** The bar a candle is drawn as (the volume is not drawn). */
  function BarOf(c: Candle): SeriesPoint {
    Bar(c.periodStart, c.open, c.high, c.low, c.close)
  }

  /** The sweep volume of one side. */
  function SweepValue(p: AnalysisPoint, side: Side): int {
    match side
    case AtBid => p.sweepAtBid
    case AtAsk => p.sweepAtAsk
    case Unknown => p.sweepUnknown
  }

  /** 100 million dollars, 500 million dollars and 1000 million dollars, in cents. */
  const MediumFloor: int := 10_000_000_000
  const LargeFloor: int := 50_000_000_000
  const XLargeFloor: int := 100_000_000_000

  /** The magnitude class of a dark-pool dollar volume given in cents. */
  function BucketOf(cents: int): (b: Bucket)
    ensures b == Small <==> cents < MediumFloor
    ensures b == Medium <==> MediumFloor <= cents < LargeFloor
    ensures b == Large <==> LargeFloor <= cents < XLargeFloor
    ensures b == XLarge <==> XLargeFloor <= cents
  {
    if cents < MediumFloor then Small
    else if cents < LargeFloor then Medium
    else if cents < XLargeFloor then Large
    else XLarge
  }
}
