/** Values shared by every part of the order-book heatmap engine.
    Prices are fixed-point integers (ticks of the pair's price precision),
    volumes are fixed-point integers, event timestamps are milliseconds. */
module Types {

  datatype Option<+T> = None | Some(value: T)

  /** One entry of the price-level ledger (`activePrices`). */
  datatype Level = Level(volume: int, isBid: bool)

  /** One entry of the append-only update log (`priceLevelUpdates`):
      the volume at `price` right after the update. */
  datatype LogEntry = LogEntry(price: int, volume: int, timestamp: int, isBid: bool)

  /** The three shapes of order-book change delivered by the feed. */
  datatype Event =
    | Modification(price: int, newAmount: int, isBid: bool)
    | Removal(price: int, isBid: bool)
    | NewTrade(price: int, amountTraded: int, amountRemaining: int, wasBidFilled: bool)

  /** A change as handed to `renderUpdate`: an event and its timestamp. */
  datatype Change = Change(timestamp: int, event: Event)

  /** One price band: its volume and the time span its current volume
      covers. `blank` marks a band whose volume is still the literal text
      `'0'` that `getInitialBandValues` gives a band no price falls in;
      every write afterwards stores the `toFixed` text of the volume. */
  datatype Band = Band(startTimestamp: real, endTimestamp: real, volume: int, blank: bool)

  /** A record of the `trades` list; the older renderer only stores time and size. */
  datatype Trade =
    | TradeRecord(timestamp: int, volume: int, isBid: bool, price: int)
    | TradeVolume(timestamp: int, volume: int)

  /** An entry of `maxBandVolumeChanges`. */
  datatype VolumeChange = VolumeChange(timestamp: int, volume: int)

  /** A canvas position. */
  datatype Point = Point(x: real, y: real)

  /** The (timestamp, price) a trade-line vertex stands for. */
  datatype PointMeta = PointMeta(timestamp: int, price: int)

  /** A trade line: its vertex metadata and the drawn segments, index for index. */
  datatype TradeLine = TradeLine(pointMeta: seq<PointMeta>, segments: seq<Point>) {
    predicate Valid() { |pointMeta| == |segments| }
  }

  /** A named item of the vector layer (a trade marker circle). */
  datatype Item = Item(name: string, position: Point, radius: real)

  function Max(a: int, b: int): int { if a < b then b else a }

  /** The event's price level. */
  function PriceOf(e: Event): int
  {
    match e
    case Modification(p, _, _) => p
    case Removal(p, _) => p
    case NewTrade(p, _, _, _) => p
  }

  /** The event's side (`isBid`, or `wasBidFilled` for a trade). */
  function SideOf(e: Event): bool
  {
    match e
    case Modification(_, _, b) => b
    case Removal(_, b) => b
    case NewTrade(_, _, _, b) => b
  }
}
