/** `renderUpdate`: one order-book change applied to the engine. The change
    is classified, its signed volume change at its price is computed, the
    trade lines are updated, the ledger and the log record the new volume,
    and then exactly one band is adjusted, unless the change calls for a
    full `histRender` first (an auto-zoom on an edge trade, a new shading
    maximum, or a change close to the right edge of the window). */
module Render {
  import opened Types
  import opened Calc
  import opened Ledger
  import opened State
  import opened BandDrawing
  import opened PaperRender
  import opened HistRender
  import opened VolumeText

  /** `volumeDiff`: how much the volume at the change's price moves. A
      modification moves it to the new amount, a removal to nothing, and a
      trade leaves it where it is. */
  function VolumeDiff(m: map<int, Level>, e: Event): (d: int)
    ensures Vol(m, PriceOf(e)) + d ==
      match e
      case Modification(_, newAmount, _) => newAmount
      case Removal(_, _) => 0
      case NewTrade(_, _, _, _) => Vol(m, PriceOf(e))
  {
    match e
    case Modification(p, newAmount, _) => newAmount - Vol(m, p)
    case Removal(p, _) => -Vol(m, p)
    case NewTrade(_, _, _, _) => 0
  }

  /** `newPriceVolume`: the volume the ledger and the log record, clamped at zero. */
  function NewVolume(m: map<int, Level>, e: Event): (r: int)
    ensures r >= 0
    ensures e.Modification? ==> r == Max(0, e.newAmount)
    ensures e.Removal? ==> r == 0
    ensures e.NewTrade? ==> r == Max(0, Vol(m, e.price))
  {
    var n := VolumeDiff(m, e) + Vol(m, PriceOf(e));
    if n < 0 then 0 else n
  }

  /** Removing a price the ledger does not hold changes nothing. */
  lemma RemovalOfAbsentPrice(m: map<int, Level>, p: int, isBid: bool)
    requires p !in m
    ensures VolumeDiff(m, Removal(p, isBid)) == 0
  {
  }

  /** The changes the feed delivers: no modification to a negative amount. */
  predicate WellFormed(e: Event)
  {
    e.Modification? ==> e.newAmount >= 0
  }

  /** On a well-formed change and a ledger without negative volumes the
      clamp never bites: the recorded volume is the old one plus the diff. */
  lemma NoClamp(m: map<int, Level>, e: Event)
    requires WellFormed(e) && NonNegative(m)
    ensures NewVolume(m, e) == Vol(m, PriceOf(e)) + VolumeDiff(m, e)
  {
  }

  /** The log entry a change appends. */
  function Entry(m: map<int, Level>, c: Change): (r: LogEntry)
    ensures r.price == PriceOf(c.event) && r.timestamp == c.timestamp && r.isBid == SideOf(c.event)
    ensures r.volume == NewVolume(m, c.event)
  {
    LogEntry(PriceOf(c.event), NewVolume(m, c.event), c.timestamp, SideOf(c.event))
  }

  /** The record a trade adds to `trades`. */
  function TradeOf(c: Change): seq<Trade>
  {
    match c.event
    case NewTrade(p, amountTraded, _, wasBidFilled) => [TradeRecord(c.timestamp, amountTraded, wasBidFilled, p)]
    case _ => []
  }

  /** A change no earlier than anything in the log. */
  predicate StampedAfter(log: seq<LogEntry>, timestamp: int)
  {
    forall j :: 0 <= j < |log| ==> log[j].timestamp <= timestamp
  }

  /** The ledger and log part of the engine's invariant. */
  ghost predicate LedgerMatches(v: VizState)
    reads v`activePrices, v`priceLevelUpdates
  {
    v.activePrices == LastWriteWins(v.priceLevelUpdates) &&
    TimeSorted(v.priceLevelUpdates) && NonNegative(v.activePrices)
  }

  /** Recording a change keeps the ledger the log's last-write-wins view,
      keeps the log sorted, and no volume becomes negative. */
  lemma RecordKeepsLedger(log: seq<LogEntry>, m: map<int, Level>, c: Change)
    requires m == LastWriteWins(log) && TimeSorted(log) && NonNegative(m)
    requires StampedAfter(log, c.timestamp)
    ensures var e := Entry(m, c);
      m[e.price := Level(e.volume, e.isBid)] == LastWriteWins(log + [e]) &&
      TimeSorted(log + [e]) && NonNegative(m[e.price := Level(e.volume, e.isBid)])
  {
    var e := Entry(m, c);
    LastWriteWinsAppend(log, e);
    SortedAppend(log, e);
  }

  /** On a well-formed change the recorded ledger is the old one with the
      diff added at the change's price, and that volume is not negative. */
  lemma RecordAddsDiff(m: map<int, Level>, c: Change)
    requires NonNegative(m) && WellFormed(c.event)
    ensures var e := Entry(m, c);
      var p, d := PriceOf(c.event), VolumeDiff(m, c.event);
      Vol(m, p) + d >= 0 &&
      m[e.price := Level(e.volume, e.isBid)] == m[p := Level(Vol(m, p) + d, SideOf(c.event))]
  {
    NoClamp(m, c.event);
  }

  // ---------------------------------------------------------------------
  // Auto-zoom on edge trades

  /** A trade within half a percent of the top of the window. */
  predicate NearTop(price: int, maxPrice: int) { 1000 * price >= 995 * maxPrice }

  /** A trade within half a percent of the bottom of the window. */
  predicate NearBottom(price: int, minPrice: int) { 1000 * price <= 1005 * minPrice }

  /** `(maxPrice * 1.003).toFixed(...)`: 0.3% more, rounded half up. */
  function WidenMax(maxPrice: int): (r: int)
    requires maxPrice >= 0
    ensures 1003 * maxPrice - 500 < 1000 * r <= 1003 * maxPrice + 500
    ensures maxPrice <= r
  {
    (1003 * maxPrice + 500) / 1000
  }

  /** `(minPrice * .997).toFixed(...)`: 0.3% less, rounded half up. */
  function NarrowMin(minPrice: int): (r: int)
    requires minPrice >= 0
    ensures 997 * minPrice - 500 < 1000 * r <= 997 * minPrice + 500
    ensures 0 <= r <= minPrice
  {
    (997 * minPrice + 500) / 1000
  }

  /** Whether the change zooms the top of the window out. */
  predicate WidensTop(manualZoom: bool, e: Event, maxPrice: int)
  {
    !manualZoom && e.NewTrade? && NearTop(e.price, maxPrice)
  }

  /** Whether the change zooms the bottom of the window out (and so asks
      the rebuild to recalculate the shading maximum). */
  predicate WidensBottom(manualZoom: bool, e: Event, minPrice: int, maxPrice: int)
  {
    !manualZoom && e.NewTrade? && !NearTop(e.price, maxPrice) && NearBottom(e.price, minPrice)
  }

  /** The price window after the auto-zoom check. */
  function ZoomedWindow(manualZoom: bool, e: Event, minPrice: int, maxPrice: int): (r: (int, int))
    requires 0 <= minPrice < maxPrice
  {
    if WidensTop(manualZoom, e, maxPrice) then (minPrice, WidenMax(maxPrice))
    else if WidensBottom(manualZoom, e, minPrice, maxPrice) then (NarrowMin(minPrice), maxPrice)
    else (minPrice, maxPrice)
  }

  /** Auto-zoom only widens the window, keeps its prices non-negative, and
      fires only for trades when zoom is automatic. */
  lemma ZoomOnlyWidens(manualZoom: bool, e: Event, minPrice: int, maxPrice: int)
    requires 0 <= minPrice < maxPrice
    ensures var r := ZoomedWindow(manualZoom, e, minPrice, maxPrice);
      0 <= r.0 <= minPrice && maxPrice <= r.1 &&
      (r != (minPrice, maxPrice) ==> !manualZoom && e.NewTrade?)
  {
  }

  /** A trade at the very top of the window always widens it (once the
      top is at least 167 ticks, where 0.3% rounds to a whole tick). */
  lemma TopTradeWidens(e: Event, minPrice: int, maxPrice: int)
    requires 0 <= minPrice < maxPrice && 167 <= maxPrice && e.NewTrade? && e.price >= maxPrice
    ensures ZoomedWindow(false, e, minPrice, maxPrice).1 > maxPrice
  {
  }

  // ---------------------------------------------------------------------
  // The time rule

  /** A change in the last 5% of the time window. */
  predicate NearRightEdge(timestamp: int, minTimestamp: real, maxTimestamp: real)
  {
    timestamp as real > minTimestamp + 0.95 * (maxTimestamp - minTimestamp)
  }

  /** The right edge moved out by a fifth of the window. */
  function Stretched(minTimestamp: real, maxTimestamp: real): (r: real)
    requires minTimestamp < maxTimestamp
    ensures r > maxTimestamp
    ensures r - minTimestamp == 1.2 * (maxTimestamp - minTimestamp)
  {
    maxTimestamp + 0.2 * (maxTimestamp - minTimestamp)
  }

  /** After stretching, a change that triggered it lies well inside again:
      at most 0.95 / 1.2 of the way across (below 80%), if it was inside
      the old window. */
  lemma StretchMakesRoom(timestamp: int, minTimestamp: real, maxTimestamp: real)
    requires minTimestamp < maxTimestamp && timestamp as real <= maxTimestamp
    ensures !NearRightEdge(timestamp, minTimestamp, Stretched(minTimestamp, maxTimestamp))
  {
  }

  // ---------------------------------------------------------------------
  // Band arithmetic behind the invariant

  lemma {:induction false} SumBandCovers(m: map<int, Level>, keys: set<int>, w: PriceWindow, p: int)
    requires w.Valid() && NonNegative(m) && p in keys
    ensures Contribution(m, w, BandIndex(w, p), p) <= SumBand(m, keys, w, BandIndex(w, p))
  {
    SumBandRemove(m, keys, w, BandIndex(w, p), p);
    SumBandNonNegative(m, keys - {p}, w, BandIndex(w, p));
  }

  /** A band holds at least the volume of each price in it. */
  lemma BandTotalCovers(m: map<int, Level>, w: PriceWindow, p: int)
    requires w.Valid() && NonNegative(m)
    ensures Vol(m, p) <= BandTotal(m, w, BandIndex(w, p))
  {
    if p in m {
      SumBandCovers(m, m.Keys, w, p);
    } else {
      BandTotalNonNegative(m, w, BandIndex(w, p));
    }
  }

  /** The in-window step of `renderUpdate` keeps the bands holding the
      ledger: the clamped band volume is the exact one. */
  lemma BandStepHolds(bands: seq<Band>, m: map<int, Level>, w: PriceWindow, p: int, isBid: bool,
                      diff: int, timestamp: real)
    requires w.Valid() && BandsHold(bands, m, w) && NonNegative(m)
    requires 0 <= BandIndex(w, p) < w.priceGranularity && Vol(m, p) + diff >= 0
    ensures var b := BandIndex(w, p);
      BandsHold(bands[b := Band(timestamp, timestamp, Max(0, bands[b].volume + diff), false)],
                m[p := Level(Vol(m, p) + diff, isBid)], w)
  {
    var b := BandIndex(w, p);
    BandTotalCovers(m, w, p);
    var e := LogEntry(p, Vol(m, p) + diff, 0, isBid);
    BandsHoldStep(bands, bands[b := Band(timestamp, timestamp, Max(0, bands[b].volume + diff), false)], m, e, w);
  }

  /** A change outside the window leaves every band total as it was. */
  lemma OffWindowHolds(bands: seq<Band>, m: map<int, Level>, w: PriceWindow, p: int, l: Level)
    requires w.Valid() && BandsHold(bands, m, w)
    requires !(0 <= BandIndex(w, p) < w.priceGranularity)
    ensures BandsHold(bands, m[p := l], w)
  {
    forall i | 0 <= i < |bands| ensures bands[i].volume == BandTotal(m[p := l], w, i) {
      BandTotalUpdate(m, p, l, w, i);
    }
  }

  /** With a negative new amount the clamps of the ledger and of the band
      disagree: two prices of 3 and 4 in one band, the first modified to
      -2, leave the ledger holding 0 + 4 while the band holds max(0, 7 - 5). */
  lemma NegativeAmountBreaksBands()
    ensures var w := PriceWindow(0, 10, 1);
      var m := map[5 := Level(3, true), 6 := Level(4, true)];
      var e := Modification(5, -2, true);
      var diff := VolumeDiff(m, e);
      BandTotal(m, w, 0) == 7 &&
      Max(0, BandTotal(m, w, 0) + diff) == 2 &&
      BandTotal(m[5 := Level(NewVolume(m, e), true)], w, 0) == 4
  {
    var w := PriceWindow(0, 10, 1);
    var m1: map<int, Level> := map[5 := Level(3, true)];
    var m := m1[6 := Level(4, true)];
    assert BandIndex(w, 5) == 0 && BandIndex(w, 6) == 0;
    assert BandTotal(map[], w, 0) == 0;
    BandTotalUpdate(map[], 5, Level(3, true), w, 0);
    assert map[][5 := Level(3, true)] == m1;
    BandTotalUpdate(m1, 6, Level(4, true), w, 0);
    BandTotalUpdate(m, 5, Level(0, true), w, 0);
  }

  // ---------------------------------------------------------------------
  // The state machine

  /** The engine's invariant apart from `Valid`: the ledger matches the
      log and the bands hold the ledger. */
  ghost predicate Holds(v: VizState)
    reads v`activePrices, v`priceLevelUpdates, v`activeBands, v`minPrice, v`maxPrice, v`priceGranularity
  {
    LedgerMatches(v) && v.Window().Valid() && BandsHold(v.activeBands, v.activePrices, v.Window())
  }

  lemma HoldsIsConsistent(v: VizState)
    ensures v.Consistent() <==> v.Valid() && Holds(v)
  {
  }

  /** `renderUpdate(vizState, change, canvas)`. The ledger takes the
      change's clamped new volume, the log grows by exactly that entry, a
      trade adds exactly one trade record, the price window only widens and
      only by auto-zoom, the time window only grows and only for a change
      near its right edge, the shading maximum falls only on the rebuild
      that recalculates it, and on a well-formed change no earlier than the
      log the engine's invariant is kept. */
  method RenderUpdate(v: VizState, change: Change)
    requires v.Valid()
    requires change.event.NewTrade? ==> change.event.amountTraded > 0
    modifies v`activePrices, v`priceLevelUpdates, v`trades, v`maxRenderedTrade, v`bidLine, v`askLine,
      v`layer, v`bidTradeLineExtended, v`askTradeLineExtended, v`minPrice, v`maxPrice, v`maxTimestamp,
      v`latestMaxVolumeChange, v`maxBandVolumeChanges, v`maxVisibleBandVolume, v`activeBands, v`histRendering
    ensures v.Valid()
    ensures var e := Entry(old(v.activePrices), change);
      v.activePrices == old(v.activePrices)[e.price := Level(e.volume, e.isBid)] &&
      v.priceLevelUpdates == old(v.priceLevelUpdates) + [e]
    ensures v.trades == old(v.trades) + TradeOf(change)
    ensures (v.minPrice, v.maxPrice) ==
      ZoomedWindow(old(v.manualZoom), change.event, old(v.minPrice), old(v.maxPrice))
    ensures v.maxTimestamp == old(v.maxTimestamp) ||
      (NearRightEdge(change.timestamp, v.minTimestamp, old(v.maxTimestamp)) &&
       v.maxTimestamp == Stretched(v.minTimestamp, old(v.maxTimestamp)))
    ensures !WidensBottom(old(v.manualZoom), change.event, old(v.minPrice), old(v.maxPrice)) ==>
      v.maxVisibleBandVolume >= old(v.maxVisibleBandVolume)
    ensures (old(v.Consistent()) && WellFormed(change.event) &&
             StampedAfter(old(v.priceLevelUpdates), change.timestamp)) ==> v.Consistent()
  {
    ghost var track := v.Consistent() && WellFormed(change.event) &&
      StampedAfter(v.priceLevelUpdates, change.timestamp);
    HoldsIsConsistent(v);
    var volumeDiff := VolumeDiff(v.activePrices, change.event);
    Notify(v, change);
    UpdateEngine(v, change, volumeDiff, track);
    HoldsIsConsistent(v);
  }

  /** `NotifyChange` as `renderUpdate` sees it: the trade log grows by the
      change's trade, and the invariant outside the drawing is untouched. */
  method Notify(v: VizState, change: Change)
    requires v.Valid()
    requires change.event.NewTrade? ==> change.event.amountTraded > 0
    modifies v`trades, v`maxRenderedTrade, v`bidLine, v`askLine,
      v`layer, v`bidTradeLineExtended, v`askTradeLineExtended
    ensures v.Valid()
    ensures v.trades == old(v.trades) + TradeOf(change)
    ensures Holds(v) == old(Holds(v))
    ensures v.manualZoom == old(v.manualZoom) && v.maxVisibleBandVolume == old(v.maxVisibleBandVolume)
    ensures v.minPrice == old(v.minPrice) && v.maxPrice == old(v.maxPrice)
    ensures v.minTimestamp == old(v.minTimestamp) && v.maxTimestamp == old(v.maxTimestamp)
    ensures v.activePrices == old(v.activePrices) && v.priceLevelUpdates == old(v.priceLevelUpdates)
  {
    NotifyChange(v, change);
  }

  /** The trade-line part of `renderUpdate`: a trade is recorded and drawn
      by `renderTradeNotification`; any other change extends the lines. */
  method NotifyChange(v: VizState, change: Change)
    requires v.Valid()
    requires change.event.NewTrade? ==> change.event.amountTraded > 0
    modifies v`trades, v`maxRenderedTrade, v`bidLine, v`askLine,
      v`layer, v`bidTradeLineExtended, v`askTradeLineExtended
    ensures v.Valid()
    ensures v.trades == old(v.trades) + TradeOf(change)
    ensures change.event.NewTrade? ==>
      v.maxRenderedTrade == Max(old(v.maxRenderedTrade), change.event.amountTraded)
    ensures !change.event.NewTrade? ==>
      v.maxRenderedTrade == old(v.maxRenderedTrade) && v.layer == old(v.layer) &&
      (v.bidLine, v.bidTradeLineExtended) ==
        ExtendLine(old(v.bidLine), old(v.bidTradeLineExtended), v.View(), change.timestamp) &&
      (v.askLine, v.askTradeLineExtended) ==
        ExtendLine(old(v.askLine), old(v.askTradeLineExtended), v.View(), change.timestamp)
  {
    match change.event
    case NewTrade(price, amountTraded, _, wasBidFilled) =>
      NotifyTrade(v, change.timestamp, price, amountTraded, wasBidFilled);
    case _ =>
      ExtendTradeLines(v, change.timestamp);
  }

  /** A trade: one record in `trades`, then `renderTradeNotification`. */
  method NotifyTrade(v: VizState, timestamp: int, price: int, amountTraded: int, wasBidFilled: bool)
    requires v.Configured() && v.WindowValid() && amountTraded > 0
    modifies v`trades, v`maxRenderedTrade, v`bidLine, v`askLine,
      v`layer, v`bidTradeLineExtended, v`askTradeLineExtended
    ensures v.Configured()
    ensures v.trades == old(v.trades) + [TradeRecord(timestamp, amountTraded, wasBidFilled, price)]
    ensures v.maxRenderedTrade == Max(old(v.maxRenderedTrade), amountTraded)
  {
    v.trades := v.trades + [TradeRecord(timestamp, amountTraded, wasBidFilled, price)];
    RenderTradeNotification(v, price, amountTraded, timestamp, wasBidFilled);
  }

  /** The engine part of `renderUpdate`: the ledger and the log record the
      change, then the window and the band are adjusted. */
  method UpdateEngine(v: VizState, change: Change, volumeDiff: int, ghost track: bool)
    requires v.Valid() && volumeDiff == VolumeDiff(v.activePrices, change.event)
    requires track ==> Holds(v) && WellFormed(change.event) && StampedAfter(v.priceLevelUpdates, change.timestamp)
    modifies v`activePrices, v`priceLevelUpdates, v`bidLine, v`askLine, v`layer, v`minPrice, v`maxPrice,
      v`maxTimestamp, v`latestMaxVolumeChange, v`maxBandVolumeChanges, v`maxVisibleBandVolume,
      v`activeBands, v`histRendering
    ensures v.Valid()
    ensures var e := Entry(old(v.activePrices), change);
      v.activePrices == old(v.activePrices)[e.price := Level(e.volume, e.isBid)] &&
      v.priceLevelUpdates == old(v.priceLevelUpdates) + [e]
    ensures (v.minPrice, v.maxPrice) ==
      ZoomedWindow(old(v.manualZoom), change.event, old(v.minPrice), old(v.maxPrice))
    ensures v.maxTimestamp == old(v.maxTimestamp) ||
      (NearRightEdge(change.timestamp, v.minTimestamp, old(v.maxTimestamp)) &&
       v.maxTimestamp == Stretched(v.minTimestamp, old(v.maxTimestamp)))
    ensures !WidensBottom(old(v.manualZoom), change.event, old(v.minPrice), old(v.maxPrice)) ==>
      v.maxVisibleBandVolume >= old(v.maxVisibleBandVolume)
    ensures track ==> Holds(v)
  {
    ghost var m0 := v.activePrices;
    RecordLevel(v, change, track);
    AdjustView(v, change, volumeDiff, m0, track);
  }

  /** What the ghost bookkeeping of `renderUpdate` knows once the change is
      recorded, on values: the ledger `m` matches the log, the bands still
      hold the ledger `m0` from before the change, and `m` holds the
      unclamped new volume at the change's price. */
  ghost predicate RecordedValues(m: map<int, Level>, log: seq<LogEntry>, bands: seq<Band>, w: PriceWindow,
                                 m0: map<int, Level>, price: int, isBid: bool, diff: int)
  {
    m == LastWriteWins(log) && TimeSorted(log) && NonNegative(m) &&
    NonNegative(m0) && w.Valid() && BandsHold(bands, m0, w) &&
    Vol(m0, price) + diff >= 0 &&
    m == m0[price := Level(Vol(m0, price) + diff, isBid)]
  }

  /** `RecordedValues` for the engine's own fields. */
  ghost predicate Recorded(v: VizState, m0: map<int, Level>, price: int, isBid: bool, diff: int)
    reads v`activePrices, v`priceLevelUpdates, v`activeBands, v`minPrice, v`maxPrice, v`priceGranularity
  {
    RecordedValues(v.activePrices, v.priceLevelUpdates, v.activeBands, v.Window(), m0, price, isBid, diff)
  }

  /** Recording a well-formed change no earlier than the log, on an engine
      whose invariant holds, leaves it in the `RecordedValues` state. */
  lemma RecordStep(log: seq<LogEntry>, m: map<int, Level>, bands: seq<Band>, w: PriceWindow, c: Change)
    requires m == LastWriteWins(log) && TimeSorted(log) && NonNegative(m)
    requires w.Valid() && BandsHold(bands, m, w)
    requires StampedAfter(log, c.timestamp) && WellFormed(c.event)
    ensures var e := Entry(m, c);
      RecordedValues(m[e.price := Level(e.volume, e.isBid)], log + [e], bands, w,
                     m, PriceOf(c.event), SideOf(c.event), VolumeDiff(m, c.event))
  {
    RecordKeepsLedger(log, m, c);
    RecordAddsDiff(m, c);
  }

  /** The ledger write and the log append of `renderUpdate`. */
  method RecordLevel(v: VizState, change: Change, ghost track: bool)
    requires track ==> Holds(v) && WellFormed(change.event) && StampedAfter(v.priceLevelUpdates, change.timestamp)
    modifies v`activePrices, v`priceLevelUpdates
    ensures var e := Entry(old(v.activePrices), change);
      v.activePrices == old(v.activePrices)[e.price := Level(e.volume, e.isBid)] &&
      v.priceLevelUpdates == old(v.priceLevelUpdates) + [e]
    ensures track ==> Recorded(v, old(v.activePrices), PriceOf(change.event), SideOf(change.event),
                               VolumeDiff(old(v.activePrices), change.event))
  {
    var e := Entry(v.activePrices, change);
    ghost var m0, log0, w := v.activePrices, v.priceLevelUpdates, v.Window();
    v.activePrices := v.activePrices[e.price := Level(e.volume, e.isBid)];
    v.priceLevelUpdates := v.priceLevelUpdates + [e];
    assert v.Window() == w;
    if track {
      RecordStep(log0, m0, v.activeBands, w, change);
    }
  }

  /** The second half of `renderUpdate`: the auto-zoom check, then the band. */
  method AdjustView(v: VizState, change: Change, volumeDiff: int, ghost m0: map<int, Level>, ghost track: bool)
    requires v.Valid()
    requires track ==> Recorded(v, m0, PriceOf(change.event), SideOf(change.event), volumeDiff)
    modifies v`bidLine, v`askLine, v`layer, v`minPrice, v`maxPrice, v`maxTimestamp,
      v`latestMaxVolumeChange, v`maxBandVolumeChanges, v`maxVisibleBandVolume, v`activeBands, v`histRendering
    ensures v.Valid()
    ensures (v.minPrice, v.maxPrice) ==
      ZoomedWindow(old(v.manualZoom), change.event, old(v.minPrice), old(v.maxPrice))
    ensures v.maxTimestamp == old(v.maxTimestamp) ||
      (NearRightEdge(change.timestamp, v.minTimestamp, old(v.maxTimestamp)) &&
       v.maxTimestamp == Stretched(v.minTimestamp, old(v.maxTimestamp)))
    ensures !WidensBottom(old(v.manualZoom), change.event, old(v.minPrice), old(v.maxPrice)) ==>
      v.maxVisibleBandVolume >= old(v.maxVisibleBandVolume)
    ensures track ==> Holds(v)
  {
    if WidensTop(v.manualZoom, change.event, v.maxPrice) {
      v.maxPrice := WidenMax(v.maxPrice);
      Rerender(v, false, track);
    } else if WidensBottom(v.manualZoom, change.event, v.minPrice, v.maxPrice) {
      v.minPrice := NarrowMin(v.minPrice);
      Rerender(v, true, track);
    } else {
      UpdateBand(v, change.timestamp, PriceOf(change.event), SideOf(change.event), volumeDiff, m0, track);
    }
  }

  /** `histRender` called from `renderUpdate`: the window is rebuilt from
      the log, so whenever the ledger matches the log the bands hold it. */
  method Rerender(v: VizState, recalcMaxBandValues: bool, ghost track: bool)
    requires v.Configured() && v.WindowValid()
    requires track ==> LedgerMatches(v)
    modifies v`histRendering, v`activeBands, v`maxVisibleBandVolume, v`layer, v`bidLine, v`askLine
    ensures v.Valid()
    ensures !recalcMaxBandValues ==> v.maxVisibleBandVolume == old(v.maxVisibleBandVolume)
    ensures track ==> Holds(v)
  {
    Render(v, recalcMaxBandValues);
    if track {
      ReplayedIsLedger(v.priceLevelUpdates, v.minTimestamp);
    }
  }

  /** The band part of `renderUpdate` for a change at `price`: a visible
      band first goes through the shading-maximum check, then takes the
      change; an invisible one only has the other bands drawn. */
  method UpdateBand(v: VizState, timestamp: int, price: int, isBid: bool, volumeDiff: int,
                    ghost m0: map<int, Level>, ghost track: bool)
    requires v.Valid()
    requires track ==> Recorded(v, m0, price, isBid, volumeDiff)
    modifies v`bidLine, v`askLine, v`layer, v`maxTimestamp,
      v`latestMaxVolumeChange, v`maxBandVolumeChanges, v`maxVisibleBandVolume, v`activeBands, v`histRendering
    ensures v.Valid()
    ensures v.maxTimestamp == old(v.maxTimestamp) ||
      (NearRightEdge(timestamp, v.minTimestamp, old(v.maxTimestamp)) &&
       v.maxTimestamp == Stretched(v.minTimestamp, old(v.maxTimestamp)))
    ensures v.maxVisibleBandVolume >= old(v.maxVisibleBandVolume)
    ensures track ==> Holds(v)
  {
    var curBandIndex := BandIndex(v.Window(), price);
    if 0 <= curBandIndex < v.priceGranularity {
      var rerendered := TrackMaximum(v, curBandIndex, timestamp, volumeDiff, track);
      if !rerendered {
        StampBand(v, curBandIndex, timestamp, price, isBid, volumeDiff, m0, track);
      }
    } else {
      DrawOffWindow(v, timestamp, price, isBid, volumeDiff, m0, track);
    }
  }

  /** A change outside the window: every band is drawn up to `timestamp`
      and no band volume changes. */
  method DrawOffWindow(v: VizState, timestamp: int, price: int, isBid: bool, volumeDiff: int,
                       ghost m0: map<int, Level>, ghost track: bool)
    requires v.Valid() && !(0 <= BandIndex(v.Window(), price) < v.priceGranularity)
    requires track ==> Recorded(v, m0, price, isBid, volumeDiff)
    modifies v`activeBands
    ensures v.Valid()
    ensures |v.activeBands| == |old(v.activeBands)|
    ensures forall i :: 0 <= i < |v.activeBands| ==>
      v.activeBands[i] == old(v.activeBands[i]).(endTimestamp := timestamp as real)
    ensures track ==> Holds(v)
  {
    DrawBands(v, timestamp as real);
    if track {
      OffWindowHolds(old(v.activeBands), m0, v.Window(), price, Level(Vol(m0, price) + volumeDiff, isBid));
      BandsHoldTimestamps(old(v.activeBands), v.activeBands, v.activePrices, v.Window());
    }
  }

  /** The shading-maximum check of `renderUpdate` for the change's band
      `b`: when the band's volume text equals the text of the latest
      recorded maximum (so a blank `'0'` never equals a maximum printed with
      decimals; see HeldTest and HeldByLedger), a non-zero change
      records the band's new volume as the latest maximum; when the new
      volume also beats the shading maximum it becomes the shading maximum
      and the window is rebuilt (`rerendered`). */
  method TrackMaximum(v: VizState, b: int, timestamp: int, volumeDiff: int, ghost track: bool)
    returns (rerendered: bool)
    requires v.Valid() && 0 <= b < v.priceGranularity
    requires track ==> LedgerMatches(v)
    modifies v`latestMaxVolumeChange, v`maxBandVolumeChanges, v`maxVisibleBandVolume,
      v`histRendering, v`activeBands, v`layer, v`bidLine, v`askLine
    ensures v.Valid()
    ensures var held := BandText(old(v.activeBands[b]), v.pricePrecision) ==
                        FixedText(old(v.latestMaxVolumeChange), v.pricePrecision);
      var newVolume := old(v.activeBands[b].volume) + volumeDiff;
      v.latestMaxVolumeChange == (if held && volumeDiff != 0 then newVolume else old(v.latestMaxVolumeChange)) &&
      v.maxBandVolumeChanges == old(v.maxBandVolumeChanges) +
        (if held && volumeDiff != 0 then [VolumeChange(timestamp, newVolume)] else []) &&
      rerendered == (held && newVolume > old(v.maxVisibleBandVolume)) &&
      (rerendered ==> v.maxVisibleBandVolume == newVolume)
    ensures rerendered && track ==> Holds(v)
    ensures !rerendered ==>
      v.maxVisibleBandVolume == old(v.maxVisibleBandVolume) && v.activeBands == old(v.activeBands) &&
      v.layer == old(v.layer) && v.bidLine == old(v.bidLine) && v.askLine == old(v.askLine) &&
      v.histRendering == old(v.histRendering)
  {
    var newVolume := v.activeBands[b].volume + volumeDiff;
    rerendered := false;
    if BandText(v.activeBands[b], v.pricePrecision) == FixedText(v.latestMaxVolumeChange, v.pricePrecision) {
      rerendered := RecordMaximum(v, timestamp, newVolume, volumeDiff != 0, track);
    }
  }

  /** The branch of the check for a band that held the latest maximum:
      the change is noted, and a new volume above the shading maximum
      becomes the shading maximum and rebuilds the window. */
  method RecordMaximum(v: VizState, timestamp: int, newVolume: int, changed: bool, ghost track: bool)
    returns (rerendered: bool)
    requires v.Valid()
    requires track ==> LedgerMatches(v)
    modifies v`latestMaxVolumeChange, v`maxBandVolumeChanges, v`maxVisibleBandVolume,
      v`histRendering, v`activeBands, v`layer, v`bidLine, v`askLine
    ensures v.Valid()
    ensures v.latestMaxVolumeChange == (if changed then newVolume else old(v.latestMaxVolumeChange))
    ensures v.maxBandVolumeChanges == old(v.maxBandVolumeChanges) +
      (if changed then [VolumeChange(timestamp, newVolume)] else [])
    ensures rerendered == (newVolume > old(v.maxVisibleBandVolume))
    ensures rerendered ==> v.maxVisibleBandVolume == newVolume
    ensures rerendered && track ==> Holds(v)
    ensures !rerendered ==>
      v.maxVisibleBandVolume == old(v.maxVisibleBandVolume) && v.activeBands == old(v.activeBands) &&
      v.layer == old(v.layer) && v.bidLine == old(v.bidLine) && v.askLine == old(v.askLine) &&
      v.histRendering == old(v.histRendering)
  {
    NoteMaximum(v, timestamp, newVolume, changed);
    rerendered := newVolume > v.maxVisibleBandVolume;
    if rerendered {
      v.maxVisibleBandVolume := newVolume;
      Rerender(v, false, track);
    }
  }

  /** Under the band invariant the `held` test of TrackMaximum reads off
      the ledger: a band no ledger price falls in matches only a zero
      maximum printed without decimals; any other band matches exactly when
      its total is the latest maximum. */
  lemma HeldByLedger(bands: seq<Band>, m: map<int, Level>, w: PriceWindow, b: int, latest: int, d: nat)
    requires w.Valid() && BandsHold(bands, m, w) && 0 <= b < |bands|
    ensures BandText(bands[b], d) == FixedText(latest, d) <==>
      if Untouched(m, w, b) then d == 0 && latest == 0 else BandTotal(m, w, b) == latest
  {
    HeldTest(bands[b], latest, d);
  }

  /** `latestMaxVolumeChange` and `maxBandVolumeChanges` take a new volume
      of the maximum band when it changed. */
  method NoteMaximum(v: VizState, timestamp: int, newVolume: int, changed: bool)
    requires v.Valid()
    modifies v`latestMaxVolumeChange, v`maxBandVolumeChanges
    ensures v.Valid()
    ensures v.latestMaxVolumeChange == if changed then newVolume else old(v.latestMaxVolumeChange)
    ensures v.maxBandVolumeChanges == old(v.maxBandVolumeChanges) +
      (if changed then [VolumeChange(timestamp, newVolume)] else [])
  {
    if changed {
      v.latestMaxVolumeChange := newVolume;
      v.maxBandVolumeChanges := v.maxBandVolumeChanges + [VolumeChange(timestamp, newVolume)];
    }
  }

  /** The visible band takes the change: it restarts at `timestamp` with
      its volume moved by the diff and clamped at zero, and no other band's
      volume changes. Then the time rule: near the right edge the window
      grows by a fifth and is rebuilt; otherwise every band is drawn up to
      `timestamp`. */
  method StampBand(v: VizState, b: int, timestamp: int, price: int, isBid: bool, volumeDiff: int,
                   ghost m0: map<int, Level>, ghost track: bool)
    requires v.Valid() && b == BandIndex(v.Window(), price) && 0 <= b < v.priceGranularity
    requires track ==> Recorded(v, m0, price, isBid, volumeDiff)
    modifies v`activeBands, v`maxTimestamp, v`histRendering, v`maxVisibleBandVolume, v`layer, v`bidLine, v`askLine
    ensures v.Valid() && v.maxVisibleBandVolume == old(v.maxVisibleBandVolume)
    ensures NearRightEdge(timestamp, v.minTimestamp, old(v.maxTimestamp)) ==>
      v.maxTimestamp == Stretched(v.minTimestamp, old(v.maxTimestamp))
    ensures !NearRightEdge(timestamp, v.minTimestamp, old(v.maxTimestamp)) ==>
      v.maxTimestamp == old(v.maxTimestamp) &&
      forall i :: 0 <= i < |v.activeBands| ==>
        v.activeBands[i] ==
          if i == b then Band(timestamp as real, timestamp as real, Max(0, old(v.activeBands[b].volume) + volumeDiff), false)
          else old(v.activeBands[i]).(endTimestamp := timestamp as real)
    ensures track ==> Holds(v)
  {
    var activeBand := Band(timestamp as real, timestamp as real, Max(0, v.activeBands[b].volume + volumeDiff), false);
    v.activeBands := v.activeBands[b := activeBand];
    if track {
      BandStepHolds(old(v.activeBands), m0, v.Window(), price, isBid, volumeDiff, timestamp as real);
    }
    StretchOrDraw(v, timestamp, track);
  }

  /** The time rule closing `renderUpdate`. */
  method StretchOrDraw(v: VizState, timestamp: int, ghost track: bool)
    requires v.Valid()
    requires track ==> Holds(v)
    modifies v`activeBands, v`maxTimestamp, v`histRendering, v`maxVisibleBandVolume, v`layer, v`bidLine, v`askLine
    ensures v.Valid() && v.maxVisibleBandVolume == old(v.maxVisibleBandVolume)
    ensures NearRightEdge(timestamp, v.minTimestamp, old(v.maxTimestamp)) ==>
      v.maxTimestamp == Stretched(v.minTimestamp, old(v.maxTimestamp))
    ensures !NearRightEdge(timestamp, v.minTimestamp, old(v.maxTimestamp)) ==>
      v.maxTimestamp == old(v.maxTimestamp) &&
      |v.activeBands| == |old(v.activeBands)| &&
      forall i :: 0 <= i < |v.activeBands| ==>
        v.activeBands[i] == old(v.activeBands[i]).(endTimestamp := timestamp as real)
    ensures track ==> Holds(v)
  {
    if NearRightEdge(timestamp, v.minTimestamp, v.maxTimestamp) {
      v.maxTimestamp := Stretched(v.minTimestamp, v.maxTimestamp);
      Rerender(v, false, track);
    } else {
      DrawBands(v, timestamp as real);
      if track {
        BandsHoldTimestamps(old(v.activeBands), v.activeBands, v.activePrices, v.Window());
      }
    }
  }
}
