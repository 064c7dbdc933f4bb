/** The older `renderUpdate` (the `src/Orderbook` copy inside
    react-orderbook). A trade sets its price level to the amount left on
    the book, nothing is clamped at zero, a change that moves the band
    holding the shading maximum by a large fraction rebuilds the window
    without recording the change, and a change in the last tenth of the
    time window doubles the window and rebuilds it. */
module LegacyRender {
  import opened Types
  import opened Calc
  import opened Ledger
  import opened State
  import opened BandDrawing
  import opened HistRender
  import opened LegacyHistRender

  /** The volume the price level ends with: the new amount of a
      modification, nothing after a removal, and the amount a trade leaves
      on the book. */
  function Target(e: Event): int
  {
    match e
    case Modification(_, newAmount, _) => newAmount
    case Removal(_, _) => 0
    case NewTrade(_, _, amountRemaining, _) => amountRemaining
  }

  /** `volumeDiff`: the signed change that brings the price level to its
      target volume; an absent price counts as volume 0. */
  function LegacyVolumeDiff(m: map<int, Level>, e: Event): (d: int)
    ensures Vol(m, PriceOf(e)) + d == Target(e)
    ensures PriceOf(e) !in m ==> d == Target(e)
  {
    match e
    case Modification(p, newAmount, _) => if p in m then newAmount - m[p].volume else newAmount
    case Removal(p, _) => if p in m then -m[p].volume else 0
    case NewTrade(p, _, amountRemaining, _) => if p in m then amountRemaining - m[p].volume else amountRemaining
  }

  /** Removing a price the ledger does not hold changes nothing, and no
      error is raised. */
  lemma LegacyRemovalOfAbsentPrice(m: map<int, Level>, p: int, isBid: bool)
    requires p !in m
    ensures LegacyVolumeDiff(m, Removal(p, isBid)) == 0
  {
  }

  /** Unlike the current engine, a trade moves its price level: by the
      difference between what is left and what the ledger held. */
  lemma TradeSetsRemaining(m: map<int, Level>, p: int, amountTraded: int, amountRemaining: int, wasBidFilled: bool)
    ensures var d := LegacyVolumeDiff(m, NewTrade(p, amountTraded, amountRemaining, wasBidFilled));
      d == amountRemaining - Vol(m, p) && Vol(m, p) + d == amountRemaining
  {
  }

  /** Nothing is clamped: a modification to a negative amount leaves that
      negative amount in the ledger. */
  lemma NegativeAmountKept(m: map<int, Level>, p: int, newAmount: int, isBid: bool)
    requires newAmount < 0
    ensures Vol(m[p := Level(Vol(m, p) + LegacyVolumeDiff(m, Modification(p, newAmount, isBid)), isBid)], p) < 0
  {
  }

  /** The log entry the normal path appends: the price level's new volume. */
  function LegacyEntry(m: map<int, Level>, c: Change): (r: LogEntry)
    ensures r.price == PriceOf(c.event) && r.timestamp == c.timestamp && r.isBid == SideOf(c.event)
    ensures r.volume == Target(c.event)
  {
    LogEntry(PriceOf(c.event), LegacyVolumeDiff(m, c.event) + Vol(m, PriceOf(c.event)), c.timestamp, SideOf(c.event))
  }

  /** The record a trade pushes onto `trades`: its time and size only. */
  function LegacyTradeOf(c: Change): seq<Trade>
  {
    match c.event
    case NewTrade(_, amountTraded, _, _) => [TradeVolume(c.timestamp, amountTraded)]
    case _ => []
  }

  function RealAbs(x: real): real { if x < 0.0 then -x else x }

  function Abs(x: int): int { if x < 0 then -x else x }

  /** The re-render test: the change's band held the shading maximum and
      `|1 - |volumeDiff| / bandVolume| <= 0.75`. A band of volume 0 never
      passes, since the quotient is then infinite or undefined. */
  predicate ShadingJump(bandVolume: int, maxVisibleBandVolume: int, volumeDiff: int)
  {
    bandVolume == maxVisibleBandVolume && bandVolume != 0 &&
    RealAbs(1.0 - Abs(volumeDiff) as real / bandVolume as real) <= 0.75
  }

  /** The test fires exactly when the band held the (positive) maximum and
      the change's size is between a quarter and seven quarters of it. */
  lemma ShadingJumpRange(bandVolume: int, maxVisibleBandVolume: int, volumeDiff: int)
    ensures ShadingJump(bandVolume, maxVisibleBandVolume, volumeDiff) <==>
      bandVolume == maxVisibleBandVolume && bandVolume > 0 &&
      bandVolume <= 4 * Abs(volumeDiff) <= 7 * bandVolume
  {
    if bandVolume != 0 {
      var size, band := Abs(volumeDiff) as real, bandVolume as real;
      var q := size / band;
      if bandVolume < 0 {
        QuotientSign(size, band);
      } else {
        QuotientBounds(size, band);
        assert 0.25 <= q <==> band <= 4.0 * size;
        assert q <= 1.75 <==> 4.0 * size <= 7.0 * band;
      }
    }
  }

  /** A size over a negative volume is not positive. */
  lemma QuotientSign(size: real, band: real)
    requires size >= 0.0 && band < 0.0
    ensures size / band <= 0.0
  {
    var q := size / band;
    assert q * band == size;
  }

  /** Over a positive volume, the quotient's bounds are the size's bounds
      scaled by the volume. */
  lemma QuotientBounds(size: real, band: real)
    requires band > 0.0
    ensures 0.25 <= size / band <==> 0.25 * band <= size
    ensures size / band <= 1.75 <==> size <= 1.75 * band
  {
    var q := size / band;
    assert q * band == size;
    assert 0.25 <= q <==> 0.25 * band <= q * band;
    assert q <= 1.75 <==> q * band <= 1.75 * band;
  }

  /** A change in the last tenth of the time window. */
  predicate NearRightEdge(timestamp: int, minTimestamp: real, maxTimestamp: real)
  {
    timestamp as real > minTimestamp + 0.9 * (maxTimestamp - minTimestamp)
  }

  /** The right edge moved out by one whole window. */
  function Doubled(minTimestamp: real, maxTimestamp: real): (r: real)
    requires minTimestamp < maxTimestamp
    ensures r > maxTimestamp
    ensures r - minTimestamp == 2.0 * (maxTimestamp - minTimestamp)
  {
    maxTimestamp + (maxTimestamp - minTimestamp)
  }

  /** After doubling, a change that triggered it, if it was inside the old
      window, lies in the first 55% of the new one. */
  lemma DoubleMakesRoom(timestamp: int, minTimestamp: real, maxTimestamp: real)
    requires minTimestamp < maxTimestamp && timestamp as real <= maxTimestamp
    ensures !NearRightEdge(timestamp, minTimestamp, Doubled(minTimestamp, maxTimestamp))
  {
  }

  /** The older `renderUpdate(vizState, change, canvas)`. The price must
      fall inside the window: its band is read before any range check. A
      trade is pushed onto `trades` first. When the change's band held the
      shading maximum and the change is large, the window is rebuilt and
      the change is neither logged nor written to the ledger. Otherwise the
      ledger takes the target volume, the band restarts at the change's
      time with the change added, and one log entry is appended; then a
      change in the last tenth of the window doubles the window and
      rebuilds it, and any other change draws every band up to its time.
      Bands that held the ledger still hold it afterwards. */
  method LegacyRenderUpdate(v: VizState, change: Change)
    requires v.Valid()
    requires 0 <= BandIndex(v.Window(), PriceOf(change.event)) < v.priceGranularity
    modifies v`trades, v`maxVisibleBandVolume, v`activePrices, v`activeBands, v`priceLevelUpdates, v`maxTimestamp
    ensures v.Valid()
    ensures v.trades == old(v.trades) + LegacyTradeOf(change)
    ensures var b := BandIndex(v.Window(), PriceOf(change.event));
      var jump := ShadingJump(old(v.activeBands[b].volume), old(v.maxVisibleBandVolume),
                              LegacyVolumeDiff(old(v.activePrices), change.event));
      (jump ==> v.priceLevelUpdates == old(v.priceLevelUpdates) && v.maxTimestamp == old(v.maxTimestamp) &&
                v.maxVisibleBandVolume == Max(0, TopBand(old(v.activePrices), v.Window())) &&
                v.activePrices == LegacyLedger(v.priceLevelUpdates, v.minTimestamp, v.maxTimestamp, v.minPrice, v.maxPrice) &&
                BandsHold(v.activeBands, v.activePrices, v.Window())) &&
      (!jump ==> v.priceLevelUpdates == old(v.priceLevelUpdates) + [LegacyEntry(old(v.activePrices), change)])
    ensures var b := BandIndex(v.Window(), PriceOf(change.event));
      var volumeDiff := LegacyVolumeDiff(old(v.activePrices), change.event);
      var jump := ShadingJump(old(v.activeBands[b].volume), old(v.maxVisibleBandVolume), volumeDiff);
      var near := NearRightEdge(change.timestamp, v.minTimestamp, old(v.maxTimestamp));
      var written := old(v.activePrices)[PriceOf(change.event) := Level(Target(change.event), SideOf(change.event))];
      (!jump && near ==>
         v.maxTimestamp == Doubled(v.minTimestamp, old(v.maxTimestamp)) &&
         v.maxVisibleBandVolume == Max(0, TopBand(written, v.Window())) &&
         v.activePrices == LegacyLedger(v.priceLevelUpdates, v.minTimestamp, v.maxTimestamp, v.minPrice, v.maxPrice) &&
         BandsHold(v.activeBands, v.activePrices, v.Window())) &&
      (!jump && !near ==>
         v.maxTimestamp == old(v.maxTimestamp) && v.maxVisibleBandVolume == old(v.maxVisibleBandVolume) &&
         v.activePrices == old(v.activePrices)[PriceOf(change.event) := Level(Target(change.event), SideOf(change.event))] &&
         |v.activeBands| == |old(v.activeBands)| &&
         v.activeBands[b] == Band(change.timestamp as real, change.timestamp as real, old(v.activeBands[b].volume) + volumeDiff, false) &&
         forall i :: 0 <= i < |v.activeBands| && i != b ==>
           v.activeBands[i] == old(v.activeBands[i]).(endTimestamp := change.timestamp as real))
    ensures old(BandsHold(v.activeBands, v.activePrices, v.Window())) ==>
      BandsHold(v.activeBands, v.activePrices, v.Window())
  {
    var p := PriceOf(change.event);
    var volumeDiff := LegacyVolumeDiff(v.activePrices, change.event);
    PushTrade(v, change);
    var b := BandIndex(v.Window(), p);
    if ShadingJump(v.activeBands[b].volume, v.maxVisibleBandVolume, volumeDiff) {
      LegacyHistRender.LegacyHistRender(v);
    } else {
      NormalPath(v, change, b, volumeDiff);
    }
  }

  /** The path without a shading jump: the change is booked into the
      ledger, its band and the log, and then the time rule runs. */
  method NormalPath(v: VizState, change: Change, b: int, volumeDiff: int)
    requires v.Valid() && b == BandIndex(v.Window(), PriceOf(change.event)) && 0 <= b < v.priceGranularity
    requires volumeDiff == LegacyVolumeDiff(v.activePrices, change.event)
    modifies v`maxVisibleBandVolume, v`activePrices, v`activeBands, v`priceLevelUpdates, v`maxTimestamp
    ensures v.Valid()
    ensures v.priceLevelUpdates == old(v.priceLevelUpdates) + [LegacyEntry(old(v.activePrices), change)]
    ensures var near := NearRightEdge(change.timestamp, v.minTimestamp, old(v.maxTimestamp));
      var written := old(v.activePrices)[PriceOf(change.event) := Level(Target(change.event), SideOf(change.event))];
      (near ==>
         v.maxTimestamp == Doubled(v.minTimestamp, old(v.maxTimestamp)) &&
         v.maxVisibleBandVolume == Max(0, TopBand(written, v.Window())) &&
         v.activePrices == LegacyLedger(v.priceLevelUpdates, v.minTimestamp, v.maxTimestamp, v.minPrice, v.maxPrice) &&
         BandsHold(v.activeBands, v.activePrices, v.Window())) &&
      (!near ==>
         v.maxTimestamp == old(v.maxTimestamp) && v.maxVisibleBandVolume == old(v.maxVisibleBandVolume) &&
         v.activePrices == old(v.activePrices)[PriceOf(change.event) := Level(Target(change.event), SideOf(change.event))] &&
         |v.activeBands| == |old(v.activeBands)| &&
         v.activeBands[b] == Band(change.timestamp as real, change.timestamp as real, old(v.activeBands[b].volume) + volumeDiff, false) &&
         forall i :: 0 <= i < |v.activeBands| && i != b ==>
           v.activeBands[i] == old(v.activeBands[i]).(endTimestamp := change.timestamp as real))
    ensures old(BandsHold(v.activeBands, v.activePrices, v.Window())) ==>
      BandsHold(v.activeBands, v.activePrices, v.Window())
  {
    ApplyChange(v, change, b, volumeDiff);
    StretchOrDraw(v, change.timestamp);
  }

  /** `vizState.trades.push(...)` for a trade; `drawTradeNotification` and
      `drawOrderNotification` draw nothing. */
  method PushTrade(v: VizState, change: Change)
    requires v.Valid()
    modifies v`trades
    ensures v.Valid()
    ensures v.trades == old(v.trades) + LegacyTradeOf(change)
  {
    v.trades := v.trades + LegacyTradeOf(change);
  }

  /** The normal path's bookkeeping: the ledger takes the target volume,
      band `b` restarts at the change's time with the change added and no
      other band moves, and the log gains the change's entry. Bands that
      held the ledger hold the new one, and a ledger that was the log's
      last-write-wins view still is. */
  method ApplyChange(v: VizState, change: Change, b: int, volumeDiff: int)
    requires v.Valid() && b == BandIndex(v.Window(), PriceOf(change.event)) && 0 <= b < v.priceGranularity
    requires volumeDiff == LegacyVolumeDiff(v.activePrices, change.event)
    modifies v`activePrices, v`activeBands, v`priceLevelUpdates
    ensures v.Valid()
    ensures v.activePrices == old(v.activePrices)[PriceOf(change.event) := Level(Target(change.event), SideOf(change.event))]
    ensures v.activeBands == old(v.activeBands)[b := Band(change.timestamp as real, change.timestamp as real,
                                                          old(v.activeBands[b].volume) + volumeDiff, false)]
    ensures v.priceLevelUpdates == old(v.priceLevelUpdates) + [LegacyEntry(old(v.activePrices), change)]
    ensures old(BandsHold(v.activeBands, v.activePrices, v.Window())) ==>
      BandsHold(v.activeBands, v.activePrices, v.Window())
    ensures old(v.activePrices == LastWriteWins(v.priceLevelUpdates)) ==>
      v.activePrices == LastWriteWins(v.priceLevelUpdates)
  {
    ghost var w, m0, bands0, log0 := v.Window(), v.activePrices, v.activeBands, v.priceLevelUpdates;
    var e := LegacyEntry(v.activePrices, change);
    var activeBand := v.activeBands[b];
    v.activePrices, v.activeBands, v.priceLevelUpdates :=
      v.activePrices[e.price := Level(e.volume, e.isBid)],
      v.activeBands[b := Band(change.timestamp as real, change.timestamp as real, activeBand.volume + volumeDiff, false)],
      v.priceLevelUpdates + [e];
    assert v.Window() == w;
    LegacyStep(log0, m0, bands0, w, change, b);
  }

  /** The normal path on values: the unclamped band step keeps the bands
      holding the ledger, and the ledger update is the log append's. */
  lemma LegacyStep(log: seq<LogEntry>, m: map<int, Level>, bands: seq<Band>, w: PriceWindow, c: Change, b: int)
    requires w.Valid() && b == BandIndex(w, PriceOf(c.event)) && 0 <= b < |bands|
    ensures var e := LegacyEntry(m, c);
      var bands' := bands[b := Band(c.timestamp as real, c.timestamp as real,
                                    bands[b].volume + LegacyVolumeDiff(m, c.event), false)];
      (BandsHold(bands, m, w) ==> BandsHold(bands', m[e.price := Level(e.volume, e.isBid)], w)) &&
      (m == LastWriteWins(log) ==> m[e.price := Level(e.volume, e.isBid)] == LastWriteWins(log + [e]))
  {
    var e := LegacyEntry(m, c);
    var bands' := bands[b := Band(c.timestamp as real, c.timestamp as real,
                                  bands[b].volume + LegacyVolumeDiff(m, c.event), false)];
    if BandsHold(bands, m, w) {
      BandsHoldStep(bands, bands', m, e, w);
    }
    LastWriteWinsAppend(log, e);
  }

  /** The time rule closing the older `renderUpdate`: a change in the last
      tenth of the window doubles it and rebuilds it (the ledger becomes
      the rebuild's); any other change draws every band up to its time. */
  method StretchOrDraw(v: VizState, timestamp: int)
    requires v.Valid()
    modifies v`maxTimestamp, v`maxVisibleBandVolume, v`activePrices, v`activeBands
    ensures v.Valid()
    ensures NearRightEdge(timestamp, v.minTimestamp, old(v.maxTimestamp)) ==>
      v.maxTimestamp == Doubled(v.minTimestamp, old(v.maxTimestamp)) &&
      v.maxVisibleBandVolume == Max(0, TopBand(old(v.activePrices), v.Window())) &&
      v.activePrices == LegacyLedger(v.priceLevelUpdates, v.minTimestamp, v.maxTimestamp, v.minPrice, v.maxPrice) &&
      BandsHold(v.activeBands, v.activePrices, v.Window())
    ensures !NearRightEdge(timestamp, v.minTimestamp, old(v.maxTimestamp)) ==>
      v.maxTimestamp == old(v.maxTimestamp) && v.activePrices == old(v.activePrices) &&
      v.maxVisibleBandVolume == old(v.maxVisibleBandVolume) &&
      |v.activeBands| == |old(v.activeBands)| &&
      forall i :: 0 <= i < |v.activeBands| ==>
        v.activeBands[i] == old(v.activeBands[i]).(endTimestamp := timestamp as real)
    ensures old(BandsHold(v.activeBands, v.activePrices, v.Window())) ==>
      BandsHold(v.activeBands, v.activePrices, v.Window())
  {
    if NearRightEdge(timestamp, v.minTimestamp, v.maxTimestamp) {
      Widen(v, Doubled(v.minTimestamp, v.maxTimestamp));
      LegacyHistRender.LegacyHistRender(v);
    } else {
      DrawBands(v, timestamp as real);
      if old(BandsHold(v.activeBands, v.activePrices, v.Window())) {
        BandsHoldTimestamps(old(v.activeBands), v.activeBands, v.activePrices, v.Window());
      }
    }
  }

  /** `vizState.maxTimestamp += timeRange`. */
  method Widen(v: VizState, maxTimestamp: real)
    requires v.Valid() && maxTimestamp > v.maxTimestamp
    modifies v`maxTimestamp
    ensures v.Valid() && v.maxTimestamp == maxTimestamp
  {
    v.maxTimestamp := maxTimestamp;
  }
}
