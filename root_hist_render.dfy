/** The oldest `histRender` (under `src/Orderbook`). The shading maximum is
    recomputed from the ledger as it stands, the bands start from the
    ledger at the window's left edge, and then the WHOLE log is replayed
    over that ledger, including the entries already folded into it. Since
    each replayed change is the logged volume minus the replayed one, the
    changes telescope and the bands end holding the log's last-write-wins
    ledger whatever the order of the log. */
module RootHistRender {
  import opened Types
  import opened Calc
  import opened Ledger
  import opened Geometry
  import opened State
  import opened BandDrawing
  import opened PaperRender
  import opened HistRender
  import opened RootPaperRender

  /** Replaying the whole log over the ledger at any time `t` ends with the
      log's own last-write-wins ledger: every price of the baseline is
      logged, so the log's last entry for it overrides it. */
  lemma BaselineTelescopes(log: seq<LogEntry>, t: real)
    ensures ApplyEntries(Baseline(log, t), log) == LastWriteWins(log)
  {
    var b, l := Baseline(log, t), LastWriteWins(log);
    ApplyEntriesOverride(b, log);
    BeforeMembers(log, t);
    assert b.Keys <= l.Keys;
    assert b + l == l;
  }

  /** On a log in time order the oldest rebuild ends with the same ledger
      as the current one, which replays only the entries after `t`. */
  lemma AgreesWithCurrentRebuild(log: seq<LogEntry>, t: real)
    requires TimeSorted(log)
    ensures ApplyEntries(Baseline(log, t), log) == Replayed(log, t)
  {
    BaselineTelescopes(log, t);
    ReplayedIsLedger(log, t);
  }

  /** One entry of the whole-log replay: a visible band is drawn up to the
      entry, then restarts at it with the entry's change added; an
      invisible one is left alone. The bands then hold the ledger with the
      entry applied. */
  method ReplayLogEntry(v: VizState, curPriceLevels: map<int, Level>, e: LogEntry, w: PriceWindow)
    requires w.Valid() && BandsHold(v.activeBands, curPriceLevels, w)
    modifies v`activeBands
    ensures BandsHold(v.activeBands, curPriceLevels[e.price := LevelOf(e)], w)
    ensures var b := BandIndex(w, e.price);
      if 0 <= b < w.priceGranularity
      then v.activeBands == old(v.activeBands)[b := Band(e.timestamp as real, e.timestamp as real,
                                                         old(v.activeBands[b].volume) + (e.volume - Vol(curPriceLevels, e.price)), false)]
      else v.activeBands == old(v.activeBands)
  {
    var volumeDiff := e.volume - Vol(curPriceLevels, e.price);
    var bandIndex := BandIndex(w, e.price);
    if 0 <= bandIndex < w.priceGranularity {
      var activeBand := v.activeBands[bandIndex];
      v.activeBands := v.activeBands[bandIndex := Band(e.timestamp as real, e.timestamp as real,
                                                       activeBand.volume + volumeDiff, false)];
    }
    BandsHoldStep(old(v.activeBands), v.activeBands, curPriceLevels, e, w);
  }

  lemma PrefixStep(m: map<int, Level>, log: seq<LogEntry>, k: int)
    requires 0 <= k < |log|
    ensures ApplyEntries(m, log[..k + 1]) == ApplyEntries(m, log[..k])[log[k].price := LevelOf(log[k])]
    ensures LastStamp(log[..k + 1]) == Some(log[k].timestamp)
  {
    assert log[..k + 1] == log[..k] + [log[k]];
    ApplyEntriesAppend(m, log[..k], log[k]);
  }

  /** The replay loop over every entry of `priceLevelUpdates`, with the
      ledger `curPriceLevels` starting at `baseline`. Returns the timestamp
      of the last entry. */
  method ReplayLog(v: VizState, log: seq<LogEntry>, w: PriceWindow, baseline: map<int, Level>)
    returns (curTimestamp: Option<int>)
    requires w.Valid() && BandsHold(v.activeBands, baseline, w)
    modifies v`activeBands
    ensures BandsHold(v.activeBands, ApplyEntries(baseline, log), w)
    ensures curTimestamp == LastStamp(log)
  {
    var curPriceLevels := baseline;
    curTimestamp := None;
    var k := 0;
    while k < |log|
      modifies v`activeBands
      invariant 0 <= k <= |log|
      invariant curPriceLevels == ApplyEntries(baseline, log[..k])
      invariant BandsHold(v.activeBands, curPriceLevels, w)
      invariant curTimestamp == LastStamp(log[..k])
    {
      var e := log[k];
      PrefixStep(baseline, log, k);
      ReplayLogEntry(v, curPriceLevels, e, w);
      curPriceLevels := curPriceLevels[e.price := Level(e.volume, e.isBid)];
      curTimestamp := Some(e.timestamp);
      k := k + 1;
    }
    assert log[..k] == log;
  }

  /** The oldest `histRender(vizState, canvas)`. The shading maximum is the
      largest band of the ledger; band `i` ends holding the log's
      last-write-wins volumes in band `i`; every band is drawn up to the
      last entry of the log; the trade markers and lines are laid out
      again. The ledger and the log are only read. */
  method RootHistRender(v: VizState)
    requires v.Configured() && v.WindowValid()
    modifies v`maxVisibleBandVolume, v`activeBands, v`layer, v`bidLine, v`askLine
    ensures v.Valid()
    ensures v.maxVisibleBandVolume == Max(0, TopBand(v.activePrices, v.Window()))
    ensures BandsHold(v.activeBands, LastWriteWins(v.priceLevelUpdates), v.Window())
    ensures match LastStamp(v.priceLevelUpdates)
      case Some(ts) => forall i :: 0 <= i < |v.activeBands| ==> v.activeBands[i].endTimestamp == ts as real
      case None => true
    ensures v.layer == RelaidLayerParseInt(old(v.layer), v.View())
    ensures v.bidLine == Redrawn(old(v.bidLine), v.View()) && v.askLine == Redrawn(old(v.askLine), v.View())
  {
    RebuildWindow(v);
    RootPaperRender.ReRenderTrades(v);
  }

  /** The bands and the maximum of the oldest `histRender`, before the
      trade layout. */
  method RebuildWindow(v: VizState)
    requires v.Configured() && v.WindowValid()
    modifies v`maxVisibleBandVolume, v`activeBands
    ensures v.Valid()
    ensures v.maxVisibleBandVolume == Max(0, TopBand(v.activePrices, v.Window()))
    ensures BandsHold(v.activeBands, LastWriteWins(v.priceLevelUpdates), v.Window())
    ensures match LastStamp(v.priceLevelUpdates)
      case Some(ts) => forall i :: 0 <= i < |v.activeBands| ==> v.activeBands[i].endTimestamp == ts as real
      case None => true
  {
    var log, t, w := v.priceLevelUpdates, v.minTimestamp, v.Window();
    var maxBand := MaxVisibleBandVolume(v.activePrices, w);
    LargestBandIsTop(v.activePrices, w, maxBand);
    RebuildBands(v, log, t, w, maxBand);
    assert v.Window() == w;
  }

  /** The band part of the oldest `histRender`, on the window's values:
      the maximum is set, the bands start from the baseline ledger, the
      whole log is replayed, and every band is drawn up to its last entry. */
  method RebuildBands(v: VizState, log: seq<LogEntry>, t: real, w: PriceWindow, maxBand: int)
    requires w.Valid()
    modifies v`maxVisibleBandVolume, v`activeBands
    ensures v.maxVisibleBandVolume == maxBand
    ensures |v.activeBands| == w.priceGranularity
    ensures BandsHold(v.activeBands, LastWriteWins(log), w)
    ensures match LastStamp(log)
      case Some(ts) => forall i :: 0 <= i < |v.activeBands| ==> v.activeBands[i].endTimestamp == ts as real
      case None => true
  {
    v.maxVisibleBandVolume := maxBand;
    var curPriceLevels := BaselineLevels(log, t);
    v.activeBands := InitialBandValues(t, curPriceLevels, w);
    var curTimestamp := ReplayLog(v, log, w, curPriceLevels);
    BaselineTelescopes(log, t);
    if curTimestamp.Some? {
      ghost var replayed := v.activeBands;
      DrawBands(v, curTimestamp.value as real);
      BandsHoldTimestamps(replayed, v.activeBands, LastWriteWins(log), w);
    }
  }
}
