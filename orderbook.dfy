/** The `Orderbook` component's hold on the engine: `initState`, which
    seeds the engine from a book snapshot, and the state updates of
    `handleSettingChange`. The constructor defaults are `VizState`'s
    constructor. */
module Orderbook {
  import opened Types
  import opened Calc
  import opened Ledger
  import opened State
  import opened HistRender

  /** A log recording each price of `book` exactly once, with its volume
      and side, stamped `timestamp`. */
  predicate SnapshotLog(log: seq<LogEntry>, book: map<int, Level>, timestamp: int)
  {
    (forall k :: 0 <= k < |log| ==>
      log[k].price in book && LevelOf(log[k]) == book[log[k].price] && log[k].timestamp == timestamp) &&
    (forall j, k :: 0 <= j < k < |log| ==> log[j].price != log[k].price) &&
    (forall p :: p in book ==> exists k :: 0 <= k < |log| && log[k].price == p)
  }

  /** The `_.each` over `activePrices` that fills `priceLevelUpdates`:
      one entry per price of the book, in some order. */
  method SnapshotEntries(book: map<int, Level>, timestamp: int) returns (log: seq<LogEntry>)
    ensures SnapshotLog(log, book, timestamp)
    ensures |log| == |book|
  {
    log := [];
    var rest := book.Keys;
    while rest != {}
      invariant rest <= book.Keys
      invariant |log| + |rest| == |book|
      invariant SnapshotLog(log, book - rest, timestamp)
      decreases rest
    {
      assert exists p :: p in rest by {
        if forall p :: p !in rest {
          assert false;
        }
      }
      var price :| price in rest;
      SnapshotGrows(log, book - rest, price, book[price], timestamp);
      log := log + [LogEntry(price, book[price].volume, timestamp, book[price].isBid)];
      assert (book - rest)[price := book[price]] == book - (rest - {price});
      rest := rest - {price};
    }
    assert book - rest == book;
  }

  /** One more price recorded: the log still describes the prices seen. */
  lemma SnapshotGrows(log: seq<LogEntry>, seen: map<int, Level>, price: int, level: Level, timestamp: int)
    requires SnapshotLog(log, seen, timestamp) && price !in seen
    ensures SnapshotLog(log + [LogEntry(price, level.volume, timestamp, level.isBid)], seen[price := level], timestamp)
  {
    var log' := log + [LogEntry(price, level.volume, timestamp, level.isBid)];
    forall p | p == price || p in seen ensures exists k :: 0 <= k < |log'| && log'[k].price == p {
      if p == price {
        assert log'[|log|].price == p;
      } else {
        var k :| 0 <= k < |log| && log[k].price == p;
        assert log'[k] == log[k];
      }
    }
  }

  /** The snapshot log describes exactly the book, in time order. */
  lemma {:induction false} SnapshotLedger(log: seq<LogEntry>, book: map<int, Level>, timestamp: int)
    requires SnapshotLog(log, book, timestamp)
    ensures LastWriteWins(log) == book
    ensures TimeSorted(log)
  {
    var m := LastWriteWins(log);
    forall p | p in book
      ensures p in m && m[p] == book[p]
    {
      var k :| 0 <= k < |log| && log[k].price == p;
      LastWriteWinsLast(log, k);
    }
    forall p | p !in book
      ensures p !in m
    {
      LastWriteWinsAbsent(log, p);
    }
    assert m.Keys == book.Keys;
  }

  /** A rebuild with the window's left edge at the snapshot's timestamp
      starts from the book itself and replays nothing. */
  lemma SnapshotBaseline(log: seq<LogEntry>, book: map<int, Level>, timestamp: int)
    requires SnapshotLog(log, book, timestamp)
    ensures Baseline(log, timestamp as real) == book
    ensures After(log, timestamp as real) == []
  {
    SnapshotLedger(log, book, timestamp);
    AfterEmpty(log, timestamp as real);
    SortedSplit(log, timestamp as real);
    assert Before(log, timestamp as real) == log;
  }

  /** `initState`: the window opens at the snapshot's timestamp and spans
      `timeScale`; the ledger is the book; the log holds one entry per
      price of the book at that timestamp; the bands are the book's initial
      band values; the shading maximum and the latest maximum are the
      largest band; both line-extension flags are cleared; `trades`,
      `maxRenderedTrade` and `manualZoom` are left alone. A book without
      negative volumes starts the engine with its invariant holding. */
  method InitState(v: VizState, initialTimestamp: int, minPrice: int, maxPrice: int,
                   initialBook: map<int, Level>)
    requires v.Configured() && 0 <= minPrice < maxPrice
    modifies v`minTimestamp, v`maxTimestamp, v`minPrice, v`maxPrice, v`maxVisibleBandVolume,
      v`latestMaxVolumeChange, v`askTradeLineExtended, v`bidTradeLineExtended,
      v`activePrices, v`activeBands, v`priceLevelUpdates
    ensures v.Valid()
    ensures v.minTimestamp == initialTimestamp as real
    ensures v.maxTimestamp == (initialTimestamp + v.timeScale) as real
    ensures v.minPrice == minPrice && v.maxPrice == maxPrice
    ensures v.maxVisibleBandVolume == Max(0, TopBand(initialBook, v.Window()))
    ensures v.latestMaxVolumeChange == v.maxVisibleBandVolume
    ensures !v.askTradeLineExtended && !v.bidTradeLineExtended
    ensures v.activePrices == initialBook
    ensures SnapshotLog(v.priceLevelUpdates, initialBook, initialTimestamp)
    ensures BandsHold(v.activeBands, initialBook, v.Window())
    ensures forall i :: 0 <= i < |v.activeBands| ==>
      v.activeBands[i].startTimestamp == initialTimestamp as real &&
      v.activeBands[i].endTimestamp == initialTimestamp as real
    ensures NonNegative(initialBook) ==> v.Consistent()
  {
    var w := PriceWindow(minPrice, maxPrice, v.priceGranularity);
    var maxBand := MaxVisibleBandVolume(initialBook, w);
    LargestBandIsTop(initialBook, w, maxBand);
    var bands := InitialBandValues(initialTimestamp as real, initialBook, w);
    var log := SnapshotEntries(initialBook, initialTimestamp);
    SnapshotLedger(log, initialBook, initialTimestamp);
    ClearExtensions(v);
    Install(v, initialTimestamp as real, (initialTimestamp + v.timeScale) as real, minPrice, maxPrice,
            maxBand, initialBook, bands, log);
  }

  /** `initState` resets both trade-line extension flags. */
  method ClearExtensions(v: VizState)
    requires v.Configured()
    modifies v`askTradeLineExtended, v`bidTradeLineExtended
    ensures v.Configured() && !v.askTradeLineExtended && !v.bidTradeLineExtended
  {
    v.askTradeLineExtended, v.bidTradeLineExtended := false, false;
  }

  /** The engine fields `initState` assigns. */
  method Install(v: VizState, minTimestamp: real, maxTimestamp: real, minPrice: int, maxPrice: int,
                 maxBand: int, book: map<int, Level>, bands: seq<Band>, log: seq<LogEntry>)
    requires v.Configured() && 0 <= minPrice < maxPrice && minTimestamp < maxTimestamp
    requires |bands| == v.priceGranularity
    modifies v`minTimestamp, v`maxTimestamp, v`minPrice, v`maxPrice, v`maxVisibleBandVolume,
      v`latestMaxVolumeChange, v`activePrices, v`activeBands, v`priceLevelUpdates
    ensures v.Valid()
    ensures v.minTimestamp == minTimestamp && v.maxTimestamp == maxTimestamp
    ensures v.minPrice == minPrice && v.maxPrice == maxPrice
    ensures v.Window() == PriceWindow(minPrice, maxPrice, v.priceGranularity)
    ensures v.maxVisibleBandVolume == maxBand && v.latestMaxVolumeChange == maxBand
    ensures v.activePrices == book && v.activeBands == bands && v.priceLevelUpdates == log
  {
    v.minTimestamp, v.maxTimestamp := minTimestamp, maxTimestamp;
    v.minPrice, v.maxPrice := minPrice, maxPrice;
    v.maxVisibleBandVolume, v.latestMaxVolumeChange := maxBand, maxBand;
    v.activePrices, v.activeBands, v.priceLevelUpdates := book, bands, log;
  }

  /** A settings change from the bottom bar. Each field is set when the
      control sent it; JavaScript reads an empty name or a zero band count
      as absent. */
  datatype Setting = Setting(currency: string, priceGranularity: int, colorScheme: string)

  /** `handleSettingChange`: a currency change is handed to the parent
      (its name is returned) and touches no state; a band-count change
      sets `priceGranularity` and rebuilds the window without recomputing
      the shading maximum; a colour-scheme change only recolours, which
      is also a rebuild without recomputing the maximum. A rebuild keeps
      the engine's invariant. */
  method HandleSettingChange(v: VizState, setting: Setting) returns (currencyChange: Option<string>)
    requires v.Valid()
    requires setting.priceGranularity >= 0
    modifies v`priceGranularity, v`histRendering, v`activeBands, v`maxVisibleBandVolume,
      v`layer, v`bidLine, v`askLine
    ensures v.Valid()
    ensures v.maxVisibleBandVolume == old(v.maxVisibleBandVolume)
    ensures setting.currency != [] ==>
      currencyChange == Some(setting.currency) && unchanged(v)
    ensures setting.currency == [] ==> currencyChange == None
    ensures setting.currency == [] && setting.priceGranularity != 0 ==>
      v.priceGranularity == setting.priceGranularity
    ensures setting.currency == [] && setting.priceGranularity == 0 ==>
      v.priceGranularity == old(v.priceGranularity)
    ensures setting.currency == [] && (setting.priceGranularity != 0 || setting.colorScheme != []) ==>
      BandsHold(v.activeBands, Replayed(v.priceLevelUpdates, v.minTimestamp), v.Window())
    ensures old(v.Consistent()) ==> v.Consistent()
  {
    currencyChange := None;
    if setting.currency != [] {
      currencyChange := Some(setting.currency);
    } else if setting.priceGranularity != 0 {
      v.priceGranularity := setting.priceGranularity;
      Rebuild(v);
    } else if setting.colorScheme != [] {
      Rebuild(v);
    }
  }

  /** `histRender` without recomputing the maximum, after a settings
      change: the ledger and the log are untouched, so an engine whose
      ledger is its log's is consistent again afterwards. */
  method Rebuild(v: VizState)
    requires v.Configured() && v.WindowValid()
    modifies v`histRendering, v`activeBands, v`maxVisibleBandVolume, v`layer, v`bidLine, v`askLine
    ensures v.Valid() && v.maxVisibleBandVolume == old(v.maxVisibleBandVolume)
    ensures BandsHold(v.activeBands, Replayed(v.priceLevelUpdates, v.minTimestamp), v.Window())
    ensures (old(v.activePrices == LastWriteWins(v.priceLevelUpdates)) &&
             TimeSorted(v.priceLevelUpdates) && NonNegative(v.activePrices)) ==> v.Consistent()
  {
    Render(v, false);
    ghost var ledgerMatches := v.activePrices == LastWriteWins(v.priceLevelUpdates) &&
      TimeSorted(v.priceLevelUpdates) && NonNegative(v.activePrices);
    if ledgerMatches {
      RenderRestoresConsistency(v);
    }
  }
}
