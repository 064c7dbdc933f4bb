/** The older `histRender` (the `src/Orderbook` copy inside react-orderbook).
    It recomputes the shading maximum from the current ledger, seeds a new
    ledger with the visible prices only, replaces `activePrices` with it,
    and replays only the entries inside the window, strictly inside its
    price range. */
module LegacyHistRender {
  import opened Types
  import opened Calc
  import opened Ledger
  import opened State
  import opened HistRender
  import opened BandDrawing

  /** The two filters the older rebuild applies to the log. */
  datatype Filter =
    | Seed(minTimestamp: real, minPrice: int, maxPrice: int)
    | Replay(minTimestamp: real, maxTimestamp: real, minPrice: int, maxPrice: int)

  /** The seed keeps entries at or before the left edge, at a price inside
      the window with both ends included; the replay keeps entries inside
      the time window with the left edge excluded, at a price strictly
      inside the window. */
  predicate Keeps(f: Filter, e: LogEntry)
  {
    match f
    case Seed(t, lo, hi) => e.timestamp as real <= t && lo <= e.price <= hi
    case Replay(t0, t1, lo, hi) => t0 < e.timestamp as real <= t1 && lo < e.price < hi
  }

  /** `_.filter(priceLevelUpdates, ...)`: the kept entries, in log order. */
  function Kept(log: seq<LogEntry>, f: Filter): seq<LogEntry>
  {
    if log == [] then []
    else
      var init, last := log[..|log| - 1], log[|log| - 1];
      if Keeps(f, last) then Kept(init, f) + [last] else Kept(init, f)
  }

  /** `Kept` keeps exactly the entries the filter accepts. */
  lemma {:induction false} KeptMembers(log: seq<LogEntry>, f: Filter)
    ensures forall e :: e in Kept(log, f) <==> e in log && Keeps(f, e)
    decreases |log|
  {
    if log != [] {
      var init, last := log[..|log| - 1], log[|log| - 1];
      KeptMembers(init, f);
      assert log == init + [last];
    }
  }

  lemma KeptStep(log: seq<LogEntry>, k: int, f: Filter)
    requires 0 <= k < |log|
    ensures Kept(log[..k + 1], f) ==
      if Keeps(f, log[k]) then Kept(log[..k], f) + [log[k]] else Kept(log[..k], f)
  {
    assert log[..k + 1][..k] == log[..k];
  }

  /** A ledger folded from entries the seed accepts holds only window prices. */
  lemma KeptPrices(m: map<int, Level>, log: seq<LogEntry>, f: Filter)
    ensures forall p :: p in ApplyEntries(m, Kept(log, f)) ==>
      p in m || exists e :: e in log && Keeps(f, e) && e.price == p
  {
    KeptMembers(log, f);
  }

  /** The ledger the older rebuild ends with: the visible prices at or
      before the left edge, then every replayed entry, last write wins.
      Every price it holds lies in the window. */
  function LegacyLedger(log: seq<LogEntry>, minTimestamp: real, maxTimestamp: real,
                        minPrice: int, maxPrice: int): (r: map<int, Level>)
    ensures forall p :: p in r ==> minPrice <= p <= maxPrice
  {
    var seed := Seed(minTimestamp, minPrice, maxPrice);
    var replay := Replay(minTimestamp, maxTimestamp, minPrice, maxPrice);
    KeptPrices(map[], log, seed);
    KeptPrices(LastWriteWins(Kept(log, seed)), log, replay);
    ApplyEntries(LastWriteWins(Kept(log, seed)), Kept(log, replay))
  }

  /** The loop that builds `initialPriceLevels`: each entry the seed accepts
      overwrites its price. */
  method SeedLevels(log: seq<LogEntry>, f: Filter) returns (levels: map<int, Level>)
    ensures levels == LastWriteWins(Kept(log, f))
  {
    levels := map[];
    var k := 0;
    while k < |log|
      invariant 0 <= k <= |log|
      invariant levels == LastWriteWins(Kept(log[..k], f))
    {
      var e := log[k];
      KeptStep(log, k, f);
      if Keeps(f, e) {
        LastWriteWinsAppend(Kept(log[..k], f), e);
        levels := levels[e.price := Level(e.volume, e.isBid)];
      }
      k := k + 1;
    }
    assert log[..k] == log;
  }

  /** One replayed entry: the ledger takes the entry's volume, and the
      entry's band restarts at the entry's time with the change added;
      the bands keep holding the ledger. */
  method ReplayStep(v: VizState, e: LogEntry, w: PriceWindow)
    requires w.Valid() && BandsHold(v.activeBands, v.activePrices, w)
    requires 0 <= BandIndex(w, e.price) < w.priceGranularity
    modifies v`activePrices, v`activeBands
    ensures v.activePrices == old(v.activePrices)[e.price := LevelOf(e)]
    ensures var b := BandIndex(w, e.price);
      v.activeBands == old(v.activeBands)[b := Band(e.timestamp as real, e.timestamp as real,
        old(v.activeBands[b].volume) + (e.volume - Vol(old(v.activePrices), e.price)), false)]
    ensures BandsHold(v.activeBands, v.activePrices, w)
  {
    var volumeDiff := e.volume - Vol(v.activePrices, e.price);
    v.activePrices := v.activePrices[e.price := Level(e.volume, e.isBid)];
    var bandIndex := BandIndex(w, e.price);
    var activeBand := v.activeBands[bandIndex];
    v.activeBands := v.activeBands[bandIndex := Band(e.timestamp as real, e.timestamp as real,
                                                     activeBand.volume + volumeDiff, false)];
    BandsHoldStep(old(v.activeBands), v.activeBands, old(v.activePrices), e, w);
  }

  /** The replay loop over `visibleLevelUpdates`: every entry the replay
      filter accepts, in log order, goes through `ReplayStep`. Returns the
      timestamp of the last one. */
  method ReplayVisible(v: VizState, log: seq<LogEntry>, f: Filter, w: PriceWindow)
    returns (curTimestamp: Option<int>)
    requires f.Replay? && f.minPrice == w.minPrice && f.maxPrice == w.maxPrice
    requires w.Valid() && BandsHold(v.activeBands, v.activePrices, w)
    modifies v`activePrices, v`activeBands
    ensures v.activePrices == ApplyEntries(old(v.activePrices), Kept(log, f))
    ensures BandsHold(v.activeBands, v.activePrices, w)
    ensures curTimestamp == LastStamp(Kept(log, f))
  {
    ghost var m0 := v.activePrices;
    curTimestamp := None;
    var k := 0;
    while k < |log|
      modifies v`activePrices, v`activeBands
      invariant 0 <= k <= |log|
      invariant v.activePrices == ApplyEntries(m0, Kept(log[..k], f))
      invariant BandsHold(v.activeBands, v.activePrices, w)
      invariant curTimestamp == LastStamp(Kept(log[..k], f))
    {
      curTimestamp := ReplayEntry(v, m0, log, k, f, w, curTimestamp);
      k := k + 1;
    }
    assert log[..k] == log;
  }

  /** One turn of the replay loop: entry `k` goes through `ReplayStep`
      when the filter accepts it, and is skipped otherwise. */
  method ReplayEntry(v: VizState, ghost m0: map<int, Level>, log: seq<LogEntry>, k: int, f: Filter,
                     w: PriceWindow, curTimestamp: Option<int>) returns (next: Option<int>)
    requires f.Replay? && f.minPrice == w.minPrice && f.maxPrice == w.maxPrice
    requires 0 <= k < |log| && w.Valid() && BandsHold(v.activeBands, v.activePrices, w)
    requires v.activePrices == ApplyEntries(m0, Kept(log[..k], f))
    requires curTimestamp == LastStamp(Kept(log[..k], f))
    modifies v`activePrices, v`activeBands
    ensures v.activePrices == ApplyEntries(m0, Kept(log[..k + 1], f))
    ensures BandsHold(v.activeBands, v.activePrices, w)
    ensures next == LastStamp(Kept(log[..k + 1], f))
  {
    var e := log[k];
    KeptStep(log, k, f);
    next := curTimestamp;
    if Keeps(f, e) {
      ReplayKept(v, m0, Kept(log[..k], f), e, w);
      next := Some(e.timestamp);
    }
  }

  /** `ReplayStep` on an entry strictly inside the price window, read as
      one more entry folded into the replayed ledger. */
  method ReplayKept(v: VizState, ghost m0: map<int, Level>, ghost kept: seq<LogEntry>, e: LogEntry, w: PriceWindow)
    requires w.Valid() && w.minPrice < e.price < w.maxPrice
    requires BandsHold(v.activeBands, v.activePrices, w) && v.activePrices == ApplyEntries(m0, kept)
    modifies v`activePrices, v`activeBands
    ensures v.activePrices == ApplyEntries(m0, kept + [e])
    ensures BandsHold(v.activeBands, v.activePrices, w)
  {
    ApplyEntriesAppend(m0, kept, e);
    ReplayStep(v, e, w);
  }

  /** The older `histRender(vizState, canvas)`. The shading maximum is the
      largest band of the ledger as it was; the ledger is replaced by the
      window's seed with the window's entries replayed, so it holds no
      price outside the window; the bands hold that ledger; every band is
      drawn up to the last replayed entry. The log is not touched. */
  method LegacyHistRender(v: VizState)
    requires v.Configured() && v.WindowValid()
    modifies v`maxVisibleBandVolume, v`activePrices, v`activeBands
    ensures v.Valid()
    ensures v.maxVisibleBandVolume == Max(0, TopBand(old(v.activePrices), v.Window()))
    ensures v.activePrices ==
      LegacyLedger(v.priceLevelUpdates, v.minTimestamp, v.maxTimestamp, v.minPrice, v.maxPrice)
    ensures BandsHold(v.activeBands, v.activePrices, v.Window())
    ensures match LastStamp(Kept(v.priceLevelUpdates,
                                 Replay(v.minTimestamp, v.maxTimestamp, v.minPrice, v.maxPrice)))
      case Some(ts) => forall i :: 0 <= i < |v.activeBands| ==> v.activeBands[i].endTimestamp == ts as real
      case None => true
  {
    var log, w := v.priceLevelUpdates, v.Window();
    var maxBand := MaxVisibleBandVolume(v.activePrices, w);
    LargestBandIsTop(v.activePrices, w, maxBand);
    Rebuild(v, log, w, v.minTimestamp, v.maxTimestamp, maxBand);
    assert v.Window() == w;
  }

  /** The rebuild proper, on the window's values: seed, initial bands,
      replay, and the closing `drawBands`. */
  method Rebuild(v: VizState, log: seq<LogEntry>, w: PriceWindow, t0: real, t1: real, maxBand: int)
    requires w.Valid()
    modifies v`maxVisibleBandVolume, v`activePrices, v`activeBands
    ensures v.maxVisibleBandVolume == maxBand
    ensures v.activePrices == LegacyLedger(log, t0, t1, w.minPrice, w.maxPrice)
    ensures BandsHold(v.activeBands, v.activePrices, w)
    ensures match LastStamp(Kept(log, Replay(t0, t1, w.minPrice, w.maxPrice)))
      case Some(ts) => forall i :: 0 <= i < |v.activeBands| ==> v.activeBands[i].endTimestamp == ts as real
      case None => true
  {
    var seed := Seed(t0, w.minPrice, w.maxPrice);
    var replay := Replay(t0, t1, w.minPrice, w.maxPrice);
    var initialPriceLevels := SeedLevels(log, seed);
    var bands := InitialBandValues(t0, initialPriceLevels, w);
    v.maxVisibleBandVolume, v.activePrices, v.activeBands := maxBand, initialPriceLevels, bands;
    var curTimestamp := ReplayVisible(v, log, replay, w);
    DrawBandsTo(v, curTimestamp, v.activePrices, w);
  }

  /** `drawBands(vizState, curTimestamp)` after the replay: every band is
      drawn up to the last replayed entry; no volume changes. */
  method DrawBandsTo(v: VizState, curTimestamp: Option<int>, m: map<int, Level>, w: PriceWindow)
    requires w.Valid() && BandsHold(v.activeBands, m, w)
    modifies v`activeBands
    ensures BandsHold(v.activeBands, m, w)
    ensures match curTimestamp
      case Some(ts) => forall i :: 0 <= i < |v.activeBands| ==> v.activeBands[i].endTimestamp == ts as real
      case None => v.activeBands == old(v.activeBands)
  {
    if curTimestamp.Some? {
      DrawBands(v, curTimestamp.value as real);
      BandsHoldTimestamps(old(v.activeBands), v.activeBands, m, w);
    }
  }
}
