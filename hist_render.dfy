/** `histRender`: rebuilding the visible window from the update log. The
    ledger at the window's left edge is rebuilt from the entries stamped at
    or before it, the bands are initialised from that ledger, and every
    later entry is replayed into its band. Optionally the largest band
    volume seen during the replay becomes the new shading maximum. */
module HistRender {
  import opened Types
  import opened Calc
  import opened Ledger
  import opened Markers
  import opened State
  import opened BandDrawing
  import opened PaperRender
  import opened VolumeText

  /** The ledger at time `t`: the last entry at or before `t` for each price. */
  function Baseline(log: seq<LogEntry>, t: real): map<int, Level>
  {
    LastWriteWins(Before(log, t))
  }

  /** The ledger the replay ends with: the baseline at `t` with every later
      entry folded over it in log order. */
  function Replayed(log: seq<LogEntry>, t: real): map<int, Level>
  {
    ApplyEntries(Baseline(log, t), After(log, t))
  }

  /** On a sorted log the replay ends with the ledger of the whole log. */
  lemma ReplayedIsLedger(log: seq<LogEntry>, t: real)
    requires TimeSorted(log)
    ensures Replayed(log, t) == LastWriteWins(log)
  {
    ReplayIsLastWriteWins(log, t);
  }

  /** The timestamp of the last entry of a list, if any (`curTimestamp`). */
  function LastStamp(es: seq<LogEntry>): Option<int>
  {
    if es == [] then None else Some(es[|es| - 1].timestamp)
  }

  lemma BeforeStep(log: seq<LogEntry>, k: int, t: real)
    requires 0 <= k < |log|
    ensures Before(log[..k + 1], t) ==
      if log[k].timestamp as real <= t then Before(log[..k], t) + [log[k]] else Before(log[..k], t)
  {
    assert log[..k + 1][..k] == log[..k];
  }

  lemma AfterStep(log: seq<LogEntry>, k: int, t: real)
    requires 0 <= k < |log|
    ensures After(log[..k + 1], t) ==
      if log[k].timestamp as real > t then After(log[..k], t) + [log[k]] else After(log[..k], t)
  {
    assert log[..k + 1][..k] == log[..k];
  }

  /** One entry of the drawing replay, on the ledger and on the last stamp. */
  lemma ReplayedStep(log: seq<LogEntry>, k: int, t: real, m: map<int, Level>)
    requires 0 <= k < |log|
    ensures log[k].timestamp as real > t ==>
      ApplyEntries(m, After(log[..k + 1], t)) == ApplyEntries(m, After(log[..k], t))[log[k].price := LevelOf(log[k])] &&
      LastStamp(After(log[..k + 1], t)) == Some(log[k].timestamp)
    ensures log[k].timestamp as real <= t ==> After(log[..k + 1], t) == After(log[..k], t)
  {
    AfterStep(log, k, t);
    if log[k].timestamp as real > t {
      ApplyEntriesAppend(m, After(log[..k], t), log[k]);
    }
  }

  /** The loop that builds `initialPriceLevels`: each entry stamped at or
      before `t` overwrites its price. */
  method BaselineLevels(log: seq<LogEntry>, t: real) returns (levels: map<int, Level>)
    ensures levels == Baseline(log, t)
  {
    levels := map[];
    var k := 0;
    while k < |log|
      invariant 0 <= k <= |log|
      invariant levels == LastWriteWins(Before(log[..k], t))
    {
      var e := log[k];
      BeforeStep(log, k, t);
      if e.timestamp as real <= t {
        LastWriteWinsAppend(Before(log[..k], t), e);
        levels := levels[e.price := Level(e.volume, e.isBid)];
      }
      k := k + 1;
    }
    assert log[..k] == log;
  }

  /** Replaying one entry into bands that hold the ledger `m`: the entry's
      band (when visible) changes by the entry's volume minus the volume the
      ledger held at its price, and then the bands hold the updated ledger. */
  lemma BandsHoldStep(bands: seq<Band>, bands': seq<Band>, m: map<int, Level>, e: LogEntry, w: PriceWindow)
    requires w.Valid() && BandsHold(bands, m, w) && |bands'| == |bands|
    requires forall i :: 0 <= i < |bands| && i != BandIndex(w, e.price) ==>
      bands'[i].volume == bands[i].volume && bands'[i].blank == bands[i].blank
    requires var b := BandIndex(w, e.price);
      0 <= b < |bands| ==> bands'[b].volume == bands[b].volume + (e.volume - Vol(m, e.price)) && !bands'[b].blank
    ensures BandsHold(bands', m[e.price := LevelOf(e)], w)
  {
    forall i | 0 <= i < |bands'|
      ensures bands'[i].volume == BandTotal(m[e.price := LevelOf(e)], w, i)
      ensures bands'[i].blank == Untouched(m[e.price := LevelOf(e)], w, i)
    {
      BandTotalUpdate(m, e.price, LevelOf(e), w, i);
    }
  }

  /** The largest of the first `n` band totals of the ledger `m`. */
  ghost function TopBandUpTo(m: map<int, Level>, w: PriceWindow, n: int): (r: int)
    requires w.Valid() && 1 <= n <= w.priceGranularity
    ensures forall i :: 0 <= i < n ==> BandTotal(m, w, i) <= r
    ensures exists i :: 0 <= i < n && BandTotal(m, w, i) == r
  {
    if n == 1 then BandTotal(m, w, 0) else Max(TopBandUpTo(m, w, n - 1), BandTotal(m, w, n - 1))
  }

  /** The largest band total of the ledger `m` over the whole window. */
  ghost function TopBand(m: map<int, Level>, w: PriceWindow): int
    requires w.Valid()
  {
    TopBandUpTo(m, w, w.priceGranularity)
  }

  /** What `getMaxVisibleBandVolume` promises pins it down: the largest band
      total, or zero when no band total is positive. */
  lemma LargestBandIsTop(m: map<int, Level>, w: PriceWindow, x: int)
    requires w.Valid() && x >= 0
    requires forall i :: 0 <= i < w.priceGranularity ==> BandTotal(m, w, i) <= x
    requires x == 0 || exists i :: 0 <= i < w.priceGranularity && BandTotal(m, w, i) == x
    ensures x == Max(0, TopBand(m, w))
  {
    var top := TopBand(m, w);
    var j :| 0 <= j < w.priceGranularity && BandTotal(m, w, j) == top;
    assert top <= x;
    if x != 0 {
      var i :| 0 <= i < w.priceGranularity && BandTotal(m, w, i) == x;
      assert x <= top;
    }
  }

  /** The band totals of the ledger `m`, band by band. */
  ghost function InitialTotals(m: map<int, Level>, w: PriceWindow): (r: seq<int>)
    requires w.Valid()
    ensures |r| == w.priceGranularity
    ensures forall i :: 0 <= i < |r| ==> r[i] == BandTotal(m, w, i)
  {
    seq(w.priceGranularity, i requires 0 <= i < w.priceGranularity => BandTotal(m, w, i))
  }

  /** The volumes of a list of bands. */
  function Volumes(bands: seq<Band>): (r: seq<int>)
    ensures |r| == |bands|
    ensures forall i :: 0 <= i < |bands| ==> r[i] == bands[i].volume
  {
    seq(|bands|, i requires 0 <= i < |bands| => bands[i].volume)
  }

  /** The seed of the recalculation, `+_.maxBy(initialBandValues, 'volume').volume`:
      the band volumes are `toFixed(d)` strings, so the seed is the volume
      of the first band whose text is largest. */
  ghost function TextSeed(m: map<int, Level>, w: PriceWindow, d: nat): int
    requires w.Valid()
  {
    var vols := InitialTotals(m, w);
    vols[MaxByText(Texts(vols, d))]
  }

  /** The seed is some band's total, and no band's total has a larger text. */
  lemma TextSeedIsTextLargest(m: map<int, Level>, w: PriceWindow, d: nat)
    requires w.Valid()
    ensures exists j :: 0 <= j < w.priceGranularity && TextSeed(m, w, d) == BandTotal(m, w, j)
    ensures forall i :: 0 <= i < w.priceGranularity ==>
      !TextBelow(FixedText(TextSeed(m, w, d), d), FixedText(BandTotal(m, w, i), d))
  {
    var vols := InitialTotals(m, w);
    var k := MaxByText(Texts(vols, d));
    assert TextSeed(m, w, d) == BandTotal(m, w, k);
  }

  /** When no band total is negative and all whole parts have the same
      number of digits, the text order is the numeric one and the seed is
      the largest band total. */
  lemma SeedIsTopWhenSameWidth(m: map<int, Level>, w: PriceWindow, d: nat, width: nat)
    requires w.Valid()
    requires forall i :: 0 <= i < w.priceGranularity ==>
      BandTotal(m, w, i) >= 0 && |NatText(Whole(BandTotal(m, w, i), d))| == width
    ensures TextSeed(m, w, d) == TopBand(m, w)
  {
    var vols := InitialTotals(m, w);
    var k := MaxByText(Texts(vols, d));
    forall i | 0 <= i < w.priceGranularity
      ensures BandTotal(m, w, i) <= vols[k]
    {
      SameWidthOrder(vols[k], vols[i], d);
    }
    var j :| 0 <= j < w.priceGranularity && BandTotal(m, w, j) == TopBand(m, w);
  }

  /** The text seed misses a larger band: with bands holding 9 and 10 at two
      decimals the seed is 9, and with nothing to replay the recalculated
      maximum stays below the band holding 10. */
  lemma SeedMissesLargerBand(m: map<int, Level>, w: PriceWindow)
    requires w.Valid() && w.priceGranularity == 2
    requires BandTotal(m, w, 0) == 900 && BandTotal(m, w, 1) == 1000
    ensures TextSeed(m, w, 2) == 900
    ensures Peak(TextSeed(m, w, 2), m, [], w) < BandTotal(m, w, 1)
  {
    TextOrderMisranks();
    assert InitialTotals(m, w) == [900, 1000];
  }

  /** The shading maximum the recalculation arrives at: the seed, raised to
      every total a replayed entry leaves in its own visible band. */
  ghost function Peak(seed: int, m0: map<int, Level>, es: seq<LogEntry>, w: PriceWindow): int
    requires w.Valid()
  {
    if es == [] then seed
    else
      var p := Peak(seed, m0, es[..|es| - 1], w);
      var b := BandIndex(w, es[|es| - 1].price);
      if 0 <= b < w.priceGranularity then Max(p, BandTotal(ApplyEntries(m0, es), w, b)) else p
  }

  /** The shading maximum `histRender` recomputes for the log `log` and the
      window's left edge `t`, at volume precision `d`. */
  ghost function RecalcPeak(log: seq<LogEntry>, t: real, w: PriceWindow, d: nat): int
    requires w.Valid()
  {
    Peak(TextSeed(Baseline(log, t), w, d), Baseline(log, t), After(log, t), w)
  }

  /** Replaying one more entry: the ledger takes the entry, and the peak
      rises to the total the entry leaves in its visible band. */
  lemma PeakStep(seed: int, m0: map<int, Level>, es: seq<LogEntry>, e: LogEntry, w: PriceWindow)
    requires w.Valid()
    ensures ApplyEntries(m0, es + [e]) == ApplyEntries(m0, es)[e.price := LevelOf(e)]
    ensures var b := BandIndex(w, e.price);
      Peak(seed, m0, es + [e], w) ==
        if 0 <= b < w.priceGranularity
        then Max(Peak(seed, m0, es, w), BandTotal(ApplyEntries(m0, es)[e.price := LevelOf(e)], w, b))
        else Peak(seed, m0, es, w)
  {
    ApplyEntriesAppend(m0, es, e);
    assert (es + [e])[..|es + [e]| - 1] == es;
  }

  /** The peak never falls as the replay goes on, and starts at the seed. */
  lemma {:induction false} PeakGrows(seed: int, m0: map<int, Level>, es: seq<LogEntry>, w: PriceWindow, k: int)
    requires w.Valid() && 0 <= k <= |es|
    ensures seed <= Peak(seed, m0, es[..k], w) <= Peak(seed, m0, es, w)
    decreases |es|
  {
    if es == [] {
      assert es[..k] == es;
    } else if k == |es| {
      assert es[..k] == es;
      PeakGrows(seed, m0, es[..|es| - 1], w, |es| - 1);
      assert es[..|es| - 1][..|es| - 1] == es[..|es| - 1];
    } else {
      var init := es[..|es| - 1];
      PeakGrows(seed, m0, init, w, k);
      assert init[..k] == es[..k];
    }
  }

  /** The volume replayed entry `k` leaves in its in-range band is at most
      the recomputed maximum. */
  lemma PeakBoundsStep(seed: int, m0: map<int, Level>, es: seq<LogEntry>, w: PriceWindow, k: int)
    requires w.Valid() && 0 <= k < |es| && 0 <= BandIndex(w, es[k].price) < w.priceGranularity
    ensures BandTotal(ApplyEntries(m0, es[..k + 1]), w, BandIndex(w, es[k].price)) <= Peak(seed, m0, es, w)
  {
    var pre := es[..k + 1];
    assert pre[..|pre| - 1] == es[..k] && pre[|pre| - 1] == es[k];
    assert BandTotal(ApplyEntries(m0, pre), w, BandIndex(w, es[k].price)) <= Peak(seed, m0, pre, w);
    PeakGrows(seed, m0, es, w, k + 1);
  }

  /** What the source's recalculation guarantees: the maximum is at least
      the seed and at least every volume a replayed entry leaves in its own
      visible band. */
  lemma PeakBoundsSteps(seed: int, m0: map<int, Level>, es: seq<LogEntry>, w: PriceWindow)
    requires w.Valid()
    ensures seed <= Peak(seed, m0, es, w)
    ensures forall k :: 0 <= k < |es| && 0 <= BandIndex(w, es[k].price) < w.priceGranularity ==>
      BandTotal(ApplyEntries(m0, es[..k + 1]), w, BandIndex(w, es[k].price)) <= Peak(seed, m0, es, w)
  {
    PeakGrows(seed, m0, es, w, 0);
    forall k | 0 <= k < |es| && 0 <= BandIndex(w, es[k].price) < w.priceGranularity
      ensures BandTotal(ApplyEntries(m0, es[..k + 1]), w, BandIndex(w, es[k].price)) <= Peak(seed, m0, es, w)
    {
      PeakBoundsStep(seed, m0, es, w, k);
    }
  }

  lemma {:induction false} PeakBoundsFinal(seed: int, m0: map<int, Level>, es: seq<LogEntry>, w: PriceWindow, i: int)
    requires w.Valid() && 0 <= i < w.priceGranularity && TopBand(m0, w) <= seed
    ensures BandTotal(ApplyEntries(m0, es), w, i) <= Peak(seed, m0, es, w)
    decreases |es|
  {
    if es != [] {
      var init, e := es[..|es| - 1], es[|es| - 1];
      PeakBoundsFinal(seed, m0, init, w, i);
      BandTotalUpdate(ApplyEntries(m0, init), e.price, LevelOf(e), w, i);
    }
  }

  /** Seeded with at least the baseline's largest band, the recalculated
      maximum bounds every band total at every point of the replay. */
  lemma PeakBoundsReplay(seed: int, m0: map<int, Level>, es: seq<LogEntry>, w: PriceWindow)
    requires w.Valid() && TopBand(m0, w) <= seed
    ensures forall k, i :: 0 <= k <= |es| && 0 <= i < w.priceGranularity ==>
      BandTotal(ApplyEntries(m0, es[..k]), w, i) <= Peak(seed, m0, es, w)
  {
    forall k, i | 0 <= k <= |es| && 0 <= i < w.priceGranularity
      ensures BandTotal(ApplyEntries(m0, es[..k]), w, i) <= Peak(seed, m0, es, w)
    {
      PeakBoundsFinal(seed, m0, es[..k], w, i);
      PeakGrows(seed, m0, es, w, k);
    }
  }

  /** The recalculated maximum is the seed or a total some replayed entry
      left in its band. */
  lemma {:induction false} PeakAttained(seed: int, m0: map<int, Level>, es: seq<LogEntry>, w: PriceWindow)
    requires w.Valid()
    ensures Peak(seed, m0, es, w) == seed ||
      exists k :: 0 <= k < |es| && 0 <= BandIndex(w, es[k].price) < w.priceGranularity &&
        Peak(seed, m0, es, w) == BandTotal(ApplyEntries(m0, es[..k + 1]), w, BandIndex(w, es[k].price))
    decreases |es|
  {
    if es != [] {
      var init := es[..|es| - 1];
      PeakAttained(seed, m0, init, w);
      assert es[..|es|] == es;
      forall k | 0 <= k < |init| ensures init[k] == es[k] && init[..k + 1] == es[..k + 1] {
      }
    }
  }

  /** The recalculation branch of `histRender`: the text-largest initial
      band's volume, raised whenever a replayed entry leaves a larger volume
      in its visible band. It works on copies and changes nothing. */
  method RecalcMaxBandVolume(log: seq<LogEntry>, t: real, w: PriceWindow, d: nat,
                             baseline: map<int, Level>, initial: seq<Band>)
    returns (maxVisibleBandVolume: int)
    requires w.Valid() && BandsHold(initial, baseline, w)
    requires baseline == Baseline(log, t)
    ensures maxVisibleBandVolume == RecalcPeak(log, t, w, d)
  {
    assert Volumes(initial) == InitialTotals(baseline, w);
    maxVisibleBandVolume := initial[MaxByText(Texts(Volumes(initial), d))].volume;
    ghost var seed := TextSeed(baseline, w, d);
    var curPriceLevels := baseline;
    var bands := initial;
    var k := 0;
    while k < |log|
      invariant 0 <= k <= |log|
      invariant curPriceLevels == ApplyEntries(baseline, After(log[..k], t))
      invariant BandsHold(bands, curPriceLevels, w)
      invariant maxVisibleBandVolume == Peak(seed, baseline, After(log[..k], t), w)
    {
      var e := log[k];
      AfterStep(log, k, t);
      if e.timestamp as real > t {
        PeakStep(seed, baseline, After(log[..k], t), e, w);
        bands, maxVisibleBandVolume := RecalcStep(bands, curPriceLevels, e, w, maxVisibleBandVolume);
        curPriceLevels := curPriceLevels[e.price := Level(e.volume, e.isBid)];
      }
      k := k + 1;
    }
    assert log[..k] == log;
  }

  /** One step of the recalculation: the entry's visible band takes the
      entry's volume change, and the maximum rises to the band's new volume
      if that is larger. */
  method RecalcStep(bands: seq<Band>, levels: map<int, Level>, e: LogEntry, w: PriceWindow, mx: int)
    returns (bands': seq<Band>, mx': int)
    requires w.Valid() && BandsHold(bands, levels, w)
    ensures BandsHold(bands', levels[e.price := LevelOf(e)], w)
    ensures var b := BandIndex(w, e.price);
      mx' == if 0 <= b < w.priceGranularity then Max(mx, BandTotal(levels[e.price := LevelOf(e)], w, b)) else mx
  {
    var volumeDiff := e.volume - Vol(levels, e.price);
    var bandIndex := BandIndex(w, e.price);
    bands', mx' := bands, mx;
    if 0 <= bandIndex < w.priceGranularity {
      var rawVolume := bands[bandIndex].volume + volumeDiff;
      bands' := bands[bandIndex := bands[bandIndex].(volume := rawVolume, blank := false)];
      if rawVolume > mx {
        mx' := rawVolume;
      }
    }
    BandsHoldStep(bands, bands', levels, e, w);
  }

  /** One step of the drawing replay: a band whose current span is wider
      than a pixel is drawn up to the entry and restarted there; then the
      entry's volume change is added. */
  function ReplayBand(b: Band, timestamp: int, volumeDiff: int, pixelWidth: real): (r: Band)
    ensures r.volume == b.volume + volumeDiff && !r.blank
    ensures timestamp as real - b.startTimestamp > pixelWidth ==>
      r.startTimestamp == r.endTimestamp == timestamp as real
    ensures timestamp as real - b.startTimestamp <= pixelWidth ==> r.(volume := b.volume, blank := b.blank) == b
  {
    var b' := if timestamp as real - b.startTimestamp > pixelWidth
              then b.(endTimestamp := timestamp as real, startTimestamp := timestamp as real)
              else b;
    b'.(volume := b'.volume + volumeDiff, blank := false)
  }

  /** One iteration of the drawing replay: the entry's visible band is
      replayed; then the bands hold the ledger with the entry applied. */
  method ReplayEntry(v: VizState, levels: map<int, Level>, e: LogEntry, w: PriceWindow, pixelWidth: real)
    requires w.Valid() && BandsHold(v.activeBands, levels, w)
    modifies v`activeBands
    ensures BandsHold(v.activeBands, levels[e.price := LevelOf(e)], w)
    ensures var b := BandIndex(w, e.price);
      if 0 <= b < w.priceGranularity
      then v.activeBands == old(v.activeBands)[b := ReplayBand(old(v.activeBands)[b], e.timestamp, e.volume - Vol(levels, e.price), pixelWidth)]
      else v.activeBands == old(v.activeBands)
  {
    var volumeDiff := e.volume - Vol(levels, e.price);
    var bandIndex := BandIndex(w, e.price);
    if 0 <= bandIndex < w.priceGranularity {
      var activeBand := ReplayBand(v.activeBands[bandIndex], e.timestamp, volumeDiff, pixelWidth);
      v.activeBands := v.activeBands[bandIndex := activeBand];
    }
    BandsHoldStep(old(v.activeBands), v.activeBands, levels, e, w);
  }

  /** The drawing replay of `histRender`: every entry stamped after the
      window's left edge is folded into the ledger and into its visible
      band. Returns the timestamp of the last entry replayed. */
  method ReplayBands(v: VizState, log: seq<LogEntry>, t: real, w: PriceWindow, baseline: map<int, Level>)
    returns (curTimestamp: Option<int>)
    requires log == v.priceLevelUpdates && t == v.minTimestamp && w == v.Window()
    requires w.Valid() && v.canvasWidth > 0.0 && BandsHold(v.activeBands, baseline, w)
    modifies v`activeBands
    ensures BandsHold(v.activeBands, ApplyEntries(baseline, After(log, t)), w)
    ensures curTimestamp == LastStamp(After(log, t))
  {
    var pixelWidth := (v.maxTimestamp - v.minTimestamp) / v.canvasWidth;
    var initialPriceLevels := baseline;
    curTimestamp := None;
    var k := 0;
    while k < |log|
      modifies v`activeBands
      invariant 0 <= k <= |log|
      invariant initialPriceLevels == ApplyEntries(baseline, After(log[..k], t))
      invariant BandsHold(v.activeBands, initialPriceLevels, w)
      invariant curTimestamp == LastStamp(After(log[..k], t))
    {
      var e := log[k];
      ReplayedStep(log, k, t, baseline);
      if e.timestamp as real > t {
        ReplayEntry(v, initialPriceLevels, e, w, pixelWidth);
        initialPriceLevels := initialPriceLevels[e.price := Level(e.volume, e.isBid)];
        curTimestamp := Some(e.timestamp);
      }
      k := k + 1;
    }
    assert log[..k] == log;
  }

  /** The band part of `histRender`: baseline ledger, initial bands, the
      optional recalculation of the shading maximum, the replay and the
      closing `drawBands`. */
  method RebuildBands(v: VizState, recalcMaxBandValues: bool)
    requires v.Configured() && v.WindowValid()
    modifies v`activeBands, v`maxVisibleBandVolume
    ensures v.Valid()
    ensures BandsHold(v.activeBands, Replayed(v.priceLevelUpdates, v.minTimestamp), v.Window())
    ensures recalcMaxBandValues ==>
      v.maxVisibleBandVolume == RecalcPeak(v.priceLevelUpdates, v.minTimestamp, v.Window(), v.pricePrecision)
    ensures !recalcMaxBandValues ==> v.maxVisibleBandVolume == old(v.maxVisibleBandVolume)
    ensures match LastStamp(After(v.priceLevelUpdates, v.minTimestamp))
      case Some(ts) => forall i :: 0 <= i < |v.activeBands| ==> v.activeBands[i].endTimestamp == ts as real
      case None => true
  {
    ResetAndReplay(v, recalcMaxBandValues);
  }

  /** The steps of the rebuild on the bands alone. */
  method ResetAndReplay(v: VizState, recalcMaxBandValues: bool)
    requires v.Window().Valid() && v.canvasWidth > 0.0
    modifies v`activeBands, v`maxVisibleBandVolume
    ensures BandsHold(v.activeBands, Replayed(v.priceLevelUpdates, v.minTimestamp), v.Window())
    ensures recalcMaxBandValues ==>
      v.maxVisibleBandVolume == RecalcPeak(v.priceLevelUpdates, v.minTimestamp, v.Window(), v.pricePrecision)
    ensures !recalcMaxBandValues ==> v.maxVisibleBandVolume == old(v.maxVisibleBandVolume)
    ensures match LastStamp(After(v.priceLevelUpdates, v.minTimestamp))
      case Some(ts) => forall i :: 0 <= i < |v.activeBands| ==> v.activeBands[i].endTimestamp == ts as real
      case None => true
  {
    var log, t, w := v.priceLevelUpdates, v.minTimestamp, v.Window();
    var initialPriceLevels := BaselineLevels(log, t);
    var initialBandValues := InitialBandValues(t, initialPriceLevels, w);
    v.activeBands := initialBandValues;
    if recalcMaxBandValues {
      var maxVisibleBandVolume := RecalcMaxBandVolume(log, t, w, v.pricePrecision, initialPriceLevels, initialBandValues);
      v.maxVisibleBandVolume := maxVisibleBandVolume;
    }
    var curTimestamp := ReplayBands(v, log, t, w, initialPriceLevels);
    DrawToLastUpdate(v, curTimestamp, Replayed(log, t));
  }

  /** The closing `drawBands(vizState, curTimestamp)`: every band is drawn
      up to the last replayed entry; the volumes, and so what the bands
      hold, stay. */
  method DrawToLastUpdate(v: VizState, curTimestamp: Option<int>, m: map<int, Level>)
    requires v.Window().Valid() && BandsHold(v.activeBands, m, v.Window())
    modifies v`activeBands
    ensures BandsHold(v.activeBands, m, v.Window())
    ensures match curTimestamp
      case Some(ts) => forall i :: 0 <= i < |v.activeBands| ==> v.activeBands[i].endTimestamp == ts as real
      case None => v.activeBands == old(v.activeBands)
  {
    if curTimestamp.Some? {
      DrawBands(v, curTimestamp.value as real);
      BandsHoldTimestamps(old(v.activeBands), v.activeBands, m, v.Window());
    }
  }

  /** `histRender(vizState, canvas, recalcMaxBandValues)`. Afterwards band
      `i` holds the replayed ledger's volume in band `i`, every band is
      drawn up to the last replayed entry, the markers and trade lines are
      moved to the current window, and with `recalcMaxBandValues` the
      shading maximum is the replay's peak. */
  method Render(v: VizState, recalcMaxBandValues: bool)
    requires v.Configured() && v.WindowValid()
    modifies v`histRendering, v`activeBands, v`maxVisibleBandVolume, v`layer, v`bidLine, v`askLine
    ensures v.Valid() && !v.histRendering
    ensures BandsHold(v.activeBands, Replayed(v.priceLevelUpdates, v.minTimestamp), v.Window())
    ensures recalcMaxBandValues ==>
      v.maxVisibleBandVolume == RecalcPeak(v.priceLevelUpdates, v.minTimestamp, v.Window(), v.pricePrecision)
    ensures !recalcMaxBandValues ==> v.maxVisibleBandVolume == old(v.maxVisibleBandVolume)
    ensures match LastStamp(After(v.priceLevelUpdates, v.minTimestamp))
      case Some(ts) => forall i :: 0 <= i < |v.activeBands| ==> v.activeBands[i].endTimestamp == ts as real
      case None => true
    ensures v.layer == RelaidLayer(old(v.layer), v.View())
    ensures v.bidLine == Redrawn(old(v.bidLine), v.View()) && v.askLine == Redrawn(old(v.askLine), v.View())
  {
    RebuildBands(v, recalcMaxBandValues);
    FinishRender(v);
  }

  /** The tail of `histRender`: the trades are re-laid for the new window
      and the rendering flag is cleared. */
  method FinishRender(v: VizState)
    requires v.Valid()
    modifies v`histRendering, v`layer, v`bidLine, v`askLine
    ensures v.Valid() && !v.histRendering
    ensures v.layer == RelaidLayer(old(v.layer), v.View())
    ensures v.bidLine == Redrawn(old(v.bidLine), v.View()) && v.askLine == Redrawn(old(v.askLine), v.View())
  {
    ReRenderTrades(v);
    v.histRendering := false;
  }

  /** After a rebuild the engine's invariant holds again whenever the ledger
      is the log's, the log is sorted and no volume is negative. */
  lemma RenderRestoresConsistency(v: VizState)
    requires v.Valid()
    requires BandsHold(v.activeBands, Replayed(v.priceLevelUpdates, v.minTimestamp), v.Window())
    requires v.activePrices == LastWriteWins(v.priceLevelUpdates) && TimeSorted(v.priceLevelUpdates)
    requires NonNegative(v.activePrices)
    ensures v.Consistent()
  {
    ReplayedIsLedger(v.priceLevelUpdates, v.minTimestamp);
  }
}
