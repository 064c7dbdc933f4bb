# cryptoviz order-book heatmap engine, modelled in Dafny

cryptoviz draws a live order book as a heatmap. The price axis is cut into
`priceGranularity` horizontal bands. Each band is shaded by the total resting
volume of the prices that fall in it, from the time of one book change to
the next. This project models the bookkeeping behind that picture:

- the engine state `vizState`, as the class `State.VizState`, with its
  price ledger `activePrices`, its append-only update log
  `priceLevelUpdates`, the bands `activeBands`, the time and price window,
  the shading maximum and the trade-line data;
- the band arithmetic of `calc.js` (`Calc`) and the pixel mapping
  (`Geometry`);
- `renderUpdate`, the incremental step that takes one modification, removal
  or trade (`Render`);
- `drawBands` (`BandDrawing`);
- `histRender`, the rebuild of the bands from the log (`HistRender`);
- the `toFixed` text of volumes and the string order by which lodash's
  `maxBy` ranks band volumes (`VolumeText`);
- the trade lines and trade markers of `paperRender.js` (`PaperRender`,
  `Markers`);
- the component's initial state, `initState` and `handleSettingChange`
  (`Orderbook`).

Three older revisions of the same engine are separate modules over the same
class:

- `LegacyRender` and `LegacyHistRender` model
  `src/react-orderbook/src/Orderbook`;
- `RootHistRender`, `RootPaperRender` and `RootCalc` model `src/Orderbook`
  and `src/calc.js`.

Units:

- A price is an integer number of ticks. The source keys the ledger by
  `toFixed(pricePrecision)` text, so this is fixed-point.
- A volume is an integer in fixed-point units.
- Change and log timestamps are integer milliseconds.
- The window's `minTimestamp` and `maxTimestamp` are reals, because the
  right edge is stretched by a fraction of the window.
- Pixel geometry is real.

The band index is `floor((price - minPrice) * granularity / (maxPrice -
minPrice))`, computed exactly, with the top price forced into the last band.

Invariants proved:

- The ledger is the last-write-wins view of the log. `Ledger.LastWriteWins`
  folds the log so that the latest entry for a price decides it.
- The log is in time order, and no ledger volume is negative.
- Every band holds the sum of the ledger volumes whose band index is its
  own (`Calc.BandsHold` over `Calc.BandTotal`), and a band is still the
  literal `'0'` text of `getInitialBandValues` exactly when no price of the
  ledger falls in it (`Calc.Untouched`). Together with the first two
  invariants this is `State.VizState.Consistent`.

Results proved:

- `renderUpdate` keeps the consistency invariant for well-formed changes
  that arrive in time order.
- Every `histRender` restores it.
- On a time-ordered log whose ledger is its last-write-wins view, a rebuild
  from the log gives the bands that the incremental steps reach.

## Model

| member | source | states |
|---|---|---|
| Calc.BandIndex | src/react-orderbook/calc.js:183-195 | the top price maps to the last band and the bottom price to band 0; a price lies in the window exactly when its index is in `[0, priceGranularity)`; prices below the window give negative indices and prices above it give indices of at least `priceGranularity` |
| Calc.BandIndexFloor | src/react-orderbook/calc.js:188-193 | below the top price, the index is the floor of the price's offset divided by the band span: the band starts at or below the price and ends above it |
| Calc.BandIndexMonotone | src/react-orderbook/calc.js:183-195 | the band index never decreases as the price grows |
| Calc.FloorIndex | src/react-orderbook/calc.js:193 | the floored quotient is 0 at offset 0, is negative exactly for negative offsets, is below `g` for offsets inside the span, and is at least `g` beyond it |
| Calc.BandTotalUpdate | src/react-orderbook/calc.js:96-106 | writing one price in the ledger changes only that price's band total, and changes it by the new volume minus the old one; a band is untouched after the write exactly when it was untouched before and the written price is not in it |
| Calc.BandTotalNonNegative | src/react-orderbook/calc.js:96-106 | a ledger with no negative volume gives no negative band total |
| Calc.BandTotalVisible | src/react-orderbook/calc.js:96-106 | two ledgers that agree on the in-window prices give the same band totals |
| Calc.InitialBandValues | src/react-orderbook/calc.js:76-109 | exactly `priceGranularity` bands, each starting and ending at `initialTimestamp`; band `i` holds the sum of the book volumes whose index is `i`; out-of-window prices add nothing; a band keeps the literal `'0'` exactly when no price of the book falls in it |
| Calc.SeqBandSumIsBandSum | src/react-orderbook/calc.js:144-170 | summing a band over an increasing list of prices gives the same total as summing it over the set of those prices |
| Calc.VisibleMembers | src/react-orderbook/calc.js:147-149 | the visible prices are exactly the listed prices inside `[minPrice, maxPrice]` |
| Calc.VisibleIncreasing | src/react-orderbook/calc.js:144-149 | filtering a sorted price list keeps it sorted |
| Calc.VisibleBandSum | src/react-orderbook/calc.js:147-149 | dropping the out-of-window prices does not change any band's sum |
| Calc.Insert | src/react-orderbook/calc.js:144-146 | inserting into a sorted list keeps it sorted and adds exactly the new price |
| Calc.SortedPrices | src/react-orderbook/calc.js:144-146 | the book's prices, each once, in increasing order |
| Calc.BandSums | src/react-orderbook/calc.js:154-170 | the per-band running sums have one entry per band |
| Calc.BandSumsAreSums | src/react-orderbook/calc.js:154-170 | each running sum over a price list equals that band's sum over the list |
| Calc.VisibleTotals | src/react-orderbook/calc.js:144-170 | summing the sorted visible prices band by band gives each band's total in the book |
| Calc.MaxVisibleBandVolume | src/react-orderbook/calc.js:134-177 | the result is at least 0 and at least every band total; it is 0 or equals the total of some band |
| Calc.RunningMaxDone | src/react-orderbook/calc.js:172-176 | after the final comparison the maximum bounds every band and is attained or 0 |
| Calc.RunningMaxStep | src/react-orderbook/calc.js:154-170 | one price of the sorted loop keeps the running band, the running volume and the running maximum in step with the band sums |
| Calc.MaxBandOfSorted | src/react-orderbook/calc.js:151-176 | over sorted in-window prices, the loop returns a value that is at least 0, bounds every band sum and is attained by some band or is 0 |
| Calc.GetTopOfBook | src/react-orderbook/calc.js:115-128 | nothing exactly when the book has no ask; otherwise the best ask is the first ask in key order and the best bid is the entry just before it, or none when the first entry is an ask |
| Geometry.PixelPosition | src/react-orderbook/calc.js:15-28 | `minTime` maps to x = 60 and `maxTime` to x = width + 60; `minPrice` maps to y = height and `maxPrice` to y = 0 |
| Geometry.PixelX | src/react-orderbook/calc.js:33-36 | the window's left edge maps to x = 60 and its right edge to width + 60 |
| Geometry.PixelY | src/react-orderbook/calc.js:41-43 | the bottom price maps to y = height and the top price to y = 0 |
| Geometry.Gpp | src/react-orderbook/calc.js:57-71 | the left edge maps to x = 60 and the top price to y = 0 |
| Geometry.GppAgreesWithPixelXY | src/react-orderbook/calc.js:33-71 | `gpp` gives the same point as `getPixelX` and `getPixelY` |
| Geometry.TimestampFromPixel | src/react-orderbook/calc.js:197-200 | x = 60 reads as `minTimestamp` and x = width + 60 as `maxTimestamp` |
| Geometry.PriceFromPixel | src/react-orderbook/calc.js:202-206 | y = height reads as `minPrice` and y = 0 as `maxPrice` |
| Geometry.TimestampRoundTrip | src/react-orderbook/calc.js:197-200 | reading the x of a timestamp gives the timestamp back; the inset cancels |
| Geometry.PixelXRoundTrip | src/react-orderbook/calc.js:33-36 | the x of the timestamp read at a pixel is that pixel |
| Geometry.PriceRoundTrip | src/react-orderbook/calc.js:202-206 | reading the y of a price gives the price back |
| Geometry.PixelYRoundTrip | src/react-orderbook/calc.js:41-43 | the y of the price read at a pixel is that pixel |
| Geometry.PixelMonotone | src/react-orderbook/calc.js:33-43 | a later time is further right; a higher price is higher on the canvas, so its y is smaller |
| Ledger.ApplyEntries | src/react-orderbook/Orderbook/histRender.js:24-31 | applying log entries to a ledger leaves it holding its own prices plus every logged price |
| Ledger.BeforeMembers | src/react-orderbook/Orderbook/histRender.js:24-26 | the baseline entries are exactly the logged entries stamped at or before `minTimestamp` |
| Ledger.AfterMembers | src/react-orderbook/Orderbook/histRender.js:83-87 | the replayed entries are exactly the logged entries stamped after `minTimestamp` |
| Ledger.ApplyEntriesConcat | src/react-orderbook/Orderbook/histRender.js:83-95 | applying two runs of entries one after the other is applying their concatenation |
| Ledger.ApplyEntriesOverride | src/react-orderbook/Orderbook/histRender.js:83-95 | applying entries to a ledger overrides it with their last-write-wins view |
| Ledger.LastWriteWinsAppend | src/react-orderbook/Orderbook/render.js:129-137 | appending an entry to the log writes that entry's price in its last-write-wins ledger |
| Ledger.LastWriteWinsLast | src/react-orderbook/Orderbook/histRender.js:24-31 | in the ledger, a price holds the volume and side of its last log entry |
| Ledger.LastWriteWinsAbsent | src/react-orderbook/Orderbook/histRender.js:24-31 | a price the log never mentions is absent from the ledger |
| Ledger.LastWriteWinsNonNegative | src/react-orderbook/Orderbook/render.js:124-137 | a log without negative volumes gives a ledger without negative volumes |
| Ledger.SortedSplit | src/react-orderbook/Orderbook/histRender.js:21-22 | a time-ordered log is its baseline entries followed by its later entries |
| Ledger.ReplayIsLastWriteWins | src/react-orderbook/Orderbook/histRender.js:21-95 | on a time-ordered log, replaying the later entries over the baseline ledger gives the ledger of the whole log |
| Ledger.SortedAppend | src/react-orderbook/Orderbook/render.js:135-137 | appending an entry no earlier than the log's last keeps the log in time order |
| State.VizState.constructor | src/react-orderbook/Orderbook/Orderbook.js:26-69 | the defaults: a 20000 ms time scale, granularity 100, time granularity 1000, no manual zoom, marker radius 10, largest trade 0, the given `pricePrecision`, empty log, trade records and maximum history, both extension flags off, empty trade lines and marker layer |
| Render.VolumeDiff | src/react-orderbook/Orderbook/render.js:46-73 | a modification moves the price to its new amount; a removal moves it to 0; a trade moves nothing |
| Render.NewVolume | src/react-orderbook/Orderbook/render.js:124-128 | the recorded volume is never negative: `max(0, newAmount)` for a modification, 0 for a removal, and the old volume clamped at 0 for a trade |
| Render.RemovalOfAbsentPrice | src/react-orderbook/Orderbook/render.js:61-66 | removing a price the ledger does not hold gives a change of 0 |
| Render.NoClamp | src/react-orderbook/Orderbook/render.js:124-128 | for a well-formed change on a ledger without negative volumes, the recorded volume is the old one plus the change, with no clamping |
| Render.Entry | src/react-orderbook/Orderbook/render.js:135-137 | the appended log entry carries the change's price, side and timestamp and the volume written to the ledger |
| Render.RecordKeepsLedger | src/react-orderbook/Orderbook/render.js:129-137 | recording a change keeps the ledger the last-write-wins view of the grown log, keeps the log in time order and creates no negative volume |
| Render.RecordAddsDiff | src/react-orderbook/Orderbook/render.js:124-132 | for a well-formed change the new ledger is the old one with the change added at its price |
| Render.WidenMax | src/react-orderbook/Orderbook/render.js:142 | the new top is 1.003 times the old, rounded to a tick, and never below the old top |
| Render.NarrowMin | src/react-orderbook/Orderbook/render.js:146 | the new bottom is 0.997 times the old, rounded to a tick, and stays in `[0, old bottom]` |
| Render.ZoomOnlyWidens | src/react-orderbook/Orderbook/render.js:140-149 | auto-zoom never narrows the window and never makes a price negative; it changes the window only for a trade with manual zoom off |
| Render.TopTradeWidens | src/react-orderbook/Orderbook/render.js:140-144 | a trade at or above the top of the window raises the top once the top is at least 167 ticks |
| Render.Stretched | src/react-orderbook/Orderbook/render.js:208-210 | the new right edge lies beyond the old one, and the window becomes 1.2 times as long |
| Render.StretchMakesRoom | src/react-orderbook/Orderbook/render.js:208-211 | once stretched, the change that triggered the stretch is no longer in the last 5% of the window |
| Render.BandTotalCovers | src/react-orderbook/Orderbook/render.js:199-204 | on a ledger without negative volumes, a band's total is at least the volume of each price in it |
| Render.BandStepHolds | src/react-orderbook/Orderbook/render.js:189-205 | when the band index is in range, the band that takes the change and clamps at 0 still holds the new ledger's total |
| Render.OffWindowHolds | src/react-orderbook/Orderbook/render.js:189-195 | a change outside the window leaves every band holding the new ledger's total |
| Render.NegativeAmountBreaksBands | src/react-orderbook/Orderbook/render.js:124-204 | with a negative new amount the ledger clamp and the band clamp disagree: two prices of 3 and 4 in one band, the first set to -2, leave a ledger total of 4 and a band of 2 |
| Render.HoldsIsConsistent | src/react-orderbook/Orderbook/render.js:28-218 | the consistency invariant is exactly the well-formed state plus a ledger that matches the log and bands that hold the ledger |
| Render.RenderUpdate | src/react-orderbook/Orderbook/render.js:28-218 | the ledger takes the change's recorded volume; the log grows by exactly that entry; a trade adds exactly one trade record; the price window is the auto-zoomed one (it changes only for a trade near an edge without manual zoom); `maxTimestamp` is unchanged or, for a change near the right edge, stretched by a fifth of the window; the shading maximum does not fall unless auto-zoom lowered the bottom; a well-formed change no earlier than the log keeps the engine consistent |
| Render.Notify | src/react-orderbook/Orderbook/render.js:105-114 | the trade records grow by the change's trade and the state stays well formed |
| Render.NotifyChange | src/react-orderbook/Orderbook/render.js:105-114 | a trade gets one trade record and the largest trade becomes `max(old, amountTraded)`; any other change leaves markers and the largest trade alone and extends both trade lines to its time |
| Render.NotifyTrade | src/react-orderbook/Orderbook/render.js:105-108 | one trade record holding the trade's time, size, side and price; the largest trade becomes the larger of the old largest and this one |
| Render.UpdateEngine | src/react-orderbook/Orderbook/render.js:119-217 | the ledger and log equations of `renderUpdate`; the window changes only by auto-zoom; the right edge either stays or is stretched; unless the bottom moved, the shading maximum does not fall; the invariant is kept |
| Render.RecordStep | src/react-orderbook/Orderbook/render.js:124-137 | on a consistent engine, recording a well-formed change no earlier than the log leaves a ledger that matches the grown log, has no negative volume, and differs from the old one only at the change's price, where it holds the old volume plus the change |
| Render.RecordLevel | src/react-orderbook/Orderbook/render.js:119-137 | the ledger write and the log append, before any early return |
| Render.AdjustView | src/react-orderbook/Orderbook/render.js:139-217 | the window becomes the auto-zoomed window; the right edge stays or is stretched; unless the bottom moved, the shading maximum does not fall; the invariant is kept |
| Render.Rerender | src/react-orderbook/Orderbook/render.js:144-148 | a rebuild restores the invariant; without recalculation it keeps the shading maximum |
| Render.UpdateBand | src/react-orderbook/Orderbook/render.js:152-217 | the shading maximum only grows; the right edge stays or is stretched; the invariant is kept |
| Render.DrawOffWindow | src/react-orderbook/Orderbook/render.js:189-195 | a change outside the window changes no band volume and draws every band up to its time |
| Render.TrackMaximum | src/react-orderbook/Orderbook/render.js:152-177 | the test `volume == latestMaxVolumeChange` compares the band's stored text (the literal `'0'` for an untouched band) with the `toFixed` text of `latestMaxVolumeChange`; the maximum history grows only when that test holds and the change is non-zero; a rebuild happens exactly when such a band passes the shading maximum, and the maximum becomes that volume |
| Render.RecordMaximum | src/react-orderbook/Orderbook/render.js:157-176 | inside the held branch: the history grows by one record exactly for a non-zero change; a rebuild happens exactly when the new volume passes the shading maximum, which then becomes that volume and the invariant holds |
| Render.HeldByLedger | src/react-orderbook/Orderbook/render.js:156 | for bands that hold the ledger, the held test passes exactly when the band's ledger total is `latestMaxVolumeChange`, or, for a band no price falls in, exactly when the precision is 0 and `latestMaxVolumeChange` is 0 |
| VolumeText.HeldTest | src/react-orderbook/Orderbook/render.js:156 | `'0'` equals the `toFixed(d)` text of a volume exactly when `d` is 0 and the volume is 0; any other band text equals it exactly when the volumes are equal |
| VolumeText.FixedTextInjective | src/react-orderbook/Orderbook/render.js:156 | two volumes have the same `toFixed(d)` text exactly when they are equal |
| VolumeText.BlankMissesZero | src/react-orderbook/calc.js:88-92 | at precision 2 an untouched band's `'0'` differs from the text `"0.00"` of a zero maximum, while a written zero band equals it |
| Render.NoteMaximum | src/react-orderbook/Orderbook/render.js:156-165 | `latestMaxVolumeChange` becomes the new volume and one `(timestamp, volume)` record is appended, exactly when the change is non-zero |
| Render.StampBand | src/react-orderbook/Orderbook/render.js:189-212 | only the changed band changes: its volume becomes `max(0, old + change)`, it no longer holds the literal `'0'`, and it restarts at the change's time; then the time rule applies |
| Render.StretchOrDraw | src/react-orderbook/Orderbook/render.js:207-217 | a change in the last 5% of the window stretches it by a fifth and rebuilds it; any other change draws every band up to the change |
| BandDrawing.DrawBands | src/react-orderbook/Orderbook/render.js:244-254 | every band ends at the given time; band volumes, start times and the band count are unchanged |
| BandDrawing.BandsHoldTimestamps | src/react-orderbook/src/Orderbook/render.js:131-143 | bands that differ only in their timestamps hold the same ledger |
| HistRender.ReplayedIsLedger | src/react-orderbook/Orderbook/histRender.js:83-112 | on a time-ordered log, the baseline ledger with the later entries replayed is the ledger of the whole log |
| HistRender.BaselineLevels | src/react-orderbook/Orderbook/histRender.js:21-32 | the baseline is the last-write-wins ledger of the entries stamped at or before `minTimestamp` |
| HistRender.BandsHoldStep | src/react-orderbook/Orderbook/histRender.js:89-112 | adding the replayed volume minus the current volume to an in-range band and writing it as text, and leaving the other bands alone, keeps every band holding the updated ledger |
| VolumeText.MaxByText | src/react-orderbook/Orderbook/histRender.js:45 | lodash `maxBy` over string volumes: the chosen text is not below any other, and every earlier text is strictly below it |
| VolumeText.TextOrderMisranks | src/react-orderbook/Orderbook/histRender.js:45 | the `toFixed(2)` texts of 9 and 10 are "9.00" and "10.00", and `maxBy` over them picks the 9 |
| VolumeText.DigitTextOrder | src/react-orderbook/Orderbook/histRender.js:45 | digit strings of one length compare as text exactly as their values compare |
| VolumeText.SameWidthOrder | src/react-orderbook/Orderbook/histRender.js:45 | two non-negative volumes whose whole parts have the same number of digits compare as `toFixed` text exactly as they compare as numbers |
| HistRender.TextSeedIsTextLargest | src/react-orderbook/Orderbook/histRender.js:45 | the seed `+_.maxBy(initialBandValues, 'volume').volume` is some band's total, and no band's total has a larger text |
| HistRender.SeedIsTopWhenSameWidth | src/react-orderbook/Orderbook/histRender.js:45 | when no band total is negative and all whole parts have the same width, the seed is the largest band total |
| HistRender.SeedMissesLargerBand | src/react-orderbook/Orderbook/histRender.js:42-70 | with two bands holding 9 and 10 at two decimals, the seed is 9 and, with nothing to replay, the recalculated maximum stays below the band holding 10 |
| HistRender.PeakGrows | src/react-orderbook/Orderbook/histRender.js:45-66 | the running maximum starts at the seed and never falls as the replay goes on |
| HistRender.PeakBoundsSteps | src/react-orderbook/Orderbook/histRender.js:45-66 | the recomputed maximum is at least the seed and at least every volume a replayed entry leaves in its own in-range band |
| HistRender.PeakBoundsReplay | src/react-orderbook/Orderbook/histRender.js:45-66 | seeded with at least the baseline's largest band, the recomputed maximum bounds every band total at every point of the replay |
| HistRender.PeakAttained | src/react-orderbook/Orderbook/histRender.js:45-66 | the recomputed maximum is the seed or a volume some replayed entry left in its in-range band |
| HistRender.RecalcMaxBandVolume | src/react-orderbook/Orderbook/histRender.js:42-77 | the result is the seed taken by text order from the initial bands, raised to every in-range band volume reached while replaying the entries after `minTimestamp` |
| HistRender.LargestBandIsTop | src/react-orderbook/calc.js:134-177 | a value that bounds every band total and is attained or 0 is the largest band total clamped at 0 |
| HistRender.RecalcStep | src/react-orderbook/Orderbook/histRender.js:53-66 | one step of the maximum pass adds the change to the entry's band and raises the running maximum to that band's new volume |
| HistRender.ReplayBand | src/react-orderbook/Orderbook/histRender.js:100-111 | the volume always takes the change and is written as `toFixed` text; the band restarts at the entry only when more than a pixel's width of time has passed, and otherwise keeps its timestamps |
| HistRender.ReplayEntry | src/react-orderbook/Orderbook/histRender.js:89-112 | one replayed entry keeps the bands holding the updated ledger; only an in-range band changes |
| HistRender.ReplayBands | src/react-orderbook/Orderbook/histRender.js:79-116 | after the replay, the bands hold the baseline with the later entries applied, and the last timestamp is that of the last later entry |
| HistRender.RebuildBands | src/react-orderbook/Orderbook/histRender.js:21-116 | the bands hold the replayed ledger; with recalculation the maximum becomes the replay peak seeded with the text-largest baseline band, and without it the maximum is untouched |
| HistRender.ResetAndReplay | src/react-orderbook/Orderbook/histRender.js:21-125 | the rebuild on the bands alone: they hold the replayed ledger, end at the last replayed entry, and the maximum is the replay peak when recalculated and untouched otherwise |
| HistRender.DrawToLastUpdate | src/react-orderbook/Orderbook/histRender.js:124-125 | every band ends at the last replayed timestamp when there is one; the bands hold the same ledger |
| HistRender.Render | src/react-orderbook/Orderbook/histRender.js:15-128 | the bands hold the replayed ledger; the maximum is recomputed only when asked, as the replay peak seeded with the text-largest baseline band; the markers and trade lines are laid out again; the ledger and the log are not modified; `histRendering` is false afterwards |
| HistRender.FinishRender | src/react-orderbook/Orderbook/histRender.js:118-127 | markers move to where their names say, each line's segments move to their vertices, and `histRendering` ends false |
| HistRender.RenderRestoresConsistency | src/react-orderbook/Orderbook/histRender.js:15-128 | on a time-ordered log whose ledger matches it, the rebuilt bands make the engine consistent again |
| Markers.NatText | src/react-orderbook/Orderbook/paperRender.js:171 | the decimal text of a number is non-empty and made of digits |
| Markers.DigitPrefix | src/Orderbook/paperRender.js:113 | `parseInt` reads the longest leading run of digits |
| Markers.Split | src/react-orderbook/Orderbook/paperRender.js:227 | `split` gives at least one part and no part contains the separator |
| Markers.SplitJoin | src/react-orderbook/Orderbook/paperRender.js:227 | joining the parts of a split with the separator gives the text back |
| Markers.NatTextValue | src/react-orderbook/Orderbook/paperRender.js:227-228 | the decimal text of `n` reads back as `n` |
| Markers.GetTradeNotifications | src/react-orderbook/Orderbook/paperRender.js:33-35 | the result holds exactly the layer items whose name contains `trade-`, and is no longer than the layer |
| Markers.MarkerRoundTrip | src/react-orderbook/Orderbook/paperRender.js:227-228 | the name `trade-<ts>_<price>` of a trade at a non-negative time and price decodes back to that time and price |
| Markers.MarkerRoundTripParseInt | src/Orderbook/paperRender.js:112-113 | with the timestamp read by `parseInt`, the name also decodes back to that time and price |
| Markers.NegativePriceMisread | src/react-orderbook/Orderbook/paperRender.js:227-228 | the marker of a trade at price -3 decodes to price 0, because its `-` splits the name |
| Markers.NegativeNameParts | src/react-orderbook/Orderbook/paperRender.js:227 | the name `trade-5_-3` splits on `-` into `trade`, `5_` and `3` |
| Markers.MarkerNameSelected | src/react-orderbook/Orderbook/paperRender.js:33-34 | every trade marker's name contains `trade-`, so the marker is selected |
| PaperRender.AddTrade | src/react-orderbook/Orderbook/paperRender.js:143-162 | the first trade on a side adds one vertex; a later one adds a corner at the trade's time and the previous price, then the trade; the old segments are kept; vertices and segments stay equal in number; the last vertex is the trade, drawn at its point |
| PaperRender.AddTradePlaced | src/react-orderbook/Orderbook/paperRender.js:143-162 | if every segment sat at its vertex before the trade, it still does after |
| PaperRender.ExtendLine | src/react-orderbook/Orderbook/paperRender.js:190-215 | an empty side is untouched; a side that is not extended gains one vertex at the current time and the last price, and becomes extended; an extended side only has its last segment moved, with the same count and the vertices untouched |
| PaperRender.ExtendLinePlaced | src/react-orderbook/Orderbook/paperRender.js:190-215 | a first extension keeps segments on their vertices; a repeat moves the last segment to the current time at the last price |
| PaperRender.MarkerRadius | src/react-orderbook/Orderbook/paperRender.js:164 | the radius is between 0 and the largest radius, and is the largest radius for the largest trade |
| PaperRender.ShrinkFactor | src/react-orderbook/Orderbook/paperRender.js:134 | the old largest trade over a new, larger one is in `[0, 1)` |
| PaperRender.ScaleAll | src/react-orderbook/Orderbook/paperRender.js:133-141 | every layer item is scaled, one for one |
| PaperRender.ScaleAllBounded | src/react-orderbook/Orderbook/paperRender.js:133-141 | shrinking keeps every marker radius within the largest radius |
| PaperRender.ScaleMarkers | src/react-orderbook/Orderbook/paperRender.js:136-138 | the layer becomes every item scaled by the factor, and the markers stay within bounds |
| PaperRender.RenderTradeNotification | src/react-orderbook/Orderbook/paperRender.js:130-180 | the largest trade becomes `max(old, amountTraded)`, and the older markers shrink when it grows; the trade is added to its side's line only; a marker named after the trade is drawn, and the side's flag reset, only when the radius is at least 0.5 |
| PaperRender.DrawTrade | src/react-orderbook/Orderbook/paperRender.js:143-179 | the side's line gains the trade; the marker is drawn and the flag reset only for a radius of at least 0.5 |
| PaperRender.ResizeMarkers | src/react-orderbook/Orderbook/paperRender.js:133-141 | a larger trade scales the layer by old-largest over new and becomes the largest; otherwise nothing changes |
| PaperRender.DrawMarker | src/react-orderbook/Orderbook/paperRender.js:164-179 | below radius 0.5 nothing changes; otherwise one marker is appended and the side's flag is cleared |
| PaperRender.AddToTradeLine | src/react-orderbook/Orderbook/paperRender.js:144-162 | only the trade's side gains the trade, and placed lines stay placed |
| PaperRender.AddTradeMarker | src/react-orderbook/Orderbook/paperRender.js:170-179 | one marker named `trade-<ts>_<price>` is appended at the trade's point, and the trade's side is no longer extended |
| PaperRender.ExtendTradeLines | src/react-orderbook/Orderbook/paperRender.js:186-216 | each side, with its flag, becomes the result of the one-side extension |
| PaperRender.RelaidLayer | src/react-orderbook/Orderbook/paperRender.js:225-230 | each item is re-laid one for one, and the layer keeps its length |
| PaperRender.Redrawn | src/react-orderbook/Orderbook/paperRender.js:233-246 | the vertices are kept and every segment sits at its vertex |
| PaperRender.Vertices | src/react-orderbook/Orderbook/paperRender.js:235-246 | one point per vertex, at that vertex |
| PaperRender.ReRenderTrades | src/react-orderbook/Orderbook/paperRender.js:221-247 | every trade marker moves to where its name says; segment `i` of each line moves to vertex `i` |
| PaperRender.RelayMarkers | src/react-orderbook/Orderbook/paperRender.js:225-230 | the marker loop gives the re-laid layer |
| PaperRender.RedrawLines | src/react-orderbook/Orderbook/paperRender.js:233-246 | both lines are redrawn at their vertices |
| PaperRender.ReRenderPlacesMarker | src/react-orderbook/Orderbook/paperRender.js:225-230 | a marker drawn for a trade at a non-negative time and price is moved to exactly that trade's point |
| Orderbook.SnapshotEntries | src/react-orderbook/Orderbook/Orderbook.js:155-159 | one log entry per price of the book, stamped with the initial timestamp and carrying the book's volume and side |
| Orderbook.SnapshotGrows | src/react-orderbook/Orderbook/Orderbook.js:155-159 | recording one more unseen price keeps the log an exact record of the prices seen so far |
| Orderbook.SnapshotLedger | src/react-orderbook/Orderbook/Orderbook.js:132-159 | the ledger of the snapshot log is the book itself, and the snapshot log is in time order |
| Orderbook.SnapshotBaseline | src/react-orderbook/Orderbook/Orderbook.js:155-159 | a rebuild at the initial timestamp has the book as its baseline and nothing after it |
| Orderbook.InitState | src/react-orderbook/Orderbook/Orderbook.js:114-160 | the window is `[initialTimestamp, initialTimestamp + timeScale]` and the given prices; the maximum and `latestMaxVolumeChange` are the largest band; both flags are reset; the ledger is the book; the log is the snapshot; the bands hold the book; a book with no negative volume gives a consistent engine |
| Orderbook.ClearExtensions | src/react-orderbook/Orderbook/Orderbook.js:124-125 | both extension flags are false |
| Orderbook.Install | src/react-orderbook/Orderbook/Orderbook.js:116-159 | the window, maximum, ledger, bands and log take the computed values |
| Orderbook.HandleSettingChange | src/react-orderbook/Orderbook/Orderbook.js:162-176 | a currency is handed back and nothing changes; a granularity is installed and the bands rebuilt; a colour scheme only rebuilds; the shading maximum is never recomputed; consistency is kept |
| Orderbook.Rebuild | src/react-orderbook/Orderbook/Orderbook.js:165-175 | the bands hold the replayed ledger, the maximum is kept, and an engine whose ledger matches its log becomes consistent |
| LegacyRender.LegacyVolumeDiff | src/react-orderbook/src/Orderbook/render.js:45-76 | the change moves the price's volume to its target: `newAmount`, 0 on a removal, or `amountRemaining` on a trade; at an absent price the change is the target itself |
| LegacyRender.LegacyRemovalOfAbsentPrice | src/react-orderbook/src/Orderbook/render.js:60-64 | removing an absent price gives a change of 0 |
| LegacyRender.TradeSetsRemaining | src/react-orderbook/src/Orderbook/render.js:67-76 | a trade's change is `amountRemaining` minus the held volume, so the ledger ends at `amountRemaining` |
| LegacyRender.NegativeAmountKept | src/react-orderbook/src/Orderbook/render.js:94-98 | a negative new amount is written to the ledger unclamped |
| LegacyRender.LegacyEntry | src/react-orderbook/src/Orderbook/render.js:110 | the appended log entry carries the change's price, side and timestamp and the target volume |
| LegacyRender.ShadingJumpRange | src/react-orderbook/src/Orderbook/render.js:86-89 | the rebuild test fires exactly when the band holds the positive shading maximum and the change's size is between a quarter and seven quarters of it |
| LegacyRender.Doubled | src/react-orderbook/src/Orderbook/render.js:119 | the right edge moves out by one whole window, so the window doubles |
| LegacyRender.DoubleMakesRoom | src/react-orderbook/src/Orderbook/render.js:117-121 | after doubling, the change is no longer in the last tenth of the window |
| LegacyRender.LegacyRenderUpdate | src/react-orderbook/src/Orderbook/render.js:27-126 | a trade pushes its time and size; when the rebuild test fires, the window is rebuilt, the change is neither logged nor written, the shading maximum becomes the largest band of the ledger before the call, and the bands hold the rebuilt ledger; otherwise exactly one entry holding the target volume is logged, and then a change in the last tenth of the window doubles the window, the maximum becomes the largest band of the ledger with the target written, and the ledger becomes the rebuilt one that the bands hold, while any other change leaves `maxTimestamp` and the maximum, writes the target volume at its price, restarts its band at its time with the change added and draws every other band up to its time; bands that held the ledger still hold it |
| LegacyRender.PushTrade | src/react-orderbook/src/Orderbook/render.js:77 | the trade records grow by the trade's time and size only |
| LegacyRender.NormalPath | src/react-orderbook/src/Orderbook/render.js:94-125 | the path without a shading jump: one entry is logged; a change in the last tenth doubles the window, sets the maximum to the largest band of the ledger with the target written, and the ledger becomes the rebuilt one that the bands hold; any other change keeps the maximum, writes the target, restarts its band and draws every other band up to its time; bands that held the ledger still hold it |
| LegacyRender.ApplyChange | src/react-orderbook/src/Orderbook/render.js:94-114 | the ledger takes the target; the band restarts at the change's time with the change added and no clamp; one log entry is appended; bands that held the ledger still hold it, and a ledger that matched the log still matches it |
| LegacyRender.LegacyStep | src/react-orderbook/src/Orderbook/render.js:94-114 | on values: the unclamped band step keeps the bands holding the ledger, and appending the entry keeps the ledger matching the log |
| LegacyRender.StretchOrDraw | src/react-orderbook/src/Orderbook/render.js:116-125 | a change in the last tenth doubles the window and rebuilds it, the maximum becomes the largest band of the ledger the call found, and the bands hold the rebuilt ledger; any other change keeps the maximum and draws every band up to the change |
| LegacyRender.Widen | src/react-orderbook/src/Orderbook/render.js:119 | the right edge takes the new value |
| LegacyHistRender.KeptMembers | src/react-orderbook/src/Orderbook/histRender.js:45-48 | an entry is kept exactly when it is logged and passes the filter: at or before `minTimestamp` and in `[minPrice, maxPrice]` for the seed, and strictly inside the window for the replay |
| LegacyHistRender.KeptPrices | src/react-orderbook/src/Orderbook/histRender.js:26-48 | applying only kept entries adds only prices that pass the filter |
| LegacyHistRender.LegacyLedger | src/react-orderbook/src/Orderbook/histRender.js:26-56 | the rebuilt ledger holds no price outside `[minPrice, maxPrice]` |
| LegacyHistRender.SeedLevels | src/react-orderbook/src/Orderbook/histRender.js:26-35 | the seed is the last-write-wins ledger of the in-range entries stamped at or before `minTimestamp` |
| LegacyHistRender.ReplayStep | src/react-orderbook/src/Orderbook/histRender.js:50-66 | the ledger takes the entry; its band restarts at the entry's time with the change added; the bands keep holding the ledger |
| LegacyHistRender.ReplayVisible | src/react-orderbook/src/Orderbook/histRender.js:44-71 | the ledger becomes the seed with the in-window entries applied in log order; the bands hold it; the last timestamp is that of the last replayed entry |
| LegacyHistRender.ReplayEntry | src/react-orderbook/src/Orderbook/histRender.js:49-71 | one loop step keeps the ledger, band and timestamp invariants for the next prefix |
| LegacyHistRender.LegacyHistRender | src/react-orderbook/src/Orderbook/histRender.js:15-77 | the maximum is the largest band of the ledger before the call; the ledger is replaced by the seed with the visible entries replayed; the bands hold it; every band ends at the last replayed entry; the log is only read |
| LegacyHistRender.Rebuild | src/react-orderbook/src/Orderbook/histRender.js:26-76 | on window values: the maximum, the rebuilt ledger, bands that hold it, and end timestamps at the last replayed entry |
| LegacyHistRender.DrawBandsTo | src/react-orderbook/src/Orderbook/histRender.js:76 | every band ends at the last replayed timestamp when there is one; the bands hold the same ledger |
| RootCalc.RootPixelPosition | src/calc.js:8-15 | x is 0 at `minTime` and the canvas width at `maxTime`; y is 0 at `minPrice`; the price comes before the timestamp |
| RootCalc.RootXMonotone | src/calc.js:12 | a later time is further right |
| RootCalc.RootYMonotone | src/calc.js:13 | a higher price has a larger y: the axis is not flipped |
| RootCalc.RootTopPriceReachesTop | src/calc.js:13 | y divides by the time range, so the top price reaches y = height exactly when the price range equals the time range |
| RootCalc.InsetShift | src/calc.js:14 | the later `getPixelPosition` draws every point 60 pixels to the right of this one |
| RootHistRender.BaselineTelescopes | src/Orderbook/histRender.js:43-68 | replaying the whole log over the baseline, at any time and in any order, gives the log's last-write-wins ledger |
| RootHistRender.AgreesWithCurrentRebuild | src/Orderbook/histRender.js:43-68 | on a time-ordered log, this rebuild reaches the same ledger as the later one, which replays only the entries after `minTimestamp` |
| RootHistRender.ReplayLogEntry | src/Orderbook/histRender.js:44-64 | an in-range band restarts at the entry's time with the change added; other bands stay; the bands hold the updated ledger |
| RootHistRender.ReplayLog | src/Orderbook/histRender.js:43-68 | after the whole-log loop, the bands hold the baseline with every entry applied; the last timestamp is the log's last |
| RootHistRender.RootHistRender | src/Orderbook/histRender.js:16-75 | the maximum is the largest band of the ledger; the bands hold the log's last-write-wins ledger; every band ends at the log's last entry; markers move by `parseInt` decoding; lines are redrawn; the ledger and log are only read |
| RootHistRender.RebuildWindow | src/Orderbook/histRender.js:21-74 | the maximum and the bands of this rebuild, without the trade layout |
| RootHistRender.RebuildBands | src/Orderbook/histRender.js:27-74 | on window values: the maximum is set; the bands hold the last-write-wins ledger and end at the last entry |
| RootPaperRender.AddPoint | src/Orderbook/paperRender.js:79-88 | exactly one vertex, the trade, is appended, with its segment at the trade's point; old segments are kept |
| RootPaperRender.AddPointPlaced | src/Orderbook/paperRender.js:79-88 | a line whose segments sat at their vertices still does after a trade |
| RootPaperRender.RenderTradeNotification | src/Orderbook/paperRender.js:65-101 | the largest trade becomes `max(old, amountTraded)` and older markers shrink when it grows; bids go to the bid line and asks to the ask line, one point each; a marker is drawn only when the radius is at least 0.5 |
| RootPaperRender.AddToLine | src/Orderbook/paperRender.js:78-88 | only the trade's side gains the point; placed lines stay placed |
| RootPaperRender.AddMarker | src/Orderbook/paperRender.js:96-97 | one marker named `trade-<ts>_<price>` is appended at the trade's point |
| RootPaperRender.RelaidLayerParseInt | src/Orderbook/paperRender.js:110-115 | each item is re-laid one for one with `parseInt` decoding, and the layer keeps its length |
| RootPaperRender.ReRenderTrades | src/Orderbook/paperRender.js:106-132 | every marker moves to where its name reads under `parseInt`; segment `i` of each line moves to vertex `i` |
| RootPaperRender.RelayMarkers | src/Orderbook/paperRender.js:110-115 | the marker loop gives the re-laid layer |
| RootPaperRender.ReRenderPlacesMarkerParseInt | src/Orderbook/paperRender.js:110-115 | a marker for a trade at a non-negative time and price moves to exactly that trade's point |

## Left out

- Drawing is out: canvas output, `fillRect`, `drawBand`'s rectangle, band
  colours, `chroma` colour scales and `scaleColor`. Drawing a band is
  modelled only through the timestamps it leaves in `activeBands`.
- PaperJS object construction (`initPaperCanvas`), crosshairs, hover text,
  `updateTextInfo`, `renderScales`, `renderInitial` and the `TODO` stubs
  (`renderOrderNotification`, `renderNewTrade`, `renderNewBestPrice`, and the
  older `drawOrderNotification` and `drawTradeNotification`) draw or do
  nothing that the engine reads.
- A trade line is modelled as data: its vertex list (`pointMeta`, and
  `data.trades` in the oldest revision) and a segment list parallel to it.
  Marker colours, fill and the circle path are left out.
- `toFixed` rounding and `parseFloat` are abstracted: prices and volumes
  are exact fixed-point integers. Where the text of a volume changes an
  outcome it is modelled on `toFixed(pricePrecision)` texts (`VolumeText`):
  the string order `_.maxBy` uses on band volumes in `histRender`, and the
  text test `volume == latestMaxVolumeChange` in `renderUpdate`, where a
  band flagged `blank` still holds the literal `'0'`. A band clamped to the
  number 0 compares with the text by value, which gives the same outcome
  as comparing `toFixed` texts.
- HistRender.TextSeed: an initial band that no price reached holds the
  text `'0'`; the seed of `maxBy` gives it the text of 0 at the volume
  precision (`0.00`). Under the string order both lie below the text of
  every positive volume and above that of every negative one, so `maxBy`
  picks a band of the same volume.
- Render.NewVolume: clamps at 0 as the source does, but at the source's
  float precision a ledger volume could differ by a rounding step. The
  model has no rounding.
- Render.WidenMax and Render.NarrowMin: `toFixed` rounds the scaled price
  to a tick, and the model rounds half up on ticks. For ties the source's
  float rounding may go the other way.
- HistRender.DrawToLastUpdate: when no entry is later than `minTimestamp`,
  the source calls `drawBands` with an undefined timestamp, which writes
  `undefined` into every band's end. The model leaves the end timestamps as
  they were. The same applies to LegacyHistRender.DrawBandsTo and
  RootHistRender.RebuildBands.
- PaperRender.MarkerRadius and both RenderTradeNotification methods:
  require `amountTraded > 0`. For a zero-size first trade the source
  computes 0/0 and gets NaN, which has no counterpart in the model.
- Render.RenderUpdate requires the same of a trade's `amountTraded`.
- LegacyRender.LegacyRenderUpdate: requires the change's band index to be
  in range. The source indexes `activeBands` before any range check and
  throws a `TypeError` for a price outside the window.
- LegacyRender.LegacyRenderUpdate: the rebuild test compares the band volume
  with the shading maximum by `===`, and the source may store them as a
  string and a number. The model compares the integers.
- PaperRender.Relaid: a marker name whose fields do not read as numbers
  (such as `trade--5_3`) leaves the marker where it was. The source moves
  it to the point `gpp` gives for a NaN time or price, which has no
  counterpart in the model.
- RootPaperRender.RelaidParseInt: the same holds for a name that
  `parseInt` cannot read.
- Orderbook.InitState: requires `0 <= minPrice < maxPrice`. The source
  divides by the price range, and an empty range gives NaN band indices.
- Orderbook.HandleSettingChange: requires a non-negative granularity. A
  granularity of 0 is falsy in the source and falls through to the
  colour-scheme branch, as in the model.
- Orderbook.HandleSettingChange: `onCurrencyChange` is a callback into the
  surrounding application. The model returns the requested currency
  instead of calling it.
- Geometry.PixelPosition: requires `minPrice != maxPrice` and
  `minTime != maxTime`. The source divides by both ranges and would give
  NaN or Infinity; the engine's callers keep both ranges non-empty.
- RootCalc.RootPixelPosition: requires `minTime != maxTime`. The source
  divides by the time range and would give NaN or Infinity.
- Render.AdjustView: when auto-zoom lowers the bottom, the source rebuilds
  with `recalcMaxBandValues` set, and the shading maximum is recomputed.
  The contract says only that the invariant is kept on that path, not what
  the new maximum is.
- Render.UpdateEngine: the source sets `histRendering` to true at the start
  of every rebuild and to false at the end. It never reads it, so no
  queueing of rebuilds is modelled.
- The older revisions import `getInitialBandValues`, `getBandIndex`,
  `getMaxVisibleBandVolume` and `gpp` from a `calc` module, and `drawBands`
  from a `render` module. src/react-orderbook/src/calc.js is not part of
  this model, src/calc.js exports only `getPixelPosition`, and
  src/Orderbook/render.js exports only `renderInitial`. Their models
  therefore use the current `Calc`, `Geometry` and `BandDrawing`
  definitions.
- The older `drawBands` passes the band's index from the bottom of the
  canvas to `drawBand`. Since drawing is left out, only the timestamps
  that `drawBands` writes are modelled.
- The React lifecycle (`componentWillReceiveProps`, `shouldComponentUpdate`,
  `render`), the bottom bar and the depth chart are UI plumbing and are not
  modelled. The engine's operations are called directly.
