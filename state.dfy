/** The visualization state (`vizState`) of the order-book heatmap: the
    zoom window, the band and ledger state of the aggregation engine, the
    update log, and the data behind the trade lines and trade markers. */
module State {
  import opened Types
  import opened Calc
  import opened Geometry
  import opened Ledger
  import opened Markers

  class VizState {
    // zoom settings
    var timeScale: int
    var minTimestamp: real
    var maxTimestamp: real
    var minPrice: int
    var maxPrice: int
    var priceGranularity: int
    var timeGranularity: int
    var pricePrecision: nat
    var maxVisibleBandVolume: int
    var latestMaxVolumeChange: int
    var manualZoom: bool
    // canvas and marker settings
    var canvasHeight: real
    var canvasWidth: real
    var maxTradeMarketRadius: real
    // rendering state
    var activeBands: seq<Band>
    var activePrices: map<int, Level>
    var priceLevelUpdates: seq<LogEntry>
    var trades: seq<Trade>
    var maxBandVolumeChanges: seq<VolumeChange>
    var askTradeLineExtended: bool
    var bidTradeLineExtended: bool
    var maxRenderedTrade: int
    var histRendering: bool
    // the vector layer: both trade lines and the trade markers
    var bidLine: TradeLine
    var askLine: TradeLine
    var layer: seq<Item>

    /** The component constructor's defaults. The window and the book are
        still unset (`null`), so the state only becomes `Valid` in `initState`. */
    constructor(canvasHeight: real, canvasWidth: real, pricePrecision: nat)
      requires canvasHeight > 0.0 && canvasWidth > 0.0
      ensures timeScale == 20000 && priceGranularity == 100 && timeGranularity == 1000
      ensures this.pricePrecision == pricePrecision
      ensures !manualZoom && maxTradeMarketRadius == 10.0 && maxRenderedTrade == 0
      ensures this.canvasHeight == canvasHeight && this.canvasWidth == canvasWidth
      ensures priceLevelUpdates == [] && trades == [] && maxBandVolumeChanges == []
      ensures !askTradeLineExtended && !bidTradeLineExtended && !histRendering
      ensures bidLine == TradeLine([], []) && askLine == TradeLine([], []) && layer == []
      ensures Configured()
    {
      timeScale := 20000;
      minTimestamp, maxTimestamp := 0.0, 0.0;
      minPrice, maxPrice := 0, 0;
      priceGranularity := 100;
      timeGranularity := 1000;
      this.pricePrecision := pricePrecision;
      maxVisibleBandVolume, latestMaxVolumeChange := 0, 0;
      manualZoom := false;
      this.canvasHeight, this.canvasWidth := canvasHeight, canvasWidth;
      maxTradeMarketRadius := 10.0;
      activeBands, activePrices := [], map[];
      priceLevelUpdates, trades, maxBandVolumeChanges := [], [], [];
      askTradeLineExtended, bidTradeLineExtended := false, false;
      maxRenderedTrade := 0;
      histRendering := false;
      bidLine, askLine, layer := TradeLine([], []), TradeLine([], []), [];
    }

    /** The band window the aggregation engine reads. */
    function Window(): PriceWindow
      reads this`minPrice, this`maxPrice, this`priceGranularity
    {
      PriceWindow(minPrice, maxPrice, priceGranularity)
    }

    /** The window and canvas the placement functions read. */
    function View(): Viewport
      reads this`minPrice, this`maxPrice, this`minTimestamp, this`maxTimestamp, this`canvasHeight, this`canvasWidth
    {
      Viewport(minPrice as real, maxPrice as real, minTimestamp, maxTimestamp, canvasHeight, canvasWidth)
    }

    /** Every trade marker's radius lies between 0 and the largest radius. */
    predicate MarkersBounded()
      reads this`layer, this`maxTradeMarketRadius
    {
      forall k :: 0 <= k < |layer| && IsTradeMarker(layer[k]) ==>
        0.0 <= layer[k].radius <= maxTradeMarketRadius
    }

    /** Settings and trade-line data that hold from construction on: a band
        count, a time scale and a canvas, trade lines whose vertex data and
        segments run index for index, an extension flag only on a non-empty
        line, and bounded markers. */
    predicate Configured()
      reads this`priceGranularity, this`timeScale, this`canvasHeight, this`canvasWidth,
        this`maxTradeMarketRadius, this`maxRenderedTrade, this`bidLine, this`askLine,
        this`bidTradeLineExtended, this`askTradeLineExtended, this`layer
    {
      priceGranularity >= 1 && timeScale > 0 && canvasHeight > 0.0 && canvasWidth > 0.0 &&
      maxTradeMarketRadius >= 0.0 && maxRenderedTrade >= 0 &&
      bidLine.Valid() && askLine.Valid() &&
      (bidTradeLineExtended ==> |bidLine.pointMeta| > 0) &&
      (askTradeLineExtended ==> |askLine.pointMeta| > 0) &&
      MarkersBounded()
    }

    /** A non-empty price and time window over non-negative prices. */
    predicate WindowValid()
      reads this`minPrice, this`maxPrice, this`minTimestamp, this`maxTimestamp
    {
      0 <= minPrice < maxPrice && minTimestamp < maxTimestamp
    }

    /** The state after `initState`: configured, with a window and one band per price band. */
    predicate Valid()
      reads this
    {
      Configured() && WindowValid() && |activeBands| == priceGranularity
    }

    /** The engine's invariant: the ledger is what the log says, the log is
        in time order, no volume is negative, and band `i` holds the ledger
        volume whose band index is `i`. */
    ghost predicate Consistent()
      reads this
    {
      Valid() &&
      activePrices == LastWriteWins(priceLevelUpdates) &&
      TimeSorted(priceLevelUpdates) &&
      NonNegative(activePrices) &&
      BandsHold(activeBands, activePrices, Window())
    }
  }

  /** A configured state with a window has a drawable viewport. */
  lemma ViewValid(v: VizState)
    requires v.Configured() && v.WindowValid()
    ensures v.View().Valid() && v.Window().Valid()
  {
  }
}
