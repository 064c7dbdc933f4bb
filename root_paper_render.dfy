/** The oldest `paperRender.js` (under `src/Orderbook`): each trade adds
    one vertex to its side's line, with no corner point and no extension
    flags; markers are drawn and rescaled as in the current version, and
    the re-layout reads a marker's timestamp with `parseInt`. */
module RootPaperRender {
  import opened Types
  import opened Geometry
  import opened Markers
  import opened State
  import opened PaperRender

  /** The line part of the older `renderTradeNotification`: one vertex for
      the trade, drawn at the trade's point. */
  function AddPoint(line: TradeLine, view: Viewport, timestamp: int, price: int): (r: TradeLine)
    requires view.Valid() && line.Valid()
    ensures r.Valid()
    ensures r.pointMeta == line.pointMeta + [PointMeta(timestamp, price)]
    ensures r.segments[..|line.segments|] == line.segments
    ensures r.segments[|r.segments| - 1] == Gpp(view, timestamp as real, price as real)
  {
    TradeLine(line.pointMeta + [PointMeta(timestamp, price)], line.segments + [Gpp(view, timestamp as real, price as real)])
  }

  /** A line whose segments sit at their vertices stays so when a trade is added. */
  lemma AddPointPlaced(line: TradeLine, view: Viewport, timestamp: int, price: int)
    requires view.Valid() && Placed(line, view)
    ensures Placed(AddPoint(line, view, timestamp, price), view)
  {
    var r := AddPoint(line, view, timestamp, price);
    forall i | 0 <= i < |r.segments| ensures r.segments[i] == VertexPoint(view, r.pointMeta[i]) {
      if i < |line.segments| {
        assert r.segments[i] == r.segments[..|line.segments|][i];
      }
    }
  }

  /** The older `renderTradeNotification(vizState, fixedPrice, amountTraded,
      timestamp, isBid)`. A new largest trade shrinks every marker by
      old-largest / new-largest and becomes the largest; the trade gets one
      vertex on the bid line for a bid and on the ask line otherwise; a
      marker of radius at least one half is drawn, named after the trade.
      The extension flags are not touched. */
  method RenderTradeNotification(v: VizState, fixedPrice: int, amountTraded: int, timestamp: int, isBid: bool)
    requires v.Configured() && v.WindowValid() && amountTraded > 0
    modifies v`maxRenderedTrade, v`bidLine, v`askLine, v`layer
    ensures v.Configured()
    ensures v.maxRenderedTrade == Max(old(v.maxRenderedTrade), amountTraded)
    ensures isBid ==> v.bidLine == AddPoint(old(v.bidLine), v.View(), timestamp, fixedPrice) && v.askLine == old(v.askLine)
    ensures !isBid ==> v.askLine == AddPoint(old(v.askLine), v.View(), timestamp, fixedPrice) && v.bidLine == old(v.bidLine)
    ensures var scaled := if amountTraded > old(v.maxRenderedTrade)
                          then ScaleAll(old(v.layer), ShrinkFactor(old(v.maxRenderedTrade), amountTraded))
                          else old(v.layer);
      var radius := MarkerRadius(amountTraded, v.maxRenderedTrade, v.maxTradeMarketRadius);
      v.layer == if radius < 0.5 then scaled
                 else scaled + [Item(MarkerName(timestamp, fixedPrice), Gpp(v.View(), timestamp as real, fixedPrice as real), radius)]
  {
    ResizeMarkers(v, amountTraded);
    AddToLine(v, timestamp, fixedPrice, isBid);
    var radius := MarkerRadius(amountTraded, v.maxRenderedTrade, v.maxTradeMarketRadius);
    if radius >= 0.5 {
      AddMarker(v, timestamp, fixedPrice, radius);
    }
  }

  /** `priceLine.add(point)` and `priceLine.data.trades.push(...)` on the
      trade's side. */
  method AddToLine(v: VizState, timestamp: int, price: int, isBid: bool)
    requires v.Configured() && v.WindowValid()
    modifies v`bidLine, v`askLine
    ensures v.Configured()
    ensures isBid ==> v.bidLine == AddPoint(old(v.bidLine), v.View(), timestamp, price) && v.askLine == old(v.askLine)
    ensures !isBid ==> v.askLine == AddPoint(old(v.askLine), v.View(), timestamp, price) && v.bidLine == old(v.bidLine)
    ensures old(Placed(v.bidLine, v.View())) ==> Placed(v.bidLine, v.View())
    ensures old(Placed(v.askLine, v.View())) ==> Placed(v.askLine, v.View())
  {
    ViewValid(v);
    var view := v.View();
    if isBid {
      if Placed(v.bidLine, view) {
        AddPointPlaced(v.bidLine, view, timestamp, price);
      }
      v.bidLine := AddPoint(v.bidLine, view, timestamp, price);
    } else {
      if Placed(v.askLine, view) {
        AddPointPlaced(v.askLine, view, timestamp, price);
      }
      v.askLine := AddPoint(v.askLine, view, timestamp, price);
    }
  }

  /** The trade's circle, named `trade-<timestamp>_<price>`, at the trade's point. */
  method AddMarker(v: VizState, timestamp: int, price: int, radius: real)
    requires v.Configured() && v.WindowValid() && 0.0 <= radius <= v.maxTradeMarketRadius
    modifies v`layer
    ensures v.Configured()
    ensures v.layer == old(v.layer) +
      [Item(MarkerName(timestamp, price), Gpp(v.View(), timestamp as real, price as real), radius)]
  {
    ViewValid(v);
    v.layer := v.layer + [Item(MarkerName(timestamp, price), Gpp(v.View(), timestamp as real, price as real), radius)];
    forall j | 0 <= j < |v.layer| && IsTradeMarker(v.layer[j])
      ensures 0.0 <= v.layer[j].radius <= v.maxTradeMarketRadius
    {
      if j < |old(v.layer)| {
        assert v.layer[j] == old(v.layer)[j];
      }
    }
  }

  /** The older re-layout of one item: a trade marker moves to the
      (timestamp, price) its name reads as under `parseInt`. */
  function RelaidParseInt(item: Item, view: Viewport): Item
    requires view.Valid()
  {
    if IsTradeMarker(item) then MoveMarker(item, view, DecodeMarkerParseInt(item.name)) else item
  }

  /** The whole layer after the older re-layout, item for item. */
  function RelaidLayerParseInt(layer: seq<Item>, view: Viewport): (r: seq<Item>)
    requires view.Valid()
    ensures |r| == |layer|
    ensures forall k :: 0 <= k < |layer| ==> r[k] == RelaidParseInt(layer[k], view)
  {
    if layer == [] then [] else [RelaidParseInt(layer[0], view)] + RelaidLayerParseInt(layer[1..], view)
  }

  /** The older `reRenderTrades`: every trade marker moves to where its
      name says, and segment `i` of each line moves to vertex `i`. */
  method ReRenderTrades(v: VizState)
    requires v.Configured() && v.WindowValid()
    modifies v`layer, v`bidLine, v`askLine
    ensures v.Configured()
    ensures v.layer == RelaidLayerParseInt(old(v.layer), v.View())
    ensures v.bidLine == Redrawn(old(v.bidLine), v.View()) && v.askLine == Redrawn(old(v.askLine), v.View())
  {
    ViewValid(v);
    RelayMarkers(v);
    RedrawLines(v);
  }

  /** The marker loop of the older `reRenderTrades`. */
  method RelayMarkers(v: VizState)
    requires v.Configured() && v.WindowValid()
    modifies v`layer
    ensures v.Configured()
    ensures v.layer == RelaidLayerParseInt(old(v.layer), v.View())
  {
    ViewValid(v);
    var view := v.View();
    var layer := v.layer;
    var k := 0;
    while k < |layer|
      invariant 0 <= k <= |layer| == |v.layer|
      invariant forall j :: 0 <= j < k ==> layer[j] == RelaidParseInt(v.layer[j], view)
      invariant forall j :: k <= j < |layer| ==> layer[j] == v.layer[j]
    {
      if IsTradeMarker(layer[k]) {
        layer := layer[k := MoveMarker(layer[k], view, DecodeMarkerParseInt(layer[k].name))];
      }
      k := k + 1;
    }
    assert layer == RelaidLayerParseInt(v.layer, view);
    forall j | 0 <= j < |layer| && IsTradeMarker(layer[j])
      ensures 0.0 <= layer[j].radius <= v.maxTradeMarketRadius
    {
      assert layer[j].radius == v.layer[j].radius && layer[j].name == v.layer[j].name;
    }
    v.layer := layer;
  }

  /** A marker drawn for a trade at a non-negative time and price is moved
      by the older re-layout to exactly where that trade is drawn. */
  lemma ReRenderPlacesMarkerParseInt(view: Viewport, timestamp: int, price: int, position: Point, radius: real)
    requires view.Valid() && timestamp >= 0 && price >= 0
    ensures var item := Item(MarkerName(timestamp, price), position, radius);
      IsTradeMarker(item) &&
      RelaidParseInt(item, view).position == Gpp(view, timestamp as real, price as real)
  {
    MarkerNameSelected(timestamp, price, position, radius);
    MarkerRoundTripParseInt(timestamp, price);
  }
}
