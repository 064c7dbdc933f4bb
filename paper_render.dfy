/** The vector-layer data of `paperRender.js`: the bid and ask trade lines
    (vertex data and the segments drawn for them), their extension flags,
    the trade markers and the running largest trade size. */
module PaperRender {
  import opened Types
  import opened Geometry
  import opened Markers
  import opened State

  /** Where the vertex `m` is drawn. */
  function VertexPoint(view: Viewport, m: PointMeta): Point
    requires view.Valid()
  {
    Gpp(view, m.timestamp as real, m.price as real)
  }

  /** Every segment of the line sits where its vertex data says. */
  predicate Placed(line: TradeLine, view: Viewport)
    requires view.Valid()
  {
    line.Valid() &&
    forall i :: 0 <= i < |line.segments| ==> line.segments[i] == VertexPoint(view, line.pointMeta[i])
  }

  /** The trade-line part of `renderTradeNotification`: on a line that
      already has vertices, a corner at the trade's time and the previous
      price keeps the line square; then the trade's own vertex. */
  function AddTrade(line: TradeLine, view: Viewport, timestamp: int, price: int): (r: TradeLine)
    requires view.Valid() && line.Valid()
    ensures r.Valid() && |r.pointMeta| > 0
    ensures r.pointMeta[|r.pointMeta| - 1] == PointMeta(timestamp, price)
    ensures r.segments[|r.segments| - 1] == Gpp(view, timestamp as real, price as real)
    ensures line.pointMeta == [] ==> r.pointMeta == [PointMeta(timestamp, price)]
    ensures line.pointMeta != [] ==> (r.pointMeta ==
      line.pointMeta + [PointMeta(timestamp, line.pointMeta[|line.pointMeta| - 1].price), PointMeta(timestamp, price)])
    ensures r.segments[..|line.segments|] == line.segments
  {
    var p := Gpp(view, timestamp as real, price as real);
    if |line.pointMeta| != 0 then
      var lastPrice := line.pointMeta[|line.pointMeta| - 1].price;
      var corner := Point(p.x, PixelY(view, lastPrice as real));
      TradeLine(line.pointMeta + [PointMeta(timestamp, lastPrice), PointMeta(timestamp, price)],
                line.segments + [corner, p])
    else
      TradeLine(line.pointMeta + [PointMeta(timestamp, price)], line.segments + [p])
  }

  /** A placed line stays placed when a trade is added: the corner point is
      exactly where its vertex (trade time, previous price) is drawn. */
  lemma AddTradePlaced(line: TradeLine, view: Viewport, timestamp: int, price: int)
    requires view.Valid() && Placed(line, view)
    ensures Placed(AddTrade(line, view, timestamp, price), view)
  {
    var r := AddTrade(line, view, timestamp, price);
    if |line.pointMeta| != 0 {
      var lastPrice := line.pointMeta[|line.pointMeta| - 1].price;
      GppAgreesWithPixelXY(view, timestamp as real, price as real);
      GppAgreesWithPixelXY(view, timestamp as real, lastPrice as real);
      assert r.segments[|line.segments|] == VertexPoint(view, r.pointMeta[|line.segments|]);
    }
  }

  /** `extendTradeLines`, one side. An extended line has its last segment
      moved to the current time at the last vertex's price, its vertex data
      untouched; a line with vertices that is not extended gains one vertex
      at the current time and the last price, and becomes extended; an empty
      line is left alone. */
  function ExtendLine(line: TradeLine, extended: bool, view: Viewport, timestamp: int): (r: (TradeLine, bool))
    requires view.Valid() && line.Valid() && (extended ==> |line.pointMeta| > 0)
    ensures r.0.Valid() && (r.1 ==> |r.0.pointMeta| > 0)
    ensures line.pointMeta == [] ==> r == (line, extended)
    ensures extended ==> (r.1 && r.0.pointMeta == line.pointMeta &&
      |r.0.segments| == |line.segments| &&
      r.0.segments[..|line.segments| - 1] == line.segments[..|line.segments| - 1] &&
      r.0.segments[|line.segments| - 1] ==
        Point(PixelX(view, timestamp as real), PixelY(view, line.pointMeta[|line.pointMeta| - 1].price as real)))
    ensures !extended && line.pointMeta != [] ==> (r.1 &&
      r.0.pointMeta == line.pointMeta + [PointMeta(timestamp, line.pointMeta[|line.pointMeta| - 1].price)] &&
      r.0.segments == line.segments + [VertexPoint(view, r.0.pointMeta[|r.0.pointMeta| - 1])])
  {
    if extended then
      var n := |line.segments|;
      var lastPrice := line.pointMeta[|line.pointMeta| - 1].price;
      var moved := Point(PixelX(view, timestamp as real), PixelY(view, lastPrice as real));
      (line.(segments := line.segments[n - 1 := moved]), true)
    else if |line.pointMeta| > 0 then
      var lastPrice := line.pointMeta[|line.pointMeta| - 1].price;
      var p := Gpp(view, timestamp as real, lastPrice as real);
      (TradeLine(line.pointMeta + [PointMeta(timestamp, lastPrice)], line.segments + [p]), true)
    else
      (line, extended)
  }

  /** A first extension keeps a placed line placed; a later one moves only
      the last segment, which then sits at the current time on the last
      vertex's price level. */
  lemma ExtendLinePlaced(line: TradeLine, extended: bool, view: Viewport, timestamp: int)
    requires view.Valid() && Placed(line, view) && (extended ==> |line.pointMeta| > 0)
    ensures !extended ==> Placed(ExtendLine(line, extended, view, timestamp).0, view)
    ensures extended ==> var r := ExtendLine(line, extended, view, timestamp).0;
      forall i :: 0 <= i < |r.segments| - 1 ==> r.segments[i] == VertexPoint(view, r.pointMeta[i])
    ensures extended ==> var r := ExtendLine(line, extended, view, timestamp).0;
      r.segments[|r.segments| - 1] ==
        VertexPoint(view, PointMeta(timestamp, line.pointMeta[|line.pointMeta| - 1].price))
  {
    var lastPrice := if line.pointMeta == [] then 0 else line.pointMeta[|line.pointMeta| - 1].price;
    GppAgreesWithPixelXY(view, timestamp as real, lastPrice as real);
    if extended {
      var r := ExtendLine(line, extended, view, timestamp).0;
      forall i | 0 <= i < |r.segments| - 1 ensures r.segments[i] == VertexPoint(view, r.pointMeta[i]) {
        assert r.segments[i] == r.segments[..|line.segments| - 1][i];
      }
    }
  }

  /** The radius a trade marker is drawn with: its size relative to the
      largest trade, scaled to the largest radius. */
  function MarkerRadius(amountTraded: int, maxRenderedTrade: int, maxRadius: real): (r: real)
    requires 0 < amountTraded <= maxRenderedTrade && maxRadius >= 0.0
    ensures 0.0 <= r <= maxRadius
    ensures amountTraded == maxRenderedTrade ==> r == maxRadius
  {
    (amountTraded as real / maxRenderedTrade as real) * maxRadius
  }

  /** A trade marker moved to the (timestamp, price) read from its name;
      a name that reads as nothing leaves the marker where it is. */
  function MoveMarker(item: Item, view: Viewport, at: Option<(int, int)>): Item
    requires view.Valid()
  {
    match at
    case Some((t, p)) => item.(position := Gpp(view, t as real, p as real))
    case None => item
  }

  /** The factor old-largest / new-largest the markers shrink by when a
      larger trade arrives. */
  function ShrinkFactor(oldMax: int, amountTraded: int): (f: real)
    requires 0 <= oldMax < amountTraded
    ensures 0.0 <= f < 1.0
  {
    oldMax as real / amountTraded as real
  }

  lemma ShrinkBounded(r: real, f: real, bound: real)
    requires 0.0 <= r <= bound && 0.0 <= f <= 1.0
    ensures 0.0 <= r * f <= bound
  {
    assert r - r * f == r * (1.0 - f);
  }

  /** An item after `item.scale(f)`: a trade marker's radius is multiplied by `f`. */
  function Scaled(item: Item, f: real): Item
  {
    if IsTradeMarker(item) then item.(radius := item.radius * f) else item
  }

  /** Every item of the layer after `item.scale(f)`. */
  function ScaleAll(layer: seq<Item>, f: real): (r: seq<Item>)
    ensures |r| == |layer|
    ensures forall k :: 0 <= k < |layer| ==> r[k] == Scaled(layer[k], f)
  {
    if layer == [] then [] else [Scaled(layer[0], f)] + ScaleAll(layer[1..], f)
  }

  /** Scaling by a factor between 0 and 1 keeps every trade marker's
      radius between 0 and `bound`. */
  lemma ScaleAllBounded(layer: seq<Item>, f: real, bound: real)
    requires 0.0 <= f <= 1.0
    requires forall k :: 0 <= k < |layer| && IsTradeMarker(layer[k]) ==> 0.0 <= layer[k].radius <= bound
    ensures var r := ScaleAll(layer, f);
      forall k :: 0 <= k < |r| && IsTradeMarker(r[k]) ==> 0.0 <= r[k].radius <= bound
  {
    var r := ScaleAll(layer, f);
    forall k | 0 <= k < |r| && IsTradeMarker(r[k])
      ensures 0.0 <= r[k].radius <= bound
    {
      assert IsTradeMarker(layer[k]);
      ShrinkBounded(layer[k].radius, f, bound);
    }
  }

  /** The rescaling loop of `renderTradeNotification`: every trade marker's
      radius is multiplied by `sizeDiff`; other items are left alone. A
      factor between 0 and 1 keeps the markers bounded. */
  method ScaleMarkers(v: VizState, sizeDiff: real)
    requires 0.0 <= sizeDiff <= 1.0 && v.MarkersBounded()
    modifies v`layer
    ensures v.MarkersBounded()
    ensures v.layer == ScaleAll(old(v.layer), sizeDiff)
  {
    var layer := v.layer;
    var k := 0;
    while k < |layer|
      invariant 0 <= k <= |layer| == |v.layer|
      invariant forall j :: 0 <= j < k ==> layer[j] == Scaled(v.layer[j], sizeDiff)
      invariant forall j :: k <= j < |layer| ==> layer[j] == v.layer[j]
    {
      if IsTradeMarker(layer[k]) {
        layer := layer[k := layer[k].(radius := layer[k].radius * sizeDiff)];
      }
      k := k + 1;
    }
    assert layer == ScaleAll(v.layer, sizeDiff);
    ScaleAllBounded(v.layer, sizeDiff, v.maxTradeMarketRadius);
    v.layer := layer;
  }

  /** `renderTradeNotification`. A new largest trade shrinks every marker
      by old-largest / new-largest; the trade is added to its side's line;
      a marker of radius at least one half is drawn, named after the trade,
      and then clears that side's extension flag. */
  method RenderTradeNotification(v: VizState, price: int, amountTraded: int, timestamp: int, isBid: bool)
    requires v.Configured() && v.WindowValid() && amountTraded > 0
    modifies v`maxRenderedTrade, v`bidLine, v`askLine, v`layer, v`bidTradeLineExtended, v`askTradeLineExtended
    ensures v.Configured()
    ensures v.maxRenderedTrade == Max(old(v.maxRenderedTrade), amountTraded)
    ensures isBid ==> v.bidLine == AddTrade(old(v.bidLine), v.View(), timestamp, price) && v.askLine == old(v.askLine)
    ensures !isBid ==> v.askLine == AddTrade(old(v.askLine), v.View(), timestamp, price) && v.bidLine == old(v.bidLine)
    ensures var scaled := if amountTraded > old(v.maxRenderedTrade)
                          then ScaleAll(old(v.layer), ShrinkFactor(old(v.maxRenderedTrade), amountTraded))
                          else old(v.layer);
      var radius := MarkerRadius(amountTraded, v.maxRenderedTrade, v.maxTradeMarketRadius);
      if radius < 0.5 then
        v.layer == scaled &&
        v.bidTradeLineExtended == old(v.bidTradeLineExtended) &&
        v.askTradeLineExtended == old(v.askTradeLineExtended)
      else
        v.layer == scaled +
          [Item(MarkerName(timestamp, price), Gpp(v.View(), timestamp as real, price as real), radius)] &&
        v.bidTradeLineExtended == (old(v.bidTradeLineExtended) && !isBid) &&
        v.askTradeLineExtended == (old(v.askTradeLineExtended) && isBid)
  {
    ResizeMarkers(v, amountTraded);
    DrawTrade(v, price, amountTraded, timestamp, isBid);
  }

  /** The drawing steps of `renderTradeNotification`, once the markers are
      rescaled: the trade is added to its side's line, and its marker is
      drawn unless its radius is below one half. */
  method DrawTrade(v: VizState, price: int, amountTraded: int, timestamp: int, isBid: bool)
    requires v.Configured() && v.WindowValid() && 0 < amountTraded <= v.maxRenderedTrade
    modifies v`bidLine, v`askLine, v`layer, v`bidTradeLineExtended, v`askTradeLineExtended
    ensures v.Configured()
    ensures isBid ==> v.bidLine == AddTrade(old(v.bidLine), v.View(), timestamp, price) && v.askLine == old(v.askLine)
    ensures !isBid ==> v.askLine == AddTrade(old(v.askLine), v.View(), timestamp, price) && v.bidLine == old(v.bidLine)
    ensures var radius := MarkerRadius(amountTraded, v.maxRenderedTrade, v.maxTradeMarketRadius);
      if radius < 0.5 then
        v.layer == old(v.layer) &&
        v.bidTradeLineExtended == old(v.bidTradeLineExtended) &&
        v.askTradeLineExtended == old(v.askTradeLineExtended)
      else
        v.layer == old(v.layer) +
          [Item(MarkerName(timestamp, price), Gpp(v.View(), timestamp as real, price as real), radius)] &&
        v.bidTradeLineExtended == (old(v.bidTradeLineExtended) && !isBid) &&
        v.askTradeLineExtended == (old(v.askTradeLineExtended) && isBid)
  {
    var view := v.View();
    AddToTradeLine(v, view, timestamp, price, isBid);
    DrawMarker(v, price, amountTraded, timestamp, isBid);
  }

  /** The rescaling step of `renderTradeNotification`: a trade larger than
      every trade drawn so far becomes the new largest, and every marker
      shrinks by old-largest / new-largest. */
  method ResizeMarkers(v: VizState, amountTraded: int)
    requires v.Configured() && amountTraded > 0
    modifies v`maxRenderedTrade, v`layer
    ensures v.Configured()
    ensures v.maxRenderedTrade == Max(old(v.maxRenderedTrade), amountTraded)
    ensures v.layer == if amountTraded > old(v.maxRenderedTrade)
                       then ScaleAll(old(v.layer), ShrinkFactor(old(v.maxRenderedTrade), amountTraded))
                       else old(v.layer)
  {
    if amountTraded > v.maxRenderedTrade {
      var sizeDiff := ShrinkFactor(v.maxRenderedTrade, amountTraded);
      ScaleMarkers(v, sizeDiff);
      v.maxRenderedTrade := amountTraded;
    }
  }

  /** The marker step of `renderTradeNotification`: a marker whose radius
      is below one half is skipped; otherwise it is drawn and that side's
      extension flag is cleared. */
  method DrawMarker(v: VizState, price: int, amountTraded: int, timestamp: int, isBid: bool)
    requires v.Configured() && v.WindowValid() && 0 < amountTraded <= v.maxRenderedTrade
    modifies v`layer, v`bidTradeLineExtended, v`askTradeLineExtended
    ensures v.Configured()
    ensures var radius := MarkerRadius(amountTraded, v.maxRenderedTrade, v.maxTradeMarketRadius);
      if radius < 0.5 then
        v.layer == old(v.layer) &&
        v.bidTradeLineExtended == old(v.bidTradeLineExtended) &&
        v.askTradeLineExtended == old(v.askTradeLineExtended)
      else
        v.layer == old(v.layer) +
          [Item(MarkerName(timestamp, price), Gpp(v.View(), timestamp as real, price as real), radius)] &&
        v.bidTradeLineExtended == (old(v.bidTradeLineExtended) && !isBid) &&
        v.askTradeLineExtended == (old(v.askTradeLineExtended) && isBid)
  {
    var radius := MarkerRadius(amountTraded, v.maxRenderedTrade, v.maxTradeMarketRadius);
    if radius >= 0.5 {
      AddTradeMarker(v, timestamp, price, radius, isBid);
    }
  }

  /** The line step of `renderTradeNotification`: the trade goes to the
      bid line for a bid and to the ask line for an ask. */
  method AddToTradeLine(v: VizState, view: Viewport, timestamp: int, price: int, isBid: bool)
    requires v.Configured() && v.WindowValid() && view == v.View()
    modifies v`bidLine, v`askLine
    ensures v.Configured()
    ensures isBid ==> v.bidLine == AddTrade(old(v.bidLine), view, timestamp, price) && v.askLine == old(v.askLine)
    ensures !isBid ==> v.askLine == AddTrade(old(v.askLine), view, timestamp, price) && v.bidLine == old(v.bidLine)
    ensures old(Placed(v.bidLine, view)) ==> Placed(v.bidLine, view)
    ensures old(Placed(v.askLine, view)) ==> Placed(v.askLine, view)
    ensures v.WindowValid() && v.View() == view && v.maxRenderedTrade == old(v.maxRenderedTrade)
    ensures v.layer == old(v.layer) && v.bidTradeLineExtended == old(v.bidTradeLineExtended) &&
      v.askTradeLineExtended == old(v.askTradeLineExtended)
  {
    ViewValid(v);
    if isBid {
      if Placed(v.bidLine, view) {
        AddTradePlaced(v.bidLine, view, timestamp, price);
      }
      v.bidLine := AddTrade(v.bidLine, view, timestamp, price);
    } else {
      if Placed(v.askLine, view) {
        AddTradePlaced(v.askLine, view, timestamp, price);
      }
      v.askLine := AddTrade(v.askLine, view, timestamp, price);
    }
  }

  /** The marker step of `renderTradeNotification`: a circle named after
      the trade at the trade's point, and that side's line no longer extended. */
  method AddTradeMarker(v: VizState, timestamp: int, price: int, radius: real, isBid: bool)
    requires v.Configured() && v.WindowValid() && 0.0 <= radius <= v.maxTradeMarketRadius
    modifies v`layer, v`bidTradeLineExtended, v`askTradeLineExtended
    ensures v.Configured()
    ensures v.layer == old(v.layer) +
      [Item(MarkerName(timestamp, price), Gpp(v.View(), timestamp as real, price as real), radius)]
    ensures v.bidTradeLineExtended == (old(v.bidTradeLineExtended) && !isBid)
    ensures v.askTradeLineExtended == (old(v.askTradeLineExtended) && isBid)
  {
    ViewValid(v);
    var marker := Item(MarkerName(timestamp, price), Gpp(v.View(), timestamp as real, price as real), radius);
    v.layer := v.layer + [marker];
    forall j | 0 <= j < |v.layer| && IsTradeMarker(v.layer[j])
      ensures 0.0 <= v.layer[j].radius <= v.maxTradeMarketRadius
    {
      if j < |old(v.layer)| {
        assert v.layer[j] == old(v.layer)[j];
      }
    }
    if isBid {
      v.bidTradeLineExtended := false;
    } else {
      v.askTradeLineExtended := false;
    }
  }

  /** `extendTradeLines`: both sides extended by `ExtendLine`. */
  method ExtendTradeLines(v: VizState, timestamp: int)
    requires v.Configured() && v.WindowValid()
    modifies v`bidLine, v`askLine, v`bidTradeLineExtended, v`askTradeLineExtended
    ensures v.Configured()
    ensures (v.bidLine, v.bidTradeLineExtended) ==
      ExtendLine(old(v.bidLine), old(v.bidTradeLineExtended), v.View(), timestamp)
    ensures (v.askLine, v.askTradeLineExtended) ==
      ExtendLine(old(v.askLine), old(v.askTradeLineExtended), v.View(), timestamp)
  {
    ViewValid(v);
    var view := v.View();
    if v.bidTradeLineExtended {
      var n := |v.bidLine.segments|;
      var lastPrice := v.bidLine.pointMeta[|v.bidLine.pointMeta| - 1].price;
      v.bidLine := v.bidLine.(segments := v.bidLine.segments[n - 1 := Point(PixelX(view, timestamp as real), PixelY(view, lastPrice as real))]);
    } else if |v.bidLine.pointMeta| > 0 {
      var lastPrice := v.bidLine.pointMeta[|v.bidLine.pointMeta| - 1].price;
      var p := Gpp(view, timestamp as real, lastPrice as real);
      v.bidLine := TradeLine(v.bidLine.pointMeta + [PointMeta(timestamp, lastPrice)], v.bidLine.segments + [p]);
      v.bidTradeLineExtended := true;
    }

    if v.askTradeLineExtended {
      var n := |v.askLine.segments|;
      var lastPrice := v.askLine.pointMeta[|v.askLine.pointMeta| - 1].price;
      v.askLine := v.askLine.(segments := v.askLine.segments[n - 1 := Point(PixelX(view, timestamp as real), PixelY(view, lastPrice as real))]);
    } else if |v.askLine.pointMeta| > 0 {
      var lastPrice := v.askLine.pointMeta[|v.askLine.pointMeta| - 1].price;
      var p := Gpp(view, timestamp as real, lastPrice as real);
      v.askLine := TradeLine(v.askLine.pointMeta + [PointMeta(timestamp, lastPrice)], v.askLine.segments + [p]);
      v.askTradeLineExtended := true;
    }
  }

  /** `reRenderTrades`, one item: a trade marker is moved to the
      (timestamp, price) its name reads as; other items stay. */
  function Relaid(item: Item, view: Viewport): Item
    requires view.Valid()
  {
    if IsTradeMarker(item) then MoveMarker(item, view, DecodeMarker(item.name)) else item
  }

  /** The whole layer after the re-layout, item for item. */
  function RelaidLayer(layer: seq<Item>, view: Viewport): (r: seq<Item>)
    requires view.Valid()
    ensures |r| == |layer|
    ensures forall k :: 0 <= k < |layer| ==> r[k] == Relaid(layer[k], view)
  {
    if layer == [] then [] else [Relaid(layer[0], view)] + RelaidLayer(layer[1..], view)
  }

  /** A trade line redrawn from its vertex data: every segment at its vertex. */
  function Redrawn(line: TradeLine, view: Viewport): (r: TradeLine)
    requires view.Valid()
    ensures r.pointMeta == line.pointMeta && Placed(r, view)
  {
    TradeLine(line.pointMeta, Vertices(line.pointMeta, view))
  }

  /** The drawn points of a list of vertices. */
  function Vertices(metas: seq<PointMeta>, view: Viewport): (r: seq<Point>)
    requires view.Valid()
    ensures |r| == |metas|
    ensures forall i :: 0 <= i < |metas| ==> r[i] == VertexPoint(view, metas[i])
  {
    if metas == [] then [] else [VertexPoint(view, metas[0])] + Vertices(metas[1..], view)
  }

  /** `reRenderTrades`: after a zoom every trade marker is moved to where
      its name says it belongs and both trade lines are redrawn from their
      vertex data. */
  method ReRenderTrades(v: VizState)
    requires v.Configured() && v.WindowValid()
    modifies v`layer, v`bidLine, v`askLine
    ensures v.Configured()
    ensures v.layer == RelaidLayer(old(v.layer), v.View())
    ensures v.bidLine == Redrawn(old(v.bidLine), v.View()) && v.askLine == Redrawn(old(v.askLine), v.View())
  {
    ViewValid(v);
    RelayMarkers(v);
    RedrawLines(v);
  }

  /** The marker loop of `reRenderTrades`. */
  method RelayMarkers(v: VizState)
    requires v.Configured() && v.WindowValid()
    modifies v`layer
    ensures v.Configured()
    ensures v.layer == RelaidLayer(old(v.layer), v.View())
  {
    ViewValid(v);
    var view := v.View();
    var k := 0;
    while k < |v.layer|
      invariant 0 <= k <= |v.layer| == |old(v.layer)|
      invariant forall j :: 0 <= j < k ==> v.layer[j] == Relaid(old(v.layer)[j], view)
      invariant forall j :: k <= j < |v.layer| ==> v.layer[j] == old(v.layer)[j]
      modifies v`layer
    {
      if IsTradeMarker(v.layer[k]) {
        v.layer := v.layer[k := MoveMarker(v.layer[k], view, DecodeMarker(v.layer[k].name))];
      }
      k := k + 1;
    }
    assert v.layer == RelaidLayer(old(v.layer), view);
    assert v.MarkersBounded() by {
      forall j | 0 <= j < |v.layer| && IsTradeMarker(v.layer[j])
        ensures 0.0 <= v.layer[j].radius <= v.maxTradeMarketRadius
      {
        assert v.layer[j].radius == old(v.layer)[j].radius;
        assert v.layer[j].name == old(v.layer)[j].name;
      }
    }
  }

  /** The two segment loops of `reRenderTrades`. */
  method RedrawLines(v: VizState)
    requires v.Configured() && v.WindowValid()
    modifies v`bidLine, v`askLine
    ensures v.Configured()
    ensures v.bidLine == Redrawn(old(v.bidLine), v.View()) && v.askLine == Redrawn(old(v.askLine), v.View())
  {
    ViewValid(v);
    var view := v.View();
    var i := 0;
    while i < |v.bidLine.segments|
      invariant 0 <= i <= |v.bidLine.segments| == |v.bidLine.pointMeta|
      invariant v.bidLine.pointMeta == old(v.bidLine.pointMeta)
      invariant forall j :: 0 <= j < i ==> v.bidLine.segments[j] == VertexPoint(view, v.bidLine.pointMeta[j])
      modifies v`bidLine
    {
      v.bidLine := v.bidLine.(segments := v.bidLine.segments[i := VertexPoint(view, v.bidLine.pointMeta[i])]);
      i := i + 1;
    }
    assert v.bidLine == Redrawn(old(v.bidLine), view);
    i := 0;
    while i < |v.askLine.segments|
      invariant 0 <= i <= |v.askLine.segments| == |v.askLine.pointMeta|
      invariant v.askLine.pointMeta == old(v.askLine.pointMeta)
      invariant forall j :: 0 <= j < i ==> v.askLine.segments[j] == VertexPoint(view, v.askLine.pointMeta[j])
      invariant v.bidLine == Redrawn(old(v.bidLine), view)
      modifies v`askLine
    {
      v.askLine := v.askLine.(segments := v.askLine.segments[i := VertexPoint(view, v.askLine.pointMeta[i])]);
      i := i + 1;
    }
    assert v.askLine == Redrawn(old(v.askLine), view);
  }

  /** A marker drawn for a trade at a non-negative time and price is moved
      by the re-layout to exactly where that trade is drawn in the current
      view. */
  lemma ReRenderPlacesMarker(view: Viewport, timestamp: int, price: int, position: Point, radius: real)
    requires view.Valid() && timestamp >= 0 && price >= 0
    ensures var item := Item(MarkerName(timestamp, price), position, radius);
      IsTradeMarker(item) &&
      MoveMarker(item, view, DecodeMarker(item.name)).position == Gpp(view, timestamp as real, price as real)
  {
    MarkerNameSelected(timestamp, price, position, radius);
    MarkerRoundTrip(timestamp, price);
  }
}
