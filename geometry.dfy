/** The canvas geometry of `calc.js`: where a (timestamp, price) point is
    drawn, and the inverse mappings used for hover read-outs. The drawn area
    starts 60 pixels from the left edge; y grows downwards, so the top price
    is at y = 0 and the bottom price at y = canvasHeight. */
module Geometry {
  import opened Types

  /** The visible window and canvas size, as `gpp` reads them from the state. */
  datatype Viewport = Viewport(
    minPrice: real, maxPrice: real,
    minTimestamp: real, maxTimestamp: real,
    canvasHeight: real, canvasWidth: real)
  {
    /** Non-empty ranges and a non-empty canvas: every mapping below divides by them. */
    predicate Valid()
    {
      minPrice < maxPrice && minTimestamp < maxTimestamp && canvasHeight > 0.0 && canvasWidth > 0.0
    }
  }

  /** The horizontal inset of the drawn area. */
  const Inset: real := 60.0

  /** `getPixelPosition`: the canvas position of `(timestamp, price)`. */
  function PixelPosition(minPrice: real, maxPrice: real, minTime: real, maxTime: real,
                         canvasHeight: real, canvasWidth: real, timestamp: real, price: real): (r: Point)
    requires minPrice != maxPrice && minTime != maxTime
    ensures timestamp == minTime ==> r.x == Inset
    ensures timestamp == maxTime ==> r.x == canvasWidth + Inset
    ensures price == minPrice ==> r.y == canvasHeight
    ensures price == maxPrice ==> r.y == 0.0
  {
    var x := ((timestamp - minTime) / (maxTime - minTime)) * canvasWidth;
    var y := canvasHeight - ((price - minPrice) / (maxPrice - minPrice)) * canvasHeight;
    Point(x + Inset, y)
  }

  /** `getPixelX`. */
  function PixelX(v: Viewport, timestamp: real): (x: real)
    requires v.Valid()
    ensures timestamp == v.minTimestamp ==> x == Inset
    ensures timestamp == v.maxTimestamp ==> x == v.canvasWidth + Inset
  {
    ((timestamp - v.minTimestamp) / (v.maxTimestamp - v.minTimestamp)) * v.canvasWidth + Inset
  }

  /** `getPixelY`. */
  function PixelY(v: Viewport, price: real): (y: real)
    requires v.Valid()
    ensures price == v.minPrice ==> y == v.canvasHeight
    ensures price == v.maxPrice ==> y == 0.0
  {
    v.canvasHeight - ((price - v.minPrice) / (v.maxPrice - v.minPrice)) * v.canvasHeight
  }

  /** `gpp`: `getPixelPosition` with the window and canvas of the state. */
  function Gpp(v: Viewport, timestamp: real, price: real): (r: Point)
    requires v.Valid()
    ensures timestamp == v.minTimestamp ==> r.x == Inset
    ensures price == v.maxPrice ==> r.y == 0.0
  {
    PixelPosition(v.minPrice, v.maxPrice, v.minTimestamp, v.maxTimestamp,
                  v.canvasHeight, v.canvasWidth, timestamp, price)
  }

  /** `getTimestampFromPixel`. */
  function TimestampFromPixel(v: Viewport, x: real): (t: real)
    requires v.Valid()
    ensures x == Inset ==> t == v.minTimestamp
    ensures x == v.canvasWidth + Inset ==> t == v.maxTimestamp
  {
    ((x - Inset) / v.canvasWidth) * (v.maxTimestamp - v.minTimestamp) + v.minTimestamp
  }

  /** `getPriceFromPixel`. */
  function PriceFromPixel(v: Viewport, y: real): (p: real)
    requires v.Valid()
    ensures y == v.canvasHeight ==> p == v.minPrice
    ensures y == 0.0 ==> p == v.maxPrice
  {
    var percent := 1.0 - y / v.canvasHeight;
    percent * (v.maxPrice - v.minPrice) + v.minPrice
  }

  /** `gpp` places a point exactly where `getPixelX` and `getPixelY` do. */
  lemma GppAgreesWithPixelXY(v: Viewport, timestamp: real, price: real)
    requires v.Valid()
    ensures Gpp(v, timestamp, price) == Point(PixelX(v, timestamp), PixelY(v, price))
  {
  }

  lemma ScaleBack(a: real, b: real)
    requires b != 0.0
    ensures (a / b) * b == a && (a * b) / b == a
  {
  }

  /** Reading the timestamp back from the pixel column it is drawn in gives it back. */
  lemma TimestampRoundTrip(v: Viewport, t: real)
    requires v.Valid()
    ensures TimestampFromPixel(v, PixelX(v, t)) == t
  {
    var range := v.maxTimestamp - v.minTimestamp;
    var f := (t - v.minTimestamp) / range;
    assert PixelX(v, t) - Inset == f * v.canvasWidth;
    ScaleBack(f, v.canvasWidth);
    ScaleBack(t - v.minTimestamp, range);
  }

  /** Drawing the timestamp read from a pixel column lands on that column. */
  lemma PixelXRoundTrip(v: Viewport, x: real)
    requires v.Valid()
    ensures PixelX(v, TimestampFromPixel(v, x)) == x
  {
    var range := v.maxTimestamp - v.minTimestamp;
    var f := (x - Inset) / v.canvasWidth;
    assert TimestampFromPixel(v, x) - v.minTimestamp == f * range;
    ScaleBack(f, range);
    ScaleBack(x - Inset, v.canvasWidth);
  }

  /** Reading the price back from the pixel row it is drawn in gives it back. */
  lemma PriceRoundTrip(v: Viewport, p: real)
    requires v.Valid()
    ensures PriceFromPixel(v, PixelY(v, p)) == p
  {
    var range := v.maxPrice - v.minPrice;
    var f := (p - v.minPrice) / range;
    var y := PixelY(v, p);
    var g := 1.0 - f;
    assert y == g * v.canvasHeight;
    ScaleBack(g, v.canvasHeight);
    assert y / v.canvasHeight == g;
    ScaleBack(p - v.minPrice, range);
  }

  /** Drawing the price read from a pixel row lands on that row. */
  lemma PixelYRoundTrip(v: Viewport, y: real)
    requires v.Valid()
    ensures PixelY(v, PriceFromPixel(v, y)) == y
  {
    var range := v.maxPrice - v.minPrice;
    var percent := 1.0 - y / v.canvasHeight;
    assert PriceFromPixel(v, y) - v.minPrice == percent * range;
    ScaleBack(percent, range);
    ScaleBack(y, v.canvasHeight);
  }

  lemma DivLess(a: real, b: real, d: real)
    requires d > 0.0 && a < b
    ensures a / d < b / d
  {
    assert b / d - a / d == (b - a) / d;
  }

  lemma MulLess(a: real, b: real, c: real)
    requires c > 0.0 && a < b
    ensures a * c < b * c
  {
    assert b * c - a * c == (b - a) * c;
  }

  /** Later timestamps are drawn further right, higher prices further up. */
  lemma PixelMonotone(v: Viewport, t1: real, t2: real, p1: real, p2: real)
    requires v.Valid() && t1 < t2 && p1 < p2
    ensures PixelX(v, t1) < PixelX(v, t2)
    ensures PixelY(v, p1) > PixelY(v, p2)
  {
    var tr, pr := v.maxTimestamp - v.minTimestamp, v.maxPrice - v.minPrice;
    DivLess(t1 - v.minTimestamp, t2 - v.minTimestamp, tr);
    MulLess((t1 - v.minTimestamp) / tr, (t2 - v.minTimestamp) / tr, v.canvasWidth);
    DivLess(p1 - v.minPrice, p2 - v.minPrice, pr);
    MulLess((p1 - v.minPrice) / pr, (p2 - v.minPrice) / pr, v.canvasHeight);
  }
}
