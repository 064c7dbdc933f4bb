/** The earliest `getPixelPosition` (`src/calc.js`). It takes the price
    before the timestamp, has no left inset, does not flip the y axis, and
    scales the price offset by the TIME range rather than the price range. */
module RootCalc {
  import opened Types
  import Geometry

  /** `getPixelPosition(minPrice, maxPrice, minTime, maxTime, canvasHeight,
      canvasWidth, price, timestamp)`. The left edge of the time window is
      at x = 0 and its right edge at x = canvasWidth; the bottom price is
      at y = 0. */
  function RootPixelPosition(minPrice: real, maxPrice: real, minTime: real, maxTime: real,
                             canvasHeight: real, canvasWidth: real, price: real, timestamp: real): (r: Point)
    requires minTime != maxTime
    ensures timestamp == minTime ==> r.x == 0.0
    ensures timestamp == maxTime ==> r.x == canvasWidth
    ensures price == minPrice ==> r.y == 0.0
  {
    var x := ((timestamp - minTime) / (maxTime - minTime)) * canvasWidth;
    var y := ((price - minPrice) / (maxTime - minTime)) * canvasHeight;
    Point(x, y)
  }

  lemma QuotientLess(a: real, b: real, d: real)
    requires a < b && d > 0.0
    ensures a / d < b / d
  {
    assert (b - a) / d > 0.0;
    assert b / d - a / d == (b - a) / d;
  }

  lemma ScaleLess(a: real, b: real, c: real)
    requires a < b && c > 0.0
    ensures a * c < b * c
  {
    assert b * c - a * c == (b - a) * c;
  }

  /** With a forward time window and a non-empty canvas, a later time is
      drawn further right. */
  lemma RootXMonotone(minPrice: real, maxPrice: real, minTime: real, maxTime: real,
                      canvasHeight: real, canvasWidth: real, price: real, t1: real, t2: real)
    requires minTime < maxTime && canvasWidth > 0.0 && t1 < t2
    ensures RootPixelPosition(minPrice, maxPrice, minTime, maxTime, canvasHeight, canvasWidth, price, t1).x <
            RootPixelPosition(minPrice, maxPrice, minTime, maxTime, canvasHeight, canvasWidth, price, t2).x
  {
    var span := maxTime - minTime;
    QuotientLess(t1 - minTime, t2 - minTime, span);
    ScaleLess((t1 - minTime) / span, (t2 - minTime) / span, canvasWidth);
  }

  /** With a forward time window and a non-empty canvas, a higher price is
      drawn further from y = 0: the y axis is not flipped. */
  lemma RootYMonotone(minPrice: real, maxPrice: real, minTime: real, maxTime: real,
                      canvasHeight: real, canvasWidth: real, p1: real, p2: real, timestamp: real)
    requires minTime < maxTime && canvasHeight > 0.0 && p1 < p2
    ensures RootPixelPosition(minPrice, maxPrice, minTime, maxTime, canvasHeight, canvasWidth, p1, timestamp).y <
            RootPixelPosition(minPrice, maxPrice, minTime, maxTime, canvasHeight, canvasWidth, p2, timestamp).y
  {
    var span := maxTime - minTime;
    QuotientLess(p1 - minPrice, p2 - minPrice, span);
    ScaleLess((p1 - minPrice) / span, (p2 - minPrice) / span, canvasHeight);
  }

  /** Because y divides by the time range, the top price reaches the top of
      the canvas (y = canvasHeight) exactly when the price range equals the
      time range. */
  lemma RootTopPriceReachesTop(minPrice: real, maxPrice: real, minTime: real, maxTime: real,
                               canvasHeight: real, canvasWidth: real, timestamp: real)
    requires minTime < maxTime && canvasHeight > 0.0
    ensures RootPixelPosition(minPrice, maxPrice, minTime, maxTime, canvasHeight, canvasWidth, maxPrice, timestamp).y
              == canvasHeight
            <==> maxPrice - minPrice == maxTime - minTime
  {
    var span := maxTime - minTime;
    var q := (maxPrice - minPrice) / span;
    assert q * span == maxPrice - minPrice;
    assert q * canvasHeight == canvasHeight <==> q == 1.0 by {
      assert q * canvasHeight - canvasHeight == (q - 1.0) * canvasHeight;
    }
  }

  /** The later `getPixelPosition` places a point 60 pixels to the right of
      where the earliest one does, with the same window and canvas. */
  lemma InsetShift(minPrice: real, maxPrice: real, minTime: real, maxTime: real,
                   canvasHeight: real, canvasWidth: real, price: real, timestamp: real)
    requires minPrice != maxPrice && minTime != maxTime
    ensures Geometry.PixelPosition(minPrice, maxPrice, minTime, maxTime, canvasHeight, canvasWidth, timestamp, price).x ==
      RootPixelPosition(minPrice, maxPrice, minTime, maxTime, canvasHeight, canvasWidth, price, timestamp).x + Geometry.Inset
  {
  }
}
