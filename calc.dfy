/** The band index and the band aggregator of `calc.js`: which band a price
    falls in, the initial band volumes of a book image, the largest band, and
    the top of the book. */
module Calc {
  import opened Types

  /** The visible price range and the number of bands it is cut into. */
  datatype PriceWindow = PriceWindow(minPrice: int, maxPrice: int, priceGranularity: int) {
    predicate Valid() { minPrice < maxPrice && priceGranularity >= 1 }
  }

  /** `getBandIndex`: the band whose price span holds `price`; the top price
      of the window belongs to the last band. */
  function BandIndex(w: PriceWindow, price: int): (i: int)
    requires w.Valid()
    ensures price == w.maxPrice ==> i == w.priceGranularity - 1
    ensures price == w.minPrice ==> i == 0
    ensures w.minPrice <= price <= w.maxPrice <==> 0 <= i < w.priceGranularity
    ensures price < w.minPrice ==> i < 0
    ensures price > w.maxPrice ==> i >= w.priceGranularity
  {
    if price == w.maxPrice then w.priceGranularity - 1
    else FloorIndex(price - w.minPrice, w.maxPrice - w.minPrice, w.priceGranularity)
  }

  /** Below the top price, band `i` is the floor of the price's offset in
      units of the band width `(maxPrice - minPrice) / priceGranularity`. */
  lemma BandIndexFloor(w: PriceWindow, price: int)
    requires w.Valid() && price != w.maxPrice
    ensures var i := BandIndex(w, price);
      i * (w.maxPrice - w.minPrice) <= (price - w.minPrice) * w.priceGranularity < (i + 1) * (w.maxPrice - w.minPrice)
  {
    DivBounds((price - w.minPrice) * w.priceGranularity, w.maxPrice - w.minPrice);
  }

  /** `Math.floor(d / (span / g))` over exact integers. */
  function FloorIndex(d: int, span: int, g: int): (q: int)
    requires span > 0 && g >= 1
    ensures d == 0 ==> q == 0
    ensures 0 <= d ==> 0 <= q
    ensures d < 0 ==> q < 0
    ensures d < span ==> q < g
    ensures d > span ==> q >= g
  {
    FloorSign(d, span, g);
    FloorTop(d, span, g);
    (d * g) / span
  }

  lemma DivBounds(n: int, span: int)
    requires span > 0
    ensures (n / span) * span <= n < (n / span + 1) * span
  {
    assert n == (n / span) * span + n % span;
  }

  /** The floor has the sign of the offset, and a zero offset gives band 0. */
  lemma FloorSign(d: int, span: int, g: int)
    requires span > 0 && g >= 1
    ensures 0 <= d ==> 0 <= (d * g) / span
    ensures d < 0 ==> (d * g) / span < 0
    ensures d == 0 ==> (d * g) / span == 0
  {
    var n, q := d * g, (d * g) / span;
    DivBounds(n, span);
    if 0 <= d {
      MulMono(0, d, g);
      assert 0 * span < (q + 1) * span;
      MulLess(0, q + 1, span);
    } else {
      MulMono(d, -1, g);
      assert q * span < 0 * span;
      MulLess(q, 0, span);
    }
    if d == 0 {
      assert q * span < 1 * span;
      MulLess(q, 1, span);
    }
  }

  /** An offset below the window span gives a band below `g`, above it one at or past `g`. */
  lemma FloorTop(d: int, span: int, g: int)
    requires span > 0 && g >= 1
    ensures d < span ==> (d * g) / span < g
    ensures d > span ==> (d * g) / span >= g
  {
    var n, q := d * g, (d * g) / span;
    DivBounds(n, span);
    if d < span {
      MulMono(d, span - 1, g);
      assert (span - 1) * g == g * span - g;
      assert q * span < g * span;
      MulLess(q, g, span);
    } else if d > span {
      MulMono(span + 1, d, g);
      assert (span + 1) * g == g * span + g;
      assert g * span < (q + 1) * span;
      MulLess(g, q + 1, span);
    }
  }

  lemma MulMono(a: int, b: int, c: int)
    requires a <= b && c >= 0
    ensures a * c <= b * c
  {
    assert b * c - a * c == (b - a) * c;
  }

  lemma MulLess(a: int, b: int, c: int)
    requires a * c < b * c && c > 0
    ensures a < b
  {
    if a >= b { MulMono(b, a, c); }
  }

  /** `getBandIndex` never decreases as the price grows. */
  lemma {:induction false} BandIndexMonotone(w: PriceWindow, p: int, q: int)
    requires w.Valid() && p <= q
    ensures BandIndex(w, p) <= BandIndex(w, q)
  {
    var i, j := BandIndex(w, p), BandIndex(w, q);
    if p == q {
    } else if q == w.maxPrice {
      assert i < w.priceGranularity;
    } else if p == w.maxPrice {
      assert j >= w.priceGranularity;
    } else {
      FloorMonotone(p - w.minPrice, q - w.minPrice, w.maxPrice - w.minPrice, w.priceGranularity);
    }
  }

  lemma FloorMonotone(d: int, e: int, span: int, g: int)
    requires span > 0 && g >= 1 && d <= e
    ensures (d * g) / span <= (e * g) / span
  {
    var i, j := (d * g) / span, (e * g) / span;
    DivBounds(d * g, span);
    DivBounds(e * g, span);
    MulMono(d, e, g);
    if i > j {
      MulMono(j + 1, i, span);
      assert false;
    }
  }

  /** Volume of the ledger at a price; an absent price holds nothing. */
  function Vol(m: map<int, Level>, p: int): int
  {
    if p in m then m[p].volume else 0
  }

  /** What price `p` adds to band `i`. */
  function Contribution(m: map<int, Level>, w: PriceWindow, i: int, p: int): int
    requires w.Valid()
  {
    if p in m && BandIndex(w, p) == i then m[p].volume else 0
  }

  ghost function Pick(s: set<int>): int
    requires s != {}
  {
    assert exists p :: p in s by {
      if forall p :: p !in s {
        assert false;
      }
    }
    var p :| p in s; p
  }

  /** Sum of the volumes, over the prices in `keys`, that fall in band `i`. */
  ghost function SumBand(m: map<int, Level>, keys: set<int>, w: PriceWindow, i: int): int
    requires w.Valid()
    decreases keys
  {
    if keys == {} then 0
    else
      var p := Pick(keys);
      Contribution(m, w, i, p) + SumBand(m, keys - {p}, w, i)
  }

  /** The volume band `i` must hold: the ledger volumes whose band index is `i`. */
  ghost function BandTotal(m: map<int, Level>, w: PriceWindow, i: int): int
    requires w.Valid()
  {
    SumBand(m, m.Keys, w, i)
  }

  /** No price of the ledger `m` falls in band `i`. */
  predicate Untouched(m: map<int, Level>, w: PriceWindow, i: int)
    requires w.Valid()
  {
    forall p :: p in m ==> BandIndex(w, p) != i
  }

  /** The bands of a whole window, band by band: each holds its ledger
      total, and is still blank exactly when no ledger price falls in it. */
  ghost predicate BandsHold(bands: seq<Band>, m: map<int, Level>, w: PriceWindow)
    requires w.Valid()
  {
    |bands| == w.priceGranularity &&
    forall i :: 0 <= i < |bands| ==> bands[i].volume == BandTotal(m, w, i) && bands[i].blank == Untouched(m, w, i)
  }

  lemma {:induction false} SumBandRemove(m: map<int, Level>, keys: set<int>, w: PriceWindow, i: int, x: int)
    requires w.Valid() && x in keys
    ensures SumBand(m, keys, w, i) == Contribution(m, w, i, x) + SumBand(m, keys - {x}, w, i)
    decreases keys
  {
    var p := Pick(keys);
    if p != x {
      SumBandRemove(m, keys - {p}, w, i, x);
      assert keys - {p} - {x} == keys - {x} - {p};
      SumBandRemove(m, keys - {x}, w, i, p);
    }
  }

  lemma {:induction false} SumBandFrame(m: map<int, Level>, m': map<int, Level>, keys: set<int>, w: PriceWindow, i: int)
    requires w.Valid()
    requires forall p :: p in keys ==> Contribution(m, w, i, p) == Contribution(m', w, i, p)
    ensures SumBand(m, keys, w, i) == SumBand(m', keys, w, i)
    decreases keys
  {
    if keys != {} {
      var p := Pick(keys);
      SumBandFrame(m, m', keys - {p}, w, i);
    }
  }

  /** Prices the ledger does not hold add nothing to a band. */
  lemma {:induction false} SumBandAbsent(m: map<int, Level>, keys: set<int>, w: PriceWindow, i: int)
    requires w.Valid()
    ensures SumBand(m, keys, w, i) == SumBand(m, keys * m.Keys, w, i)
    decreases keys
  {
    if keys != {} {
      var p := Pick(keys);
      SumBandAbsent(m, keys - {p}, w, i);
      assert (keys - {p}) * m.Keys == keys * m.Keys - {p};
      if p in m {
        SumBandRemove(m, keys * m.Keys, w, i, p);
      } else {
        assert keys * m.Keys - {p} == keys * m.Keys;
      }
    }
  }

  /** Setting one price level changes only the band it lies in, by the
      difference between the new and the old volume. */
  lemma BandTotalUpdate(m: map<int, Level>, p: int, l: Level, w: PriceWindow, i: int)
    requires w.Valid()
    ensures BandTotal(m[p := l], w, i) ==
      BandTotal(m, w, i) + (if BandIndex(w, p) == i then l.volume - Vol(m, p) else 0)
    ensures Untouched(m[p := l], w, i) <==> Untouched(m, w, i) && BandIndex(w, p) != i
  {
    var m' := m[p := l];
    var rest := m.Keys - {p};
    assert m'.Keys - {p} == rest;
    SumBandRemove(m', m'.Keys, w, i, p);
    forall q | q in rest ensures Contribution(m, w, i, q) == Contribution(m', w, i, q) {
      assert q != p;
    }
    SumBandFrame(m, m', rest, w, i);
    if p in m {
      SumBandRemove(m, m.Keys, w, i, p);
    } else {
      assert rest == m.Keys;
    }
  }

  lemma {:induction false} SumBandNonNegative(m: map<int, Level>, keys: set<int>, w: PriceWindow, i: int)
    requires w.Valid()
    requires forall p :: p in m ==> m[p].volume >= 0
    ensures SumBand(m, keys, w, i) >= 0
    decreases keys
  {
    if keys != {} {
      SumBandNonNegative(m, keys - {Pick(keys)}, w, i);
    }
  }

  /** With no negative ledger volume no band total is negative. */
  lemma BandTotalNonNegative(m: map<int, Level>, w: PriceWindow, i: int)
    requires w.Valid()
    requires forall p :: p in m ==> m[p].volume >= 0
    ensures BandTotal(m, w, i) >= 0
  {
    SumBandNonNegative(m, m.Keys, w, i);
  }

  /** Two ledgers that agree on the visible prices have the same bands. */
  lemma BandTotalVisible(m: map<int, Level>, m': map<int, Level>, w: PriceWindow, i: int)
    requires w.Valid() && 0 <= i < w.priceGranularity
    requires forall p :: w.minPrice <= p <= w.maxPrice ==> Vol(m, p) == Vol(m', p)
    ensures BandTotal(m, w, i) == BandTotal(m', w, i)
  {
    var keys := m.Keys + m'.Keys;
    SumBandAbsent(m, keys, w, i);
    SumBandAbsent(m', keys, w, i);
    assert keys * m.Keys == m.Keys;
    assert keys * m'.Keys == m'.Keys;
    forall p | p in keys ensures Contribution(m, w, i, p) == Contribution(m', w, i, p) {
      if BandIndex(w, p) == i {
        assert Vol(m, p) == Vol(m', p);
      }
    }
    SumBandFrame(m, m', keys, w, i);
  }

  /** `getInitialBandValues`: `priceGranularity` bands, all stamped
      `initialTimestamp`, band `i` holding the volumes of the book whose band
      index is `i` (prices outside the window add nothing) and left blank
      when no price of the book falls in it. */
  method InitialBandValues(initialTimestamp: real, initialBook: map<int, Level>, w: PriceWindow)
    returns (bands: seq<Band>)
    requires w.Valid()
    ensures |bands| == w.priceGranularity
    ensures forall i :: 0 <= i < |bands| ==>
      bands[i].startTimestamp == initialTimestamp && bands[i].endTimestamp == initialTimestamp
    ensures BandsHold(bands, initialBook, w)
  {
    var g := w.priceGranularity;
    var a := new Band[g](_ => Band(initialTimestamp, initialTimestamp, 0, true));
    var rest := initialBook.Keys;
    while rest != {}
      invariant rest <= initialBook.Keys
      invariant forall i :: 0 <= i < g ==>
        a[i].startTimestamp == initialTimestamp && a[i].endTimestamp == initialTimestamp
      invariant forall i :: 0 <= i < g ==> a[i].volume == SumBand(initialBook, initialBook.Keys - rest, w, i)
      invariant forall i :: 0 <= i < g ==>
        (a[i].blank <==> forall p :: p in initialBook.Keys - rest ==> BandIndex(w, p) != i)
      decreases rest
    {
      assert exists p :: p in rest by {
        if forall p :: p !in rest {
          assert false;
        }
      }
      var price :| price in rest;
      ghost var done := initialBook.Keys - rest;
      var curBandIndex := BandIndex(w, price);
      if 0 <= curBandIndex < g {
        a[curBandIndex] := a[curBandIndex].(volume := a[curBandIndex].volume + initialBook[price].volume, blank := false);
      }
      assert (done + {price}) - {price} == done;
      forall i | 0 <= i < g
        ensures a[i].volume == SumBand(initialBook, done + {price}, w, i)
      {
        SumBandRemove(initialBook, done + {price}, w, i, price);
      }
      assert initialBook.Keys - (rest - {price}) == done + {price};
      rest := rest - {price};
    }
    assert initialBook.Keys - rest == initialBook.Keys;
    bands := a[..];
  }

  /** Sum, over a list of prices, of what each adds to band `i`. */
  ghost function SeqBandSum(m: map<int, Level>, s: seq<int>, w: PriceWindow, i: int): int
    requires w.Valid()
  {
    if s == [] then 0
    else SeqBandSum(m, s[..|s| - 1], w, i) + Contribution(m, w, i, s[|s| - 1])
  }

  predicate Increasing(s: seq<int>)
  {
    forall j, k :: 0 <= j < k < |s| ==> s[j] < s[k]
  }

  lemma {:induction false} SeqBandSumIsBandSum(m: map<int, Level>, s: seq<int>, keys: set<int>, w: PriceWindow, i: int)
    requires w.Valid() && Increasing(s)
    requires forall p :: p in s <==> p in keys
    ensures SeqBandSum(m, s, w, i) == SumBand(m, keys, w, i)
    decreases |s|
  {
    if s == [] {
      forall p ensures p !in keys {
        assert p !in s;
      }
      assert keys == {};
    } else {
      var last := s[|s| - 1];
      var init := s[..|s| - 1];
      forall p ensures p in init <==> p in keys - {last} {
        if p in init {
          var k :| 0 <= k < |init| && init[k] == p;
          assert s[k] == p && k < |s| - 1;
        }
        if p in keys - {last} {
          assert p in s;
          var k :| 0 <= k < |s| && s[k] == p;
          assert k != |s| - 1;
          assert init[k] == p;
        }
      }
      SeqBandSumIsBandSum(m, init, keys - {last}, w, i);
      SumBandRemove(m, keys, w, i, last);
    }
  }

  /** The prices of `s` that lie in the window, in order. */
  function Visible(s: seq<int>, w: PriceWindow): seq<int>
  {
    if s == [] then []
    else
      var last := s[|s| - 1];
      if w.minPrice <= last <= w.maxPrice then Visible(s[..|s| - 1], w) + [last]
      else Visible(s[..|s| - 1], w)
  }

  /** Filtering keeps exactly the prices of the window. */
  lemma {:induction false} VisibleMembers(s: seq<int>, w: PriceWindow)
    ensures forall p :: p in Visible(s, w) <==> p in s && w.minPrice <= p <= w.maxPrice
    decreases |s|
  {
    if s != [] {
      VisibleMembers(s[..|s| - 1], w);
      assert s == s[..|s| - 1] + [s[|s| - 1]];
    }
  }

  /** Filtering keeps the ascending order. */
  lemma {:induction false} VisibleIncreasing(s: seq<int>, w: PriceWindow)
    requires Increasing(s)
    ensures Increasing(Visible(s, w))
    decreases |s|
  {
    if s != [] {
      var init, last := s[..|s| - 1], s[|s| - 1];
      var r := Visible(init, w);
      assert Increasing(init);
      VisibleIncreasing(init, w);
      VisibleMembers(init, w);
      forall j | 0 <= j < |r| ensures r[j] < last {
        assert r[j] in r;
        var k :| 0 <= k < |init| && init[k] == r[j];
      }
    }
  }

  lemma SeqBandSumAppend(m: map<int, Level>, r: seq<int>, x: int, w: PriceWindow, i: int)
    requires w.Valid()
    ensures SeqBandSum(m, r + [x], w, i) == SeqBandSum(m, r, w, i) + Contribution(m, w, i, x)
  {
    assert (r + [x])[..|r + [x]| - 1] == r;
  }

  lemma {:induction false} VisibleBandSum(m: map<int, Level>, s: seq<int>, w: PriceWindow, i: int)
    requires w.Valid() && 0 <= i < w.priceGranularity
    ensures SeqBandSum(m, Visible(s, w), w, i) == SeqBandSum(m, s, w, i)
    decreases |s|
  {
    if s != [] {
      var init := s[..|s| - 1];
      var r := Visible(init, w);
      VisibleBandSum(m, init, w, i);
      var last := s[|s| - 1];
      if w.minPrice <= last <= w.maxPrice {
        SeqBandSumAppend(m, r, last, w, i);
      } else {
        assert Contribution(m, w, i, last) == 0;
      }
    }
  }

  /** Sorted insertion of a price not yet present. */
  function Insert(s: seq<int>, x: int): (r: seq<int>)
    requires Increasing(s) && x !in s
    ensures Increasing(r)
    ensures forall p :: p in r <==> p in s || p == x
  {
    if s == [] then [x]
    else if x < s[0] then [x] + s
    else
      var t := Insert(s[1..], x);
      assert forall p :: p in s <==> p == s[0] || p in s[1..];
      assert forall j :: 0 <= j < |t| ==> s[0] < t[j] by {
        forall j | 0 <= j < |t| ensures s[0] < t[j] {
          assert t[j] in t;
          if t[j] != x {
            var k :| 0 <= k < |s| - 1 && s[1..][k] == t[j];
            assert s[k + 1] == t[j];
          }
        }
      }
      [s[0]] + t
  }

  /** The book's prices as numbers in ascending order. */
  method SortedPrices(book: map<int, Level>) returns (s: seq<int>)
    ensures Increasing(s)
    ensures forall p :: p in s <==> p in book
  {
    s := [];
    var rest := book.Keys;
    while rest != {}
      invariant rest <= book.Keys
      invariant Increasing(s)
      invariant forall p :: p in s <==> p in book.Keys - rest
      decreases rest
    {
      assert exists q :: q in rest by {
        if forall q :: q !in rest {
          assert false;
        }
      }
      var p :| p in rest;
      s := Insert(s, p);
      rest := rest - {p};
    }
  }

  /** The band volumes of a list of prices, all bands at once. */
  ghost function BandSums(m: map<int, Level>, s: seq<int>, w: PriceWindow): (r: seq<int>)
    requires w.Valid()
    ensures |r| == w.priceGranularity
  {
    if s == [] then seq(w.priceGranularity, _ => 0)
    else
      var t := BandSums(m, s[..|s| - 1], w);
      var b := BandIndex(w, s[|s| - 1]);
      if 0 <= b < w.priceGranularity then t[b := t[b] + Vol(m, s[|s| - 1])] else t
  }

  /** One more price adds its volume to its own band. */
  lemma BandSumsStep(m: map<int, Level>, s: seq<int>, k: int, w: PriceWindow, t: seq<int>, b: int, v: int)
    requires w.Valid() && 0 <= k < |s| && s[k] in m
    requires b == BandIndex(w, s[k]) && 0 <= b < w.priceGranularity && v == m[s[k]].volume
    requires t == BandSums(m, s[..k], w)
    ensures BandSums(m, s[..k + 1], w) == t[b := t[b] + v]
  {
    assert s[..k + 1][..k] == s[..k];
  }

  lemma {:induction false} BandSumsAreSums(m: map<int, Level>, s: seq<int>, w: PriceWindow)
    requires w.Valid()
    ensures forall i :: 0 <= i < w.priceGranularity ==> BandSums(m, s, w)[i] == SeqBandSum(m, s, w, i)
    decreases |s|
  {
    if s != [] {
      BandSumsAreSums(m, s[..|s| - 1], w);
    }
  }

  /** Summing the visible prices of the sorted book band by band gives the band totals. */
  lemma VisibleTotals(book: map<int, Level>, allPrices: seq<int>, w: PriceWindow)
    requires w.Valid() && Increasing(allPrices)
    requires forall p :: p in allPrices <==> p in book
    ensures forall i :: 0 <= i < w.priceGranularity ==>
      SeqBandSum(book, Visible(allPrices, w), w, i) == BandTotal(book, w, i)
  {
    forall i | 0 <= i < w.priceGranularity
      ensures SeqBandSum(book, Visible(allPrices, w), w, i) == BandTotal(book, w, i)
    {
      VisibleBandSum(book, allPrices, w, i);
      SeqBandSumIsBandSum(book, allPrices, book.Keys, w, i);
    }
  }

  /** `getMaxVisibleBandVolume`: the largest band volume of the book, never
      below zero. */
  method MaxVisibleBandVolume(book: map<int, Level>, w: PriceWindow) returns (maxBandVolume: int)
    requires w.Valid()
    ensures maxBandVolume >= 0
    ensures forall i :: 0 <= i < w.priceGranularity ==> BandTotal(book, w, i) <= maxBandVolume
    ensures maxBandVolume == 0 ||
      exists i :: 0 <= i < w.priceGranularity && BandTotal(book, w, i) == maxBandVolume
  {
    var allPrices := SortedPrices(book);
    var visiblePrices := Visible(allPrices, w);
    VisibleMembers(allPrices, w);
    VisibleIncreasing(allPrices, w);
    forall j | 0 <= j < |visiblePrices|
      ensures visiblePrices[j] in book && 0 <= BandIndex(w, visiblePrices[j]) < w.priceGranularity
    {
      assert visiblePrices[j] in visiblePrices;
    }
    maxBandVolume := MaxBandOfSorted(book, visiblePrices, w);
    VisibleTotals(book, allPrices, w);
    BandSumsAreSums(book, visiblePrices, w);
  }

  /** The state of the running maximum: bands before `cur` are complete and
      bounded by `mx` (reached at `arg` unless zero), `cur` is being summed,
      the bands after it are still empty. */
  ghost predicate RunningMax(totals: seq<int>, cur: int, curVol: int, mx: int, arg: int)
  {
    0 <= cur < |totals| && curVol == totals[cur] && mx >= 0 &&
    (forall i :: 0 <= i < cur ==> totals[i] <= mx) &&
    (forall i :: cur < i < |totals| ==> totals[i] == 0) &&
    (mx == 0 || (0 <= arg < cur && totals[arg] == mx))
  }

  /** Moving on to a later band first folds the current band into the maximum. */
  lemma RunningMaxNext(totals: seq<int>, cur: int, curVol: int, mx: int, arg: int, next: int, mx': int, arg': int)
    requires RunningMax(totals, cur, curVol, mx, arg) && cur < next < |totals|
    requires if curVol > mx then mx' == curVol && arg' == cur else mx' == mx && arg' == arg
    ensures RunningMax(totals, next, 0, mx', arg')
  {
  }

  /** Adding a volume to the current band. */
  lemma RunningMaxAdd(totals: seq<int>, cur: int, curVol: int, mx: int, arg: int, v: int)
    requires RunningMax(totals, cur, curVol, mx, arg)
    ensures RunningMax(totals[cur := totals[cur] + v], cur, curVol + v, mx, arg)
  {
  }

  /** At the end the current band is folded in too, and the maximum covers every band. */
  lemma RunningMaxDone(totals: seq<int>, cur: int, curVol: int, mx: int, arg: int, mx': int, arg': int)
    requires RunningMax(totals, cur, curVol, mx, arg)
    requires if curVol > mx then mx' == curVol && arg' == cur else mx' == mx && arg' == arg
    ensures mx' >= 0
    ensures forall i :: 0 <= i < |totals| ==> totals[i] <= mx'
    ensures mx' == 0 || (0 <= arg' < |totals| && totals[arg'] == mx')
  {
  }

  /** One iteration of the loop of `getMaxVisibleBandVolume`: a price whose
      band is later than the current one first closes the current band. */
  lemma RunningMaxStep(book: map<int, Level>, s: seq<int>, w: PriceWindow, k: int,
                       cur: int, curVol: int, mx: int, arg: int,
                       cur': int, curVol': int, mx': int, arg': int)
    requires w.Valid() && 0 <= k < |s| && s[k] in book
    requires cur <= BandIndex(w, s[k]) < w.priceGranularity
    requires RunningMax(BandSums(book, s[..k], w), cur, curVol, mx, arg)
    requires var v := book[s[k]].volume;
      if BandIndex(w, s[k]) > cur then
        cur' == BandIndex(w, s[k]) && curVol' == v &&
        if curVol > mx then mx' == curVol && arg' == cur else mx' == mx && arg' == arg
      else
        cur' == cur && curVol' == curVol + v && mx' == mx && arg' == arg
    ensures RunningMax(BandSums(book, s[..k + 1], w), cur', curVol', mx', arg')
  {
    var t := BandSums(book, s[..k], w);
    var b := BandIndex(w, s[k]);
    var v := book[s[k]].volume;
    BandSumsStep(book, s, k, w, t, b, v);
    if b > cur {
      var m, a := if curVol > mx then curVol else mx, if curVol > mx then cur else arg;
      RunningMaxNext(t, cur, curVol, mx, arg, b, m, a);
      RunningMaxAdd(t, b, 0, m, a, v);
    } else {
      RunningMaxAdd(t, cur, curVol, mx, arg, v);
    }
  }

  /** The loop of `getMaxVisibleBandVolume` over the visible prices in
      ascending order: the band index only grows, so each band's sum is
      complete when the index moves on and is compared with the maximum then. */
  method MaxBandOfSorted(book: map<int, Level>, visiblePrices: seq<int>, w: PriceWindow)
    returns (maxBandVolume: int)
    requires w.Valid() && Increasing(visiblePrices)
    requires forall j :: 0 <= j < |visiblePrices| ==>
      visiblePrices[j] in book && 0 <= BandIndex(w, visiblePrices[j]) < w.priceGranularity
    ensures maxBandVolume >= 0
    ensures forall i :: 0 <= i < w.priceGranularity ==> BandSums(book, visiblePrices, w)[i] <= maxBandVolume
    ensures maxBandVolume == 0 ||
      exists i :: 0 <= i < w.priceGranularity && BandSums(book, visiblePrices, w)[i] == maxBandVolume
  {
    var curBandIndex := 0;
    var curBandVolume := 0;
    maxBandVolume := 0;
    ghost var argMax := 0;
    var k := 0;
    while k < |visiblePrices|
      invariant 0 <= k <= |visiblePrices|
      invariant RunningMax(BandSums(book, visiblePrices[..k], w), curBandIndex, curBandVolume, maxBandVolume, argMax)
      invariant k < |visiblePrices| ==> curBandIndex <= BandIndex(w, visiblePrices[k])
    {
      var price := visiblePrices[k];
      var newBandIndex := BandIndex(w, price);
      if k + 1 < |visiblePrices| {
        BandIndexMonotone(w, price, visiblePrices[k + 1]);
      }
      ghost var cur, curVol, mx, arg := curBandIndex, curBandVolume, maxBandVolume, argMax;
      if newBandIndex > curBandIndex {
        if curBandVolume > maxBandVolume {
          maxBandVolume := curBandVolume;
          argMax := curBandIndex;
        }
        curBandVolume := 0;
        curBandIndex := newBandIndex;
      }
      curBandVolume := curBandVolume + book[price].volume;
      RunningMaxStep(book, visiblePrices, w, k, cur, curVol, mx, arg,
        curBandIndex, curBandVolume, maxBandVolume, argMax);
      k := k + 1;
    }
    ghost var mx, arg := maxBandVolume, argMax;
    if curBandVolume > maxBandVolume {
      maxBandVolume := curBandVolume;
      argMax := curBandIndex;
    }
    assert visiblePrices[..k] == visiblePrices;
    RunningMaxDone(BandSums(book, visiblePrices, w), curBandIndex, curBandVolume, mx, arg, maxBandVolume, argMax);
  }

  /** Best bid and best ask as `getTopOfBook` reports them. */
  datatype TopOfBook = TopOfBook(bestBid: Option<int>, bestAsk: int)

  /** Entry `k` is the first ask of the list. */
  predicate FirstAskAt(entries: seq<(int, Level)>, k: int)
  {
    0 <= k < |entries| && !entries[k].1.isBid &&
    forall j :: 0 <= j < k ==> entries[j].1.isBid
  }

  /** `getTopOfBook`: over the book's entries in key order, the first ask is
      the best ask and the entry before it (if any) the best bid; a book with
      no ask yields nothing. */
  method GetTopOfBook(entries: seq<(int, Level)>) returns (r: Option<TopOfBook>)
    ensures r.None? <==> forall k :: 0 <= k < |entries| ==> entries[k].1.isBid
    ensures r.Some? ==> exists k {:trigger FirstAskAt(entries, k)} :: (FirstAskAt(entries, k) &&
      r.value == TopOfBook(if k == 0 then None else Some(entries[k - 1].0), entries[k].0))
  {
    var i := 0;
    while i < |entries|
      invariant 0 <= i <= |entries|
      invariant forall j :: 0 <= j < i ==> entries[j].1.isBid
    {
      if !entries[i].1.isBid {
        var bestBid := if i == 0 then None else Some(entries[i - 1].0);
        r := Some(TopOfBook(bestBid, entries[i].0));
        assert FirstAskAt(entries, i);
        return;
      }
      i := i + 1;
    }
    r := None;
  }
}
