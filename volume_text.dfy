/** Band volumes as the engine stores them: `toFixed` text. A volume here is
    an integer count of units of `10^-d`, where `d` is the pair's
    `pricePrecision`, and the band and ledger volumes of the source are the
    `toFixed(d)` strings of those numbers. Strings compare by text, so
    `_.maxBy` over band volumes picks the band with the largest text. */
module VolumeText {
  import opened Types
  import opened Markers

  function Pow10(d: nat): (r: nat)
    ensures r >= 1
  {
    if d == 0 then 1 else 10 * Pow10(d - 1)
  }

  /** The `d` lowest decimal digits of `n`, leading zeros kept. */
  function LowDigits(n: nat, d: nat): (s: string)
    ensures |s| == d && AllDigits(s)
  {
    if d == 0 then "" else LowDigits(n / 10, d - 1) + [DigitChar(n % 10)]
  }

  /** The whole part of the volume `n` units. */
  function Whole(n: nat, d: nat): nat
  {
    DivNonNegative(n, Pow10(d));
    n / Pow10(d)
  }

  /** `Number.prototype.toFixed(d)` of the non-negative volume `n` units. */
  function UnsignedFixed(n: nat, d: nat): string
  {
    NatText(Whole(n, d)) + (if d == 0 then "" else "." + LowDigits(n, d))
  }

  /** `toFixed(d)` of the volume `v` units: a `-` before a negative volume. */
  function FixedText(v: int, d: nat): string
  {
    if v < 0 then "-" + UnsignedFixed(-v, d) else UnsignedFixed(v, d)
  }

  /** JavaScript's `a < b` on two strings: the first differing character
      decides, and a proper prefix is below the longer string. */
  predicate TextBelow(a: string, b: string)
  {
    if a == [] then b != []
    else if b == [] then false
    else a[0] < b[0] || (a[0] == b[0] && TextBelow(a[1..], b[1..]))
  }

  lemma {:induction false} TextIrreflexive(a: string)
    ensures !TextBelow(a, a)
  {
    if a != [] {
      TextIrreflexive(a[1..]);
    }
  }

  lemma {:induction false} TextTransitive(a: string, b: string, c: string)
    requires TextBelow(a, b) && TextBelow(b, c)
    ensures TextBelow(a, c)
  {
    if a != [] && a[0] == b[0] && b[0] == c[0] {
      TextTransitive(a[1..], b[1..], c[1..]);
    }
  }

  /** Two different strings are ordered one way or the other. */
  lemma {:induction false} TextTotal(a: string, b: string)
    requires a != b
    ensures TextBelow(a, b) || TextBelow(b, a)
  {
    if a != [] && b != [] && a[0] == b[0] {
      assert a == [a[0]] + a[1..] && b == [b[0]] + b[1..];
      TextTotal(a[1..], b[1..]);
    }
  }

  lemma TextAsymmetric(a: string, b: string)
    requires TextBelow(a, b)
    ensures !TextBelow(b, a)
  {
    if TextBelow(b, a) {
      TextTransitive(a, b, a);
      TextIrreflexive(a);
    }
  }

  /** The `toFixed(d)` texts of a list of volumes. */
  function Texts(vols: seq<int>, d: nat): (r: seq<string>)
    ensures |r| == |vols|
    ensures forall i :: 0 <= i < |vols| ==> r[i] == FixedText(vols[i], d)
  {
    seq(|vols|, i requires 0 <= i < |vols| => FixedText(vols[i], d))
  }

  /** `_.maxBy` over strings: the index of the first text that no other
      text exceeds (lodash keeps the earlier element unless a later one
      compares strictly greater). */
  function MaxByText(texts: seq<string>): (k: nat)
    requires |texts| > 0
    ensures k < |texts|
    ensures forall i :: 0 <= i < |texts| ==> !TextBelow(texts[k], texts[i])
    ensures forall i :: 0 <= i < k ==> TextBelow(texts[i], texts[k])
  {
    if |texts| == 1 then
      TextIrreflexive(texts[0]);
      0
    else
      var init := texts[..|texts| - 1];
      var k := MaxByText(init);
      assert forall i :: 0 <= i < |init| ==> init[i] == texts[i];
      var top, last := texts[k], texts[|texts| - 1];
      if TextBelow(top, last) then
        assert forall i :: 0 <= i < |texts| - 1 ==> TextBelow(texts[i], last) by {
          forall i | 0 <= i < |texts| - 1
            ensures TextBelow(texts[i], last)
          {
            if texts[i] != top {
              TextTotal(texts[i], top);
              TextTransitive(texts[i], top, last);
            }
          }
        }
        forall i | 0 <= i < |texts| - 1
          ensures !TextBelow(last, texts[i])
        {
          TextAsymmetric(texts[i], last);
        }
        TextIrreflexive(last);
        |texts| - 1
      else
        k
  }

  /** The text order is not the numeric order: "9.00" sits above "10.00",
      so `maxBy` over bands holding 9 and 10 (at two decimals) picks the 9. */
  lemma TextOrderMisranks()
    ensures Texts([900, 1000], 2) == ["9.00", "10.00"]
    ensures MaxByText(Texts([900, 1000], 2)) == 0
  {
    assert UnsignedFixed(900, 2) == "9.00" by {
      assert Pow10(2) == 100;
      assert LowDigits(900, 2) == "00" by {
        assert LowDigits(90, 1) == "0";
      }
    }
    assert UnsignedFixed(1000, 2) == "10.00" by {
      assert Pow10(2) == 100;
      assert NatText(10) == "10" by {
        assert NatText(1) == "1";
      }
      assert LowDigits(1000, 2) == "00" by {
        assert LowDigits(100, 1) == "0";
      }
    }
    var texts := Texts([900, 1000], 2);
    assert texts == ["9.00", "10.00"];
    assert texts[..1] == ["9.00"];
    assert !TextBelow("9.00", "10.00");
  }

  /** The value of a digit string is below ten to its length. */
  lemma {:induction false} DigitsValueBound(s: string)
    requires AllDigits(s)
    ensures 0 <= DigitsValue(s) < Pow10(|s|)
    decreases |s|
  {
    if s != [] {
      DigitsValueBound(s[..|s| - 1]);
    }
  }

  /** Reading digits after digits shifts the first part left. */
  lemma {:induction false} DigitsValueConcat(s: string, t: string)
    requires AllDigits(s) && AllDigits(t)
    ensures AllDigits(s + t)
    ensures DigitsValue(s + t) == DigitsValue(s) * Pow10(|t|) + DigitsValue(t)
    decreases |t|
  {
    if t == [] {
      assert s + t == s;
    } else {
      var t', c := t[..|t| - 1], t[|t| - 1];
      var st := s + t;
      assert st[..|st| - 1] == s + t' && st[|st| - 1] == c;
      DigitsValueConcat(s, t');
      var x, p := DigitsValue(s), Pow10(|t'|);
      assert DigitsValue(st) == (x * p + DigitsValue(t')) * 10 + DigitValue(c);
      MulAssoc(x, p, 10);
      assert Pow10(|t|) == p * 10;
    }
  }

  /** For digit strings of one length, the text order is the numeric order. */
  lemma {:induction false} DigitTextOrder(s: string, t: string)
    requires AllDigits(s) && AllDigits(t) && |s| == |t|
    ensures TextBelow(s, t) <==> DigitsValue(s) < DigitsValue(t)
    decreases |s|
  {
    if s != [] {
      var s', t' := s[1..], t[1..];
      assert s == [s[0]] + s' && t == [t[0]] + t';
      DigitsValueConcat([s[0]], s');
      DigitsValueConcat([t[0]], t');
      assert DigitsValue([s[0]]) == DigitValue(s[0]) && DigitsValue([t[0]]) == DigitValue(t[0]);
      DigitsValueBound(s');
      DigitsValueBound(t');
      DigitTextOrder(s', t');
      PlaceOrder(DigitValue(s[0]), DigitsValue(s'), DigitValue(t[0]), DigitsValue(t'), Pow10(|s'|));
    }
  }

  /** Texts that start with parts of one length compare first by those parts. */
  lemma {:induction false} TextConcatOrder(x: string, y: string, x': string, y': string)
    requires |x| == |x'|
    ensures TextBelow(x + y, x' + y') <==> TextBelow(x, x') || (x == x' && TextBelow(y, y'))
    decreases |x|
  {
    if x == [] {
      assert x + y == y && x' + y' == y';
    } else {
      assert (x + y)[1..] == x[1..] + y && (x' + y')[1..] == x'[1..] + y';
      TextConcatOrder(x[1..], y, x'[1..], y');
      if x[0] == x'[0] && x[1..] == x'[1..] {
        assert x == [x[0]] + x[1..] && x' == [x'[0]] + x'[1..];
      }
    }
  }

  lemma MulBounds(p: int, k: int)
    requires p > 0
    ensures k >= 1 ==> p * k >= p
    ensures k <= -1 ==> p * k <= -p
  {
    if k >= 1 {
      assert p * k == p * (k - 1) + p;
    } else if k <= -1 {
      assert p * k == p * (k + 1) - p;
    }
  }

  /** A number written as `x` places of `p` plus a remainder `u` below `p`
      compares by its places first, then by its remainder. */
  lemma PlaceOrder(x: int, u: int, y: int, v: int, p: int)
    requires p > 0 && 0 <= u < p && 0 <= v < p
    ensures p * x + u < p * y + v <==> x < y || (x == y && u < v)
  {
    MulBounds(p, y - x);
    assert p * (y - x) == p * y - p * x;
  }

  lemma DivMod(n: int, p: int)
    requires p > 0
    ensures n == p * (n / p) + n % p && 0 <= n % p < p
  {
  }

  lemma DivNonNegative(n: nat, p: int)
    requires p > 0
    ensures n / p >= 0
  {
    DivMod(n, p);
    MulBounds(p, n / p);
  }

  lemma ModUnique(n: int, p: int, q: int, r: int)
    requires p > 0 && n == p * q + r && 0 <= r < p
    ensures n / p == q && n % p == r
  {
    var q', r' := n / p, n % p;
    DivMod(n, p);
    MulBounds(p, q - q');
    assert p * (q - q') == p * q - p * q';
  }

  lemma MulAssoc(a: int, b: int, c: int)
    ensures a * (b * c) == (a * b) * c
  {
  }

  /** The remainder by `10 p` is the last digit below the remainder of the
      other digits by `p`. */
  lemma ModTen(n: nat, p: int)
    requires p > 0
    ensures n % (10 * p) == 10 * ((n / 10) % p) + n % 10
  {
    var m, c := n / 10, n % 10;
    var q, r := m / p, m % p;
    DivMod(m, p);
    var pq := p * q;
    assert n == 10 * pq + (10 * r + c);
    MulAssoc(10, p, q);
    ModUnique(n, 10 * p, q, 10 * r + c);
  }

  /** The low digits read back as the remainder. */
  lemma {:induction false} LowDigitsValue(n: nat, d: nat)
    ensures DigitsValue(LowDigits(n, d)) == n % Pow10(d)
  {
    if d > 0 {
      var p := Pow10(d - 1);
      assert Pow10(d) == 10 * p;
      LowDigitsValue(n / 10, d - 1);
      var s := LowDigits(n, d);
      assert s[..|s| - 1] == LowDigits(n / 10, d - 1);
      ModTen(n, p);
    }
  }

  /** When two non-negative volumes have whole parts of the same width,
      their `toFixed(d)` texts are ordered as the volumes are. */
  lemma SameWidthOrder(a: nat, b: nat, d: nat)
    requires |NatText(Whole(a, d))| == |NatText(Whole(b, d))|
    ensures TextBelow(FixedText(a, d), FixedText(b, d)) <==> a < b
  {
    var xa, xb := NatText(Whole(a, d)), NatText(Whole(b, d));
    NatTextValue(Whole(a, d));
    NatTextValue(Whole(b, d));
    DigitTextOrder(xa, xb);
    if d == 0 {
      assert FixedText(a, d) == xa && FixedText(b, d) == xb;
    } else {
      FractionOrder(a, b, d);
    }
  }

  lemma FractionOrder(a: nat, b: nat, d: nat)
    requires d > 0 && |NatText(Whole(a, d))| == |NatText(Whole(b, d))|
    requires TextBelow(NatText(Whole(a, d)), NatText(Whole(b, d))) <==> Whole(a, d) < Whole(b, d)
    requires DigitsValue(NatText(Whole(a, d))) == Whole(a, d) && DigitsValue(NatText(Whole(b, d))) == Whole(b, d)
    ensures TextBelow(FixedText(a, d), FixedText(b, d)) <==> a < b
  {
    var p := Pow10(d);
    var xa, xb := NatText(Whole(a, d)), NatText(Whole(b, d));
    var la, lb := LowDigits(a, d), LowDigits(b, d);
    assert FixedText(a, d) == xa + ("." + la) && FixedText(b, d) == xb + ("." + lb);
    LowDigitsValue(a, d);
    LowDigitsValue(b, d);
    DigitTextOrder(la, lb);
    TextConcatOrder(xa, "." + la, xb, "." + lb);
    TextConcatOrder(".", la, ".", lb);
    TextIrreflexive(".");
    DivMod(a, p);
    DivMod(b, p);
    PlaceOrder(a / p, a % p, b / p, b % p, p);
  }

  /** The text a band's volume holds: the blank `'0'`, or the `toFixed(d)`
      text of its volume. (A band that the renderer clamps at zero holds the
      number 0, which `==` compares with a text by value; that is the same
      outcome as comparing `toFixed(d)` of zero, by FixedTextInjective.) */
  function BandText(band: Band, d: nat): string
  {
    if band.blank then "0" else FixedText(band.volume, d)
  }

  /** `toFixed(d)` of an integer count of units names that count alone. */
  lemma UnsignedFixedInjective(a: nat, b: nat, d: nat)
    requires UnsignedFixed(a, d) == UnsignedFixed(b, d)
    ensures a == b
  {
    assert |UnsignedFixed(a, d)| == |NatText(Whole(a, d))| + (if d == 0 then 0 else 1 + d);
    assert |UnsignedFixed(b, d)| == |NatText(Whole(b, d))| + (if d == 0 then 0 else 1 + d);
    SameWidthOrder(a, b, d);
    SameWidthOrder(b, a, d);
    TextIrreflexive(UnsignedFixed(a, d));
  }

  /** A `toFixed` text starts with `-` exactly when the volume is negative. */
  lemma FixedTextSign(v: int, d: nat)
    ensures |FixedText(v, d)| > 0 && (FixedText(v, d)[0] == '-' <==> v < 0)
  {
    if v >= 0 {
      var x := NatText(Whole(v, d));
      assert FixedText(v, d)[0] == x[0] && IsDigit(x[0]);
    }
  }

  /** Two volumes have the same `toFixed(d)` text exactly when they are equal. */
  lemma FixedTextInjective(a: int, b: int, d: nat)
    ensures FixedText(a, d) == FixedText(b, d) <==> a == b
  {
    FixedTextSign(a, d);
    FixedTextSign(b, d);
    if FixedText(a, d) == FixedText(b, d) {
      if a < 0 {
        NegativeFixedInjective(a, b, d);
      } else {
        UnsignedFixedInjective(a, b, d);
      }
    }
  }

  /** Negative volumes: the texts after the sign name the magnitudes. */
  lemma NegativeFixedInjective(a: int, b: int, d: nat)
    requires a < 0 && b < 0 && FixedText(a, d) == FixedText(b, d)
    ensures a == b
  {
    var x, y := UnsignedFixed(-a, d), UnsignedFixed(-b, d);
    assert FixedText(a, d) == "-" + x && FixedText(b, d) == "-" + y;
    assert x == FixedText(a, d)[1..] && y == FixedText(b, d)[1..];
    UnsignedFixedInjective(-a, -b, d);
  }

  /** The `==` of `renderUpdate` between a band's volume and the latest
      recorded maximum (a `toFixed(d)` text): a written band matches exactly
      the equal volume, and a blank band only a maximum of zero printed with
      no decimals. */
  lemma HeldTest(band: Band, latest: int, d: nat)
    ensures BandText(band, d) == FixedText(latest, d) <==>
      if band.blank then d == 0 && latest == 0 else band.volume == latest
  {
    if band.blank {
      if latest == 0 && d == 0 {
        assert Whole(0, 0) == 0;
        assert FixedText(latest, d) == NatText(0) == "0";
      } else if latest < 0 {
        FixedTextSign(latest, d);
      } else if d > 0 {
        assert |FixedText(latest, d)| == |NatText(Whole(latest, d))| + 1 + d;
      } else {
        assert Pow10(0) == 1;
        assert FixedText(latest, d) == NatText(latest);
        NatTextValue(latest);
      }
    } else {
      FixedTextInjective(band.volume, latest, d);
    }
  }

  /** With two decimals a blank band does not match a latest maximum of
      zero (`'0' == "0.00"` is false), while a written band of zero does. */
  lemma BlankMissesZero()
    ensures BandText(Band(0.0, 0.0, 0, true), 2) != FixedText(0, 2)
    ensures BandText(Band(0.0, 0.0, 0, false), 2) == FixedText(0, 2)
  {
    HeldTest(Band(0.0, 0.0, 0, true), 0, 2);
  }
}
