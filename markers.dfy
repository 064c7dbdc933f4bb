/** Trade-marker names. A marker circle is named `trade-<timestamp>_<price>`;
    the re-layout code reads the pair back by splitting the name on `-` and
    then on `_`, so the name is the only record of where a marker belongs. */
module Markers {
  import opened Types

  /** The decimal digit character of `d`. */
  function DigitChar(d: int): char
    requires 0 <= d < 10
  {
    "0123456789"[d]
  }

  predicate IsDigit(c: char)
  {
    '0' <= c <= '9'
  }

  function DigitValue(c: char): int
    requires IsDigit(c)
  {
    c as int - '0' as int
  }

  predicate AllDigits(s: string)
  {
    forall k :: 0 <= k < |s| ==> IsDigit(s[k])
  }

  /** Decimal text of a natural number, as JavaScript prints an integer. */
  function NatText(n: nat): (s: string)
    ensures |s| >= 1 && AllDigits(s)
    decreases n
  {
    if n < 10 then [DigitChar(n)] else NatText(n / 10) + [DigitChar(n % 10)]
  }

  /** Decimal text of an integer: a leading `-` for negative numbers. */
  function IntText(n: int): string
  {
    if n < 0 then "-" + NatText(-n) else NatText(n)
  }

  /** The value of a digit string; the empty string is worth 0, as
      JavaScript's `+""` is. */
  function DigitsValue(s: string): int
    requires AllDigits(s)
  {
    if s == [] then 0 else DigitsValue(s[..|s| - 1]) * 10 + DigitValue(s[|s| - 1])
  }

  /** Unary `+` on a string: a digit string becomes its value, anything else
      is `NaN` (None). */
  function ToNumber(s: string): Option<int>
  {
    if AllDigits(s) then Some(DigitsValue(s)) else None
  }

  /** The longest prefix of digits. */
  function DigitPrefix(s: string): (p: string)
    ensures AllDigits(p) && |p| <= |s| && p == s[..|p|]
    ensures |p| < |s| ==> !IsDigit(s[|p|])
  {
    if s == [] || !IsDigit(s[0]) then [] else [s[0]] + DigitPrefix(s[1..])
  }

  /** `parseInt` on a string without sign or blanks: the value of its leading
      digits, `NaN` (None) when it has none. */
  function ParseInt(s: string): Option<int>
  {
    var p := DigitPrefix(s);
    if p == [] then None else Some(DigitsValue(p))
  }

  /** `String.prototype.split` with a one-character separator. */
  function Split(s: string, sep: char): (r: seq<string>)
    ensures |r| >= 1
    ensures forall k :: 0 <= k < |r| ==> sep !in r[k]
  {
    if s == [] then [""]
    else
      var rest := Split(s[1..], sep);
      if s[0] == sep then [""] + rest else [[s[0]] + rest[0]] + rest[1..]
  }

  /** `Array.prototype.join` with a one-character separator. */
  function Join(parts: seq<string>, sep: char): string
  {
    if parts == [] then "" else if |parts| == 1 then parts[0] else parts[0] + [sep] + Join(parts[1..], sep)
  }

  /** The name a trade marker is given when it is drawn. */
  function MarkerName(timestamp: int, price: int): string
  {
    "trade-" + IntText(timestamp) + "_" + IntText(price)
  }

  /** `s` has `t` as a substring (lodash `_.includes` on strings). */
  predicate Contains(s: string, t: string)
  {
    exists k :: 0 <= k <= |s| - |t| && OccursAt(s, t, k)
  }

  /** `t` occurs in `s` starting at position `k`. */
  predicate OccursAt(s: string, t: string, k: int)
  {
    0 <= k <= |s| - |t| && s[k..k + |t|] == t
  }

  /** The items the trade-marker queries select. */
  predicate IsTradeMarker(item: Item)
  {
    Contains(item.name, "trade-")
  }

  /** `getTradeNotifications`: the items of the layer whose name contains
      `trade-`, in layer order. */
  function GetTradeNotifications(layer: seq<Item>): (r: seq<Item>)
    ensures forall item :: item in r <==> item in layer && IsTradeMarker(item)
    ensures |r| <= |layer|
  {
    if layer == [] then []
    else
      var rest := GetTradeNotifications(layer[1..]);
      assert forall item :: item in layer <==> item == layer[0] || item in layer[1..] by {
        assert layer == [layer[0]] + layer[1..];
      }
      if IsTradeMarker(layer[0]) then [layer[0]] + rest else rest
  }

  /** The (timestamp, price) the current re-layout reads from a marker name:
      `name.split('-')[1].split('_')`, the timestamp by unary `+` and the
      price coerced the same way when `gpp` computes with it. */
  function DecodeMarker(name: string): Option<(int, int)>
  {
    var parts := Split(name, '-');
    if |parts| < 2 then None
    else
      var fields := Split(parts[1], '_');
      if |fields| < 2 then None
      else
        match (ToNumber(fields[0]), ToNumber(fields[1]))
        case (Some(t), Some(p)) => Some((t, p))
        case _ => None
  }

  /** The older re-layout: the same split, the timestamp read by `parseInt`. */
  function DecodeMarkerParseInt(name: string): Option<(int, int)>
  {
    var parts := Split(name, '-');
    if |parts| < 2 then None
    else
      var fields := Split(parts[1], '_');
      if |fields| < 2 then None
      else
        match (ParseInt(fields[0]), ToNumber(fields[1]))
        case (Some(t), Some(p)) => Some((t, p))
        case _ => None
  }

  /** Splitting and joining back on the same separator gives the string back. */
  lemma {:induction false} SplitJoin(s: string, sep: char)
    ensures Join(Split(s, sep), sep) == s
    decreases |s|
  {
    if s != [] {
      var rest := Split(s[1..], sep);
      SplitJoin(s[1..], sep);
      if s[0] == sep {
        assert Split(s, sep) == [""] + rest;
        assert s == [s[0]] + s[1..];
      } else {
        var r := Split(s, sep);
        assert r == [[s[0]] + rest[0]] + rest[1..];
        if |rest| == 1 {
          assert Join(rest, sep) == rest[0];
        } else {
          assert Join(rest, sep) == rest[0] + [sep] + Join(rest[1..], sep);
          assert r[1..] == rest[1..];
        }
        assert s == [s[0]] + s[1..];
      }
    }
  }

  /** A string without the separator is its own single piece. */
  lemma {:induction false} SplitNoSep(s: string, sep: char)
    requires sep !in s
    ensures Split(s, sep) == [s]
    decreases |s|
  {
    if s != [] {
      assert sep !in s[1..] by {
        assert forall k :: 0 <= k < |s[1..]| ==> s[1..][k] == s[k + 1];
      }
      SplitNoSep(s[1..], sep);
      assert [s[0]] + s[1..] == s;
    }
  }

  /** A first piece without the separator splits off as the first piece. */
  lemma {:induction false} SplitAt(a: string, sep: char, b: string)
    requires sep !in a
    ensures Split(a + [sep] + b, sep) == [a] + Split(b, sep)
    decreases |a|
  {
    var s := a + [sep] + b;
    if a == [] {
      assert s == [sep] + b;
      assert s[1..] == b;
    } else {
      assert s[1..] == a[1..] + [sep] + b;
      assert sep !in a[1..] by {
        assert forall k :: 0 <= k < |a[1..]| ==> a[1..][k] == a[k + 1];
      }
      SplitAt(a[1..], sep, b);
      assert [a[0]] + a[1..] == a;
    }
  }

  lemma NoSeparatorInDigits(s: string, c: char)
    requires AllDigits(s) && !IsDigit(c)
    ensures c !in s
  {
  }

  /** The digit text of `n` reads back as `n`. */
  lemma {:induction false} NatTextValue(n: nat)
    ensures DigitsValue(NatText(n)) == n
    decreases n
  {
    if n >= 10 {
      NatTextValue(n / 10);
      var s := NatText(n);
      assert s[..|s| - 1] == NatText(n / 10);
    }
  }

  /** A digit string is its own digit prefix. */
  lemma {:induction false} DigitPrefixAll(s: string)
    requires AllDigits(s)
    ensures DigitPrefix(s) == s
    decreases |s|
  {
    if s != [] {
      DigitPrefixAll(s[1..]);
      assert [s[0]] + s[1..] == s;
    }
  }

  /** The pieces of the name of a marker at a non-negative time and price. */
  lemma MarkerSplit(timestamp: nat, price: nat)
    ensures var parts := Split(MarkerName(timestamp, price), '-');
      |parts| == 2 && parts[1] == NatText(timestamp) + "_" + NatText(price)
    ensures Split(NatText(timestamp) + "_" + NatText(price), '_') == [NatText(timestamp), NatText(price)]
  {
    var ts, ps := NatText(timestamp), NatText(price);
    NoSeparatorInDigits(ts, '-');
    NoSeparatorInDigits(ps, '-');
    NoSeparatorInDigits(ts, '_');
    NoSeparatorInDigits(ps, '_');
    var tail := ts + "_" + ps;
    assert '-' !in tail;
    assert MarkerName(timestamp, price) == "trade" + ['-'] + tail;
    SplitAt("trade", '-', tail);
    SplitNoSep(tail, '-');
    assert tail == ts + ['_'] + ps;
    SplitAt(ts, '_', ps);
    SplitNoSep(ps, '_');
  }

  /** The current re-layout reads a marker drawn at a non-negative time and
      price back to that time and price. */
  lemma MarkerRoundTrip(timestamp: int, price: int)
    requires timestamp >= 0 && price >= 0
    ensures DecodeMarker(MarkerName(timestamp, price)) == Some((timestamp, price))
  {
    MarkerSplit(timestamp, price);
    NatTextValue(timestamp);
    NatTextValue(price);
  }

  /** So does the older, `parseInt`-based re-layout. */
  lemma MarkerRoundTripParseInt(timestamp: int, price: int)
    requires timestamp >= 0 && price >= 0
    ensures DecodeMarkerParseInt(MarkerName(timestamp, price)) == Some((timestamp, price))
  {
    MarkerSplit(timestamp, price);
    NatTextValue(timestamp);
    NatTextValue(price);
    DigitPrefixAll(NatText(timestamp));
  }

  /** A negative price carries a `-` into the name, which the split on `-`
      cuts: the marker of price -3 at time 5 is read back at price 0. */
  lemma NegativePriceMisread()
    ensures DecodeMarker(MarkerName(5, -3)) == Some((5, 0))
  {
    NegativeNameParts();
    assert "5_" == "5" + ['_'] + "";
    SplitAt("5", '_', "");
    assert Split("5_", '_') == ["5", ""];
    assert DigitsValue("5") == 5 by {
      assert "5"[..0] == "";
    }
  }

  /** The name of the marker of price -3 at time 5 splits on `-` into three pieces. */
  lemma NegativeNameParts()
    ensures Split(MarkerName(5, -3), '-') == ["trade", "5_", "3"]
  {
    assert NatText(5) == "5" && NatText(3) == "3";
    assert MarkerName(5, -3) == "trade" + ['-'] + ("5_" + ['-'] + "3");
    SplitAt("trade", '-', "5_" + ['-'] + "3");
    SplitAt("5_", '-', "3");
    SplitNoSep("3", '-');
  }

  /** Every marker name is selected by the trade-marker query. */
  lemma MarkerNameSelected(timestamp: int, price: int, position: Point, radius: real)
    ensures IsTradeMarker(Item(MarkerName(timestamp, price), position, radius))
  {
    var name := MarkerName(timestamp, price);
    assert OccursAt(name, "trade-", 0);
  }
}
