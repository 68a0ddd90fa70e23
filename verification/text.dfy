/** Decimal rendering as the booking forms do it (`n.toString()`, `padStart(2, '0')`),
    and a reader for "H:MM" / "HH:MM" clock strings that states what a rendered slot
    label denotes, in minutes after midnight. */
module Text {
  import opened Wrappers
  import Ordering

  predicate IsDigit(c: char) {
    '0' <= c <= '9'
  }

  predicate AllDigits(s: string) {
    forall i :: 0 <= i < |s| ==> IsDigit(s[i])
  }

  function DigitChar(d: nat): (c: char)
    requires d < 10
    ensures IsDigit(c)
  {
    ('0' as int + d) as char
  }

  function DigitVal(c: char): (d: nat)
    requires IsDigit(c)
    ensures d < 10
  {
    c as int - '0' as int
  }

  /** `n.toString()` for a non-negative integer: no sign, no leading zeros. */
  function Decimal(n: nat): (r: string)
    ensures 1 <= |r|
    ensures AllDigits(r)
    ensures |r| == 1 <==> n < 10
  {
    if n < 10 then [DigitChar(n)] else Decimal(n / 10) + [DigitChar(n % 10)]
  }

  /** `s.padStart(width, fill)`: prefixes copies of `fill` until `s` is `width` long. */
  function PadStart(s: string, width: nat, fill: char): (r: string)
    ensures |r| == if |s| < width then width else |s|
    ensures r[|r| - |s|..] == s
    ensures forall i :: 0 <= i < |r| - |s| ==> r[i] == fill
  {
    if |s| >= width then s else seq(width - |s|, _ => fill) + s
  }

  /** `n.toString().padStart(2, '0')`: a single digit gets a leading zero, longer
      renderings are left alone (see `TwoDigitsIsPadStart`). */
  function TwoDigits(n: nat): string {
    if n < 10 then ['0', DigitChar(n)] else Decimal(n)
  }

  /** `TwoDigits` is the padded rendering the source builds. */
  lemma TwoDigitsIsPadStart(n: nat)
    ensures TwoDigits(n) == PadStart(Decimal(n), 2, '0')
  {
    if n < 10 {
      var p := PadStart(Decimal(n), 2, '0');
      assert p[1..] == Decimal(n) == [DigitChar(n)];
    }
  }

  /** The numeric value of a string of decimal digits, most significant first. */
  function DigitsValue(s: string): nat
    requires AllDigits(s)
  {
    if |s| == 0 then 0 else 10 * DigitsValue(s[..|s| - 1]) + DigitVal(s[|s| - 1])
  }

  /** Minutes after midnight of a clock label: one or more hour digits, a colon, then
      exactly two minute digits. None for anything else. */
  function ClockMinutes(s: string): Option<nat> {
    if |s| < 4 || s[|s| - 3] != ':' then None
    else if AllDigits(s[..|s| - 3]) && AllDigits(s[|s| - 2..])
    then Some(60 * DigitsValue(s[..|s| - 3]) + DigitsValue(s[|s| - 2..]))
    else None
  }

  /** Rendering then reading a number gives it back. */
  lemma {:induction false} DecimalRoundTrip(n: nat)
    ensures DigitsValue(Decimal(n)) == n
  {
    if n >= 10 {
      var d := Decimal(n);
      assert d[..|d| - 1] == Decimal(n / 10);
      DecimalRoundTrip(n / 10);
    }
  }

  /** Below 100, the padded form is exactly the tens digit followed by the units digit. */
  lemma TwoDigitsShape(n: nat)
    requires n < 100
    ensures TwoDigits(n) == [DigitChar(n / 10), DigitChar(n % 10)]
  {
    if n >= 10 {
      assert Decimal(n / 10) == [DigitChar(n / 10)];
    }
  }

  /** The label `<hour digits>:<two minute digits>` denotes hour * 60 + minutes. */
  lemma ClockOfLabel(hour: string, h: nat, minutes: string)
    requires 1 <= |hour| && AllDigits(hour) && DigitsValue(hour) == h
    requires |minutes| == 2 && AllDigits(minutes)
    ensures ClockMinutes(hour + ":" + minutes) == Some(60 * h + DigitsValue(minutes))
  {
    var s := hour + ":" + minutes;
    assert s[..|s| - 3] == hour;
    assert s[|s| - 2..] == minutes;
  }

  /** `toString()` labels such as "9:30" or "17:00". */
  lemma ClockOfDecimal(h: nat, minutes: string)
    requires |minutes| == 2 && AllDigits(minutes)
    ensures ClockMinutes(Decimal(h) + ":" + minutes) == Some(60 * h + DigitsValue(minutes))
  {
    DecimalRoundTrip(h);
    ClockOfLabel(Decimal(h), h, minutes);
  }

  /** Zero-padded labels such as "09:00". */
  lemma ClockOfTwoDigits(h: nat, minutes: string)
    requires h < 100
    requires |minutes| == 2 && AllDigits(minutes)
    ensures ClockMinutes(TwoDigits(h) + ":" + minutes) == Some(60 * h + DigitsValue(minutes))
  {
    TwoDigitsValue(h);
    ClockOfLabel(TwoDigits(h), h, minutes);
  }

  /** A digit character reads back as the digit it renders. */
  lemma DigitRoundTrip(d: nat)
    requires d < 10
    ensures DigitVal(DigitChar(d)) == d
  {
  }

  /** The value of a two-character digit string. */
  lemma DigitsValueOfPair(a: char, b: char)
    requires IsDigit(a) && IsDigit(b)
    ensures AllDigits([a, b]) && DigitsValue([a, b]) == 10 * DigitVal(a) + DigitVal(b)
  {
    assert [a, b][..1] == [a];
    assert [a][..0] == [];
    assert DigitsValue([a]) == DigitVal(a);
  }

  /** Reading a padded two-digit label gives the number back. */
  lemma TwoDigitsValue(h: nat)
    requires h < 100
    ensures |TwoDigits(h)| == 2 && AllDigits(TwoDigits(h)) && DigitsValue(TwoDigits(h)) == h
  {
    var hi, lo := h / 10, h % 10;
    TwoDigitsShape(h);
    DigitRoundTrip(hi);
    DigitRoundTrip(lo);
    DigitsValueOfPair(DigitChar(hi), DigitChar(lo));
    assert h == 10 * hi + lo;
  }

  /** Two strings that differ within their first two characters compare by those. */
  lemma TextLtOnPrefixPair(x: string, y: string)
    requires |x| >= 2 && |y| >= 2
    requires x[0] < y[0] || (x[0] == y[0] && x[1] < y[1])
    ensures Ordering.TextLt(x, y)
  {
    if x[0] == y[0] {
      assert x[1..][0] == x[1] && y[1..][0] == y[1];
    }
  }

  /** Below 100, a smaller number has a smaller tens digit, or the same tens digit and
      a smaller units digit. */
  lemma TwoDigitOrder(a: nat, b: nat)
    requires a < b < 100
    ensures a / 10 < b / 10 || (a / 10 == b / 10 && a % 10 < b % 10)
  {
  }

  /** Digit characters are ordered as their digits. */
  lemma DigitCharOrder(d: nat, e: nat)
    requires d < e < 10
    ensures DigitChar(d) < DigitChar(e)
  {
  }

  /** Zero-padded two-digit labels sort as text in numeric order. */
  lemma TwoDigitsTextOrder(a: nat, b: nat, rest: string)
    requires a < b < 100
    ensures Ordering.TextLt(TwoDigits(a) + rest, TwoDigits(b) + rest)
  {
    var x, y := TwoDigits(a) + rest, TwoDigits(b) + rest;
    assert |x| >= 2 && x[0] == DigitChar(a / 10) && x[1] == DigitChar(a % 10) by {
      TwoDigitsShape(a);
    }
    assert |y| >= 2 && y[0] == DigitChar(b / 10) && y[1] == DigitChar(b % 10) by {
      TwoDigitsShape(b);
    }
    assert x[0] < y[0] || (x[0] == y[0] && x[1] < y[1]) by {
      TwoDigitOrder(a, b);
      if a / 10 < b / 10 {
        DigitCharOrder(a / 10, b / 10);
      } else {
        DigitCharOrder(a % 10, b % 10);
      }
    }
    TextLtOnPrefixPair(x, y);
  }
}
