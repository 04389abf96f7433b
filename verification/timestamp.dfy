/** `CustomTimeEncoder`: a log record's time rendered with the Go layout
    "2006/01/02 - 15:04:05", that is `YYYY/MM/DD - HH:MM:SS` with every
    field zero-padded. A parser for the same layout is its partner. */
module Timestamp {
  import opened Results

  /** The calendar and clock fields of a log record's time, in the
      record's location. */
  datatype DateTime = DateTime(year: nat, month: nat, day: nat, hour: nat, minute: nat, second: nat)

  /** The field ranges a Go `time.Time` always has. */
  predicate Valid(t: DateTime) {
    1 <= t.month <= 12 && 1 <= t.day <= 31 && t.hour < 24 && t.minute < 60 && t.second < 60
  }

  predicate IsDigit(c: char) {
    '0' <= c <= '9'
  }

  predicate AllDigits(s: string) {
    forall i :: 0 <= i < |s| ==> IsDigit(s[i])
  }

  function DigitChar(d: nat): (c: char)
    requires d < 10
    ensures IsDigit(c)
  {
    ('0' as int + d) as char
  }

  function DigitValue(c: char): (d: nat)
    requires IsDigit(c)
    ensures d < 10
  {
    c as int - '0' as int
  }

  function Pow10(k: nat): (p: nat)
    ensures p >= 1
  {
    if k == 0 then 1 else 10 * Pow10(k - 1)
  }

  /** The decimal digits of `n`, most significant first, without leading
      zeros. */
  function Decimal(n: nat): (r: string)
    ensures 1 <= |r|
    ensures AllDigits(r)
  {
    if n < 10 then [DigitChar(n)] else Decimal(n / 10) + [DigitChar(n % 10)]
  }

  /** The value of a string of decimal digits. */
  function ParseDecimal(s: string): nat
    requires AllDigits(s)
  {
    if s == [] then 0 else ParseDecimal(s[..|s| - 1]) * 10 + DigitValue(s[|s| - 1])
  }

  function Zeros(k: nat): (r: string)
    ensures |r| == k && AllDigits(r)
    ensures forall i :: 0 <= i < k ==> r[i] == '0'
  {
    seq(k, i => '0')
  }

  /** Parsing undoes printing. */
  lemma {:induction false} ParseDecimalOfDecimal(n: nat)
    ensures ParseDecimal(Decimal(n)) == n
  {
    if n >= 10 {
      ParseDecimalOfDecimal(n / 10);
      var d := Decimal(n);
      assert d[..|d| - 1] == Decimal(n / 10);
    }
  }

  /** A number below 10^k has at most k digits. */
  lemma {:induction false} DecimalLength(n: nat, k: nat)
    requires 1 <= k && n < Pow10(k)
    ensures |Decimal(n)| <= k
  {
    if n >= 10 {
      assert k >= 2;
      DecimalLength(n / 10, k - 1);
    }
  }

  /** Leading zeros do not change a number's value. */
  lemma {:induction false} LeadingZeros(k: nat, s: string)
    requires AllDigits(s)
    ensures ParseDecimal(Zeros(k) + s) == ParseDecimal(s)
  {
    if s == [] {
      assert Zeros(k) + s == Zeros(k);
      AllZeros(k);
    } else {
      var t := Zeros(k) + s;
      assert t[..|t| - 1] == Zeros(k) + s[..|s| - 1];
      LeadingZeros(k, s[..|s| - 1]);
    }
  }

  lemma {:induction false} AllZeros(k: nat)
    ensures ParseDecimal(Zeros(k)) == 0
  {
    if k > 0 {
      assert Zeros(k)[..k - 1] == Zeros(k - 1);
      AllZeros(k - 1);
    }
  }

  /** Go's `appendInt(b, n, width)` for a non-negative `n`: the decimal
      digits of `n` left-padded with '0' to at least `width` characters. */
  function ZeroPad(n: nat, width: nat): (r: string)
    ensures AllDigits(r)
    ensures ParseDecimal(r) == n
    ensures 1 <= width && n < Pow10(width) ==> |r| == width
    ensures n >= Pow10(width) ==> r == Decimal(n)
  {
    var d := Decimal(n);
    ParseDecimalOfDecimal(n);
    DecimalWidth(n, width);
    if |d| < width then
      LeadingZeros(width - |d|, d);
      Zeros(width - |d|) + d
    else d
  }

  lemma DecimalWidth(n: nat, width: nat)
    ensures 1 <= width && n < Pow10(width) ==> |Decimal(n)| <= width
    ensures n >= Pow10(width) ==> |Decimal(n)| > width
  {
    if 1 <= width && n < Pow10(width) {
      DecimalLength(n, width);
    }
    if n >= Pow10(width) {
      LongDecimal(n, width);
    }
  }

  /** A number of at least 10^k has more than k digits. */
  lemma {:induction false} LongDecimal(n: nat, k: nat)
    requires n >= Pow10(k)
    ensures |Decimal(n)| > k
  {
    if k > 0 {
      assert n >= 10;
      LongDecimal(n / 10, k - 1);
    }
  }

  /** The reference layout of `CustomTimeEncoder`, in Go's notation. */
  const Layout := "2006/01/02 - 15:04:05"

  /** `CustomTimeEncoder`: the record time rendered as
      `YYYY/MM/DD - HH:MM:SS`. For four-digit years the result has the
      layout's shape: a digit wherever the layout has one, and the layout's
      own separators everywhere else. */
  function CustomTimeEncoder(t: DateTime): (s: string)
    requires Valid(t)
    ensures t.year < 10000 ==> |s| == |Layout|
    ensures t.year < 10000 ==> forall i :: 0 <= i < |s| ==>
      (IsDigit(Layout[i]) ==> IsDigit(s[i])) && (!IsDigit(Layout[i]) ==> s[i] == Layout[i])
  {
    var y, mo, d := ZeroPad(t.year, 4), ZeroPad(t.month, 2), ZeroPad(t.day, 2);
    var h, mi, se := ZeroPad(t.hour, 2), ZeroPad(t.minute, 2), ZeroPad(t.second, 2);
    var s := y + "/" + mo + "/" + d + " - " + h + ":" + mi + ":" + se;
    LayoutShape(y, mo, d, h, mi, se);
    s
  }

  /** Six fields of the right widths, joined with the layout's separators,
      have the layout's shape. */
  lemma LayoutShape(y: string, mo: string, d: string, h: string, mi: string, se: string)
    requires AllDigits(y) && AllDigits(mo) && AllDigits(d) && AllDigits(h) && AllDigits(mi) && AllDigits(se)
    requires |mo| == 2 && |d| == 2 && |h| == 2 && |mi| == 2 && |se| == 2
    ensures var s := y + "/" + mo + "/" + d + " - " + h + ":" + mi + ":" + se;
      |y| == 4 ==> |s| == |Layout| && forall i :: 0 <= i < |s| ==>
        (IsDigit(Layout[i]) ==> IsDigit(s[i])) && (!IsDigit(Layout[i]) ==> s[i] == Layout[i])
  {
    var s := y + "/" + mo + "/" + d + " - " + h + ":" + mi + ":" + se;
    if |y| == 4 {
      forall i | 0 <= i < |s|
        ensures (IsDigit(Layout[i]) ==> IsDigit(s[i])) && (!IsDigit(Layout[i]) ==> s[i] == Layout[i])
      {
        if i < 4 { assert s[i] == y[i]; }
        else if i < 5 { }
        else if i < 7 { assert s[i] == mo[i - 5]; }
        else if i < 8 { }
        else if i < 10 { assert s[i] == d[i - 8]; }
        else if i < 13 { }
        else if i < 15 { assert s[i] == h[i - 13]; }
        else if i < 16 { }
        else if i < 18 { assert s[i] == mi[i - 16]; }
        else if i < 19 { }
        else { assert s[i] == se[i - 19]; }
      }
    }
  }

  /** Reads a string of the layout's shape back into its fields. */
  function ParseTimestamp(s: string): Option<DateTime> {
    if |s| == |Layout| && s[4] == '/' && s[7] == '/' && s[10..13] == " - " && s[15] == ':' && s[18] == ':'
       && AllDigits(s[0..4]) && AllDigits(s[5..7]) && AllDigits(s[8..10])
       && AllDigits(s[13..15]) && AllDigits(s[16..18]) && AllDigits(s[19..21])
    then
      Some(DateTime(
        ParseDecimal(s[0..4]), ParseDecimal(s[5..7]), ParseDecimal(s[8..10]),
        ParseDecimal(s[13..15]), ParseDecimal(s[16..18]), ParseDecimal(s[19..21])))
    else None
  }

  /** Reading back six fields of the right widths joined with the
      layout's separators gives their values. */
  lemma ParseJoined(y: string, mo: string, d: string, h: string, mi: string, se: string)
    requires AllDigits(y) && AllDigits(mo) && AllDigits(d) && AllDigits(h) && AllDigits(mi) && AllDigits(se)
    requires |y| == 4 && |mo| == 2 && |d| == 2 && |h| == 2 && |mi| == 2 && |se| == 2
    ensures ParseTimestamp(y + "/" + mo + "/" + d + " - " + h + ":" + mi + ":" + se) ==
      Some(DateTime(ParseDecimal(y), ParseDecimal(mo), ParseDecimal(d), ParseDecimal(h), ParseDecimal(mi), ParseDecimal(se)))
  {
    var s := y + "/" + mo + "/" + d + " - " + h + ":" + mi + ":" + se;
    JoinedSlices(y, mo, d, h, mi, se);
    assert AllDigits(s[0..4]) && AllDigits(s[5..7]) && AllDigits(s[8..10]);
    assert AllDigits(s[13..15]) && AllDigits(s[16..18]) && AllDigits(s[19..21]);
  }

  /** Where each field and separator sits in the joined string. */
  lemma JoinedSlices(y: string, mo: string, d: string, h: string, mi: string, se: string)
    requires |y| == 4 && |mo| == 2 && |d| == 2 && |h| == 2 && |mi| == 2 && |se| == 2
    ensures var s := y + "/" + mo + "/" + d + " - " + h + ":" + mi + ":" + se;
      && |s| == |Layout|
      && s[0..4] == y && s[4] == '/' && s[5..7] == mo && s[7] == '/' && s[8..10] == d
      && s[10..13] == " - " && s[13..15] == h && s[15] == ':' && s[16..18] == mi
      && s[18] == ':' && s[19..21] == se
  {
  }

  /** Rendering a time with a four-digit year and reading it back gives the
      same time: every field is zero-padded to a fixed width, so none is
      lost or shifted. */
  lemma TimestampRoundTrip(t: DateTime)
    requires Valid(t) && t.year < 10000
    ensures ParseTimestamp(CustomTimeEncoder(t)) == Some(t)
  {
    ParseJoined(ZeroPad(t.year, 4), ZeroPad(t.month, 2), ZeroPad(t.day, 2),
      ZeroPad(t.hour, 2), ZeroPad(t.minute, 2), ZeroPad(t.second, 2));
  }
}
