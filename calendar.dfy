/** Calendar dates as `datetime.now()` yields them, and their
    `strftime("%Y-%m-%d")` rendering. The clock itself is not modelled: a
    date is always given as input. */
module Calendar {
  import opened Wrappers
  import Text

  datatype Date = Date(year: int, month: int, day: int)

  predicate IsLeapYear(y: int) {
    y % 4 == 0 && (y % 100 != 0 || y % 400 == 0)
  }

  function DaysInMonth(y: int, m: int): int
    requires 1 <= m <= 12
  {
    if m == 2 then (if IsLeapYear(y) then 29 else 28)
    else if m == 4 || m == 6 || m == 9 || m == 11 then 30
    else 31
  }

  /** A real calendar date with a four-digit year. */
  predicate Valid(d: Date) {
    && 1000 <= d.year <= 9999
    && 1 <= d.month <= 12
    && 1 <= d.day <= DaysInMonth(d.year, d.month)
  }

  function Pow10(n: nat): nat {
    if n == 0 then 1 else 10 * Pow10(n - 1)
  }

  predicate IsDigit(c: char) {
    '0' <= c <= '9'
  }

  predicate AllDigits(s: string) {
    forall i :: 0 <= i < |s| ==> IsDigit(s[i])
  }

  /** The decimal rendering of `n`, zero-padded to `width` digits (`%0<width>d`). */
  function Digits(n: nat, width: nat): (s: string)
    requires n < Pow10(width)
    ensures |s| == width && AllDigits(s)
    decreases width
  {
    if width == 0 then ""
    else Digits(n / 10, width - 1) + [('0' as int + n % 10) as char]
  }

  /** The number a string of decimal digits denotes. */
  function DigitsValue(s: string): nat
    requires AllDigits(s)
  {
    if s == [] then 0
    else 10 * DigitsValue(s[..|s| - 1]) + (s[|s| - 1] as int - '0' as int)
  }

  lemma {:induction false} DigitsValueBound(s: string)
    requires AllDigits(s)
    ensures DigitsValue(s) < Pow10(|s|)
  {
    if s != [] {
      DigitsValueBound(s[..|s| - 1]);
    }
  }

  /** Reading back a zero-padded rendering gives the number. */
  lemma {:induction false} DigitsRoundTrip(n: nat, width: nat)
    requires n < Pow10(width)
    ensures DigitsValue(Digits(n, width)) == n
    decreases width
  {
    if width > 0 {
      var s := Digits(n, width);
      DigitsRoundTrip(n / 10, width - 1);
      assert s[..|s| - 1] == Digits(n / 10, width - 1);
    }
  }

  /** Rendering the value of a digit string at its own width gives the string. */
  lemma {:induction false} DigitsOfValue(s: string)
    requires AllDigits(s)
    ensures DigitsValue(s) < Pow10(|s|) && Digits(DigitsValue(s), |s|) == s
  {
    DigitsValueBound(s);
    if s != [] {
      var p := s[..|s| - 1];
      DigitsOfValue(p);
      var v := DigitsValue(s);
      assert v / 10 == DigitsValue(p) && v % 10 == s[|s| - 1] as int - '0' as int;
      assert p + [s[|s| - 1]] == s;
    }
  }

  /** `d.strftime("%Y-%m-%d")`. */
  function IsoDate(d: Date): (s: string)
    requires Valid(d)
    ensures |s| == 10 && s[4] == '-' && s[7] == '-'
  {
    Digits(d.year, 4) + "-" + Digits(d.month, 2) + "-" + Digits(d.day, 2)
  }

  /** The inverse of `IsoDate`: the date a `YYYY-MM-DD` string names, if any. */
  function ParseIsoDate(s: string): Option<Date> {
    if |s| == 10 && s[4] == '-' && s[7] == '-'
       && AllDigits(s[..4]) && AllDigits(s[5..7]) && AllDigits(s[8..])
    then
      var d := Date(DigitsValue(s[..4]), DigitsValue(s[5..7]), DigitsValue(s[8..]));
      if Valid(d) then Some(d) else None
    else None
  }

  /** The rendering of a valid date parses back to that date. */
  lemma ParseFormatted(d: Date)
    requires Valid(d)
    ensures ParseIsoDate(IsoDate(d)) == Some(d)
  {
    var s := IsoDate(d);
    assert s[..4] == Digits(d.year, 4);
    assert s[5..7] == Digits(d.month, 2);
    assert s[8..] == Digits(d.day, 2);
    DigitsRoundTrip(d.year, 4);
    DigitsRoundTrip(d.month, 2);
    DigitsRoundTrip(d.day, 2);
  }

  /** Every string that parses is the rendering of the date it parses to. */
  lemma FormattedParse(s: string)
    requires ParseIsoDate(s).Some?
    ensures Valid(ParseIsoDate(s).value) && IsoDate(ParseIsoDate(s).value) == s
  {
    DigitsOfValue(s[..4]);
    DigitsOfValue(s[5..7]);
    DigitsOfValue(s[8..]);
    assert s == s[..4] + "-" + s[5..7] + "-" + s[8..];
  }

  /** Distinct dates are rendered as distinct strings. */
  lemma IsoDateInjective(a: Date, b: Date)
    requires Valid(a) && Valid(b)
    ensures IsoDate(a) == IsoDate(b) <==> a == b
  {
    if IsoDate(a) == IsoDate(b) {
      ParseFormatted(a);
      ParseFormatted(b);
    }
  }

  /** Chronological order. */
  predicate Before(a: Date, b: Date) {
    || a.year < b.year
    || (a.year == b.year && (a.month < b.month || (a.month == b.month && a.day < b.day)))
  }

  /** Zero-padded renderings of equal width compare as the numbers do. */
  lemma {:induction false} DigitsOrder(n: nat, m: nat, width: nat)
    requires n < Pow10(width) && m < Pow10(width)
    ensures Text.LexLess(Digits(n, width), Digits(m, width)) <==> n < m
    decreases width
  {
    if width > 0 {
      var hn, hm := Digits(n / 10, width - 1), Digits(m / 10, width - 1);
      var ln, lm := [('0' as int + n % 10) as char], [('0' as int + m % 10) as char];
      DigitsOrder(n / 10, m / 10, width - 1);
      Text.LexLessAppend(hn, ln, hm, lm);
      DigitsRoundTrip(n / 10, width - 1);
      DigitsRoundTrip(m / 10, width - 1);
      assert n == 10 * (n / 10) + n % 10 && m == 10 * (m / 10) + m % 10;
      assert Text.LexLess(ln, lm) <==> n % 10 < m % 10;
    }
  }

  /** The rendered dates compare as strings exactly as the dates compare in
      time, so the greatest `YYYY-MM-DD` string is the latest date. */
  lemma IsoDateOrder(a: Date, b: Date)
    requires Valid(a) && Valid(b)
    ensures Text.LexLess(IsoDate(a), IsoDate(b)) <==> Before(a, b)
  {
    var ya, ma, da := Digits(a.year, 4), Digits(a.month, 2), Digits(a.day, 2);
    var yb, mb, db := Digits(b.year, 4), Digits(b.month, 2), Digits(b.day, 2);
    assert IsoDate(a) == ya + ("-" + (ma + ("-" + da)));
    assert IsoDate(b) == yb + ("-" + (mb + ("-" + db)));
    Text.LexLessIrreflexive("-");
    Text.LexLessAppend(ya, "-" + (ma + ("-" + da)), yb, "-" + (mb + ("-" + db)));
    Text.LexLessAppend("-", ma + ("-" + da), "-", mb + ("-" + db));
    Text.LexLessAppend(ma, "-" + da, mb, "-" + db);
    Text.LexLessAppend("-", da, "-", db);
    DigitsOrder(a.year, b.year, 4);
    DigitsOrder(a.month, b.month, 2);
    DigitsOrder(a.day, b.day, 2);
    DigitsRoundTrip(a.year, 4);
    DigitsRoundTrip(b.year, 4);
    DigitsRoundTrip(a.month, 2);
    DigitsRoundTrip(b.month, 2);
  }
}
