/** The cache-buster token: the clock reading taken when the request is built,
    formatted with the reference layout "20060102150405" of Go's time package
    (year, month, day, 24-hour hour, minute, second, no separators). */
module CacheBusting {

  /** A broken-down wall-clock reading as the time library reports it. */
  datatype Clock = Clock(year: int, month: nat, day: nat, hour: nat, minute: nat, second: nat)

  /** The ranges the time library keeps every field but the year in. */
  predicate ValidClock(c: Clock)
  {
    1 <= c.month <= 12 && 1 <= c.day <= 31 && c.hour < 24 && c.minute < 60 && c.second < 60
  }

  function Pow10(k: nat): (p: nat)
    ensures p >= 1
  {
    if k == 0 then 1 else 10 * Pow10(k - 1)
  }

  lemma {:induction false} Pow10Monotone(j: nat, k: nat)
    requires j <= k
    ensures Pow10(j) <= Pow10(k)
  {
    if j < k {
      Pow10Monotone(j, k - 1);
    }
  }

  predicate IsDigit(ch: char)
  {
    '0' <= ch <= '9'
  }

  predicate AllDigits(s: string)
  {
    forall i :: 0 <= i < |s| ==> IsDigit(s[i])
  }

  function Digit(d: nat): (ch: char)
    requires d < 10
    ensures IsDigit(ch)
  {
    ('0' as int + d) as char
  }

  function DigitValue(ch: char): nat
    requires IsDigit(ch)
  {
    ch as int - '0' as int
  }

  /** The last `width` decimal digits of n, most significant first. */
  function Fixed(n: nat, width: nat): (s: string)
    ensures |s| == width && AllDigits(s)
  {
    if width == 0 then "" else Fixed(n / 10, width - 1) + [Digit(n % 10)]
  }

  /** How many decimal digits n has (zero has one). */
  function DigitCount(n: nat): (k: nat)
    ensures 1 <= k && n < Pow10(k)
    ensures 1 < k ==> Pow10(k - 1) <= n
  {
    if n < 10 then 1 else 1 + DigitCount(n / 10)
  }

  /** A number at least 10^width has more than `width` digits. */
  lemma DigitCountExceeds(n: nat, width: nat)
    requires Pow10(width) <= n
    ensures width < DigitCount(n)
  {
    if DigitCount(n) <= width {
      Pow10Monotone(DigitCount(n), width);
    }
  }

  /** Decimal text of n zero-padded on the left to `width` digits; a number
      too wide for the field is written out in full. */
  function Padded(n: nat, width: nat): (s: string)
    ensures |s| >= width && AllDigits(s)
    ensures Value(s) == n
    ensures |s| == width <==> n < Pow10(width)
    ensures n >= Pow10(width) ==> |s| == DigitCount(n)
  {
    if n < Pow10(width) then FixedValue(n, width); Fixed(n, width)
    else DigitCountExceeds(n, width); FixedValue(n, DigitCount(n)); Fixed(n, DigitCount(n))
  }

  /** The year field: a sign for years before zero, then at least four digits
      spelling the magnitude of the year. */
  function FormatYear(year: int): (s: string)
    ensures |s| >= 4
    ensures year >= 0 ==> AllDigits(s) && Value(s) == year
    ensures year < 0 ==> |s| >= 5 && s[0] == '-' && AllDigits(s[1..]) && Value(s[1..]) == -year
  {
    if year < 0 then "-" + Padded(-year, 4) else Padded(year, 4)
  }

  /** The token the request carries as `cachebuster`: never shorter than the
      fourteen characters of the layout, all digits unless the year is negative. */
  function CacheBuster(c: Clock): (token: string)
    ensures |token| >= 14
    ensures c.year >= 0 <==> AllDigits(token)
  {
    var year := FormatYear(c.year);
    var token := year + Padded(c.month, 2) + Padded(c.day, 2)
      + Padded(c.hour, 2) + Padded(c.minute, 2) + Padded(c.second, 2);
    assert token[0] == year[0];
    token
  }

  /** Decimal value of a digit string. */
  function Value(s: string): nat
    requires AllDigits(s)
  {
    if s == [] then 0 else Value(s[..|s| - 1]) * 10 + DigitValue(s[|s| - 1])
  }

  /** Reads a 14-digit token back into the clock reading it was made from. */
  function ParseCacheBuster(token: string): Clock
    requires |token| == 14 && AllDigits(token)
  {
    Clock(Value(token[..4]), Value(token[4..6]), Value(token[6..8]),
          Value(token[8..10]), Value(token[10..12]), Value(token[12..]))
  }

  lemma {:induction false} FixedValue(n: nat, width: nat)
    requires n < Pow10(width)
    ensures Value(Fixed(n, width)) == n
  {
    if width > 0 {
      FixedValue(n / 10, width - 1);
      var s := Fixed(n, width);
      assert s[..|s| - 1] == Fixed(n / 10, width - 1);
      assert DigitValue(Digit(n % 10)) == n % 10;
    }
  }

  /** The token is exactly fourteen characters precisely for years 0 through
      9999; other years widen the year field or give it a sign. */
  lemma CacheBusterLength(c: Clock)
    requires ValidClock(c)
    ensures |CacheBuster(c)| == 14 <==> 0 <= c.year <= 9999
  {
  }

  /** For those years the token is all digits and reads back as the clock. */
  lemma CacheBusterRoundTrip(c: Clock)
    requires ValidClock(c) && 0 <= c.year <= 9999
    ensures |CacheBuster(c)| == 14 && AllDigits(CacheBuster(c))
    ensures ParseCacheBuster(CacheBuster(c)) == c
  {
    var t := CacheBuster(c);
    assert t[..4] == Padded(c.year, 4);
    assert t[4..6] == Padded(c.month, 2);
    assert t[6..8] == Padded(c.day, 2);
    assert t[8..10] == Padded(c.hour, 2);
    assert t[10..12] == Padded(c.minute, 2);
    assert t[12..] == Padded(c.second, 2);
    FixedValue(c.year, 4);
    FixedValue(c.month, 2);
    FixedValue(c.day, 2);
    FixedValue(c.hour, 2);
    FixedValue(c.minute, 2);
    FixedValue(c.second, 2);
  }

  /** A valid reading's token is the year field followed by ten characters:
      two for each of month, day, hour, minute and second. */
  lemma CacheBusterFields(c: Clock)
    requires ValidClock(c)
    ensures var t, k := CacheBuster(c), |CacheBuster(c)| - 10;
      k == |FormatYear(c.year)| && t[..k] == FormatYear(c.year) &&
      t[k..k + 2] == Padded(c.month, 2) && t[k + 2..k + 4] == Padded(c.day, 2) &&
      t[k + 4..k + 6] == Padded(c.hour, 2) && t[k + 6..k + 8] == Padded(c.minute, 2) &&
      t[k + 8..] == Padded(c.second, 2)
  {
    var y := FormatYear(c.year);
    var mo, d, h, mi, se := Padded(c.month, 2), Padded(c.day, 2), Padded(c.hour, 2),
      Padded(c.minute, 2), Padded(c.second, 2);
    assert |mo| == 2 && |d| == 2 && |h| == 2 && |mi| == 2 && |se| == 2;
    var t := CacheBuster(c);
    assert t == y + mo + d + h + mi + se;
  }

  /** Equal year fields come from equal years. */
  lemma FormatYearInjective(year: int, year': int)
    requires FormatYear(year) == FormatYear(year')
    ensures year == year'
  {
  }

  /** Two requests built at different seconds carry different tokens, for
      every year: equal tokens have equal year fields and equal two-digit
      fields after them. */
  lemma CacheBusterDistinguishesSeconds(c: Clock, c': Clock)
    requires ValidClock(c) && ValidClock(c')
    requires c != c'
    ensures CacheBuster(c) != CacheBuster(c')
  {
    if CacheBuster(c) == CacheBuster(c') {
      CacheBusterFields(c);
      CacheBusterFields(c');
      FormatYearInjective(c.year, c'.year);
    }
  }
}
