/**
 * Go's `time.Time` as far as the adapter uses it, and the layout "2006-01-02" that
 * `Time.Format` renders it with.
 */
module Calendar {
  import opened Wrappers

  /**
   * A time as its own location presents it: the calendar date, the clock reading and
   * the zone offset in seconds east of UTC.
   */
  datatype Time = Time(year: int, month: int, day: int,
                       hour: int, minute: int, second: int, nanosecond: int,
                       offset: int)

  /** `time.Time{}`: January 1 of year 1, 00:00:00 UTC. */
  const ZeroTime: Time := Time(1, 1, 1, 0, 0, 0, 0, 0)

  /** A date whose year has at most four digits, the range both parsing layouts produce. */
  predicate CalendarDate(t: Time) {
    0 <= t.year <= 9999 && 1 <= t.month <= 12 && 1 <= t.day <= 31
  }

  predicate IsDigit(c: char) {
    '0' <= c <= '9'
  }

  predicate AllDigits(s: string) {
    forall i :: 0 <= i < |s| ==> IsDigit(s[i])
  }

  function Pow10(k: nat): (r: nat)
    ensures r >= 1
  {
    if k == 0 then 1 else 10 * Pow10(k - 1)
  }

  function DigitChar(d: nat): (c: char)
    requires d < 10
    ensures IsDigit(c) && c as int - '0' as int == d
  {
    (d + '0' as int) as char
  }

  /** The decimal digits of `n`, most significant first, without leading zeros. */
  function Digits(n: nat): (s: string)
    ensures 1 <= |s| && AllDigits(s)
    decreases n
  {
    if n < 10 then [DigitChar(n)] else Digits(n / 10) + [DigitChar(n % 10)]
  }

  function Zeros(k: nat): (s: string)
    ensures |s| == k && AllDigits(s)
  {
    seq(k, _ => '0')
  }

  /** The number a string of decimal digits denotes; the inverse of the padded formatting. */
  function DecimalValue(s: string): nat
    requires AllDigits(s)
  {
    if s == [] then 0 else 10 * DecimalValue(s[..|s| - 1]) + (s[|s| - 1] as int - '0' as int)
  }

  /**
   * Go's `appendInt(b, x, width)` as the time formatter uses it: a '-' for a negative
   * value, then the magnitude in decimal, left-padded with '0' to `width` digits. A
   * non-negative value below 10^width takes exactly `width` digits that read back as it.
   */
  function AppendInt(x: int, width: nat): (s: string)
    ensures |s| >= width && |s| >= 1
    ensures s[0] == '-' <==> x < 0
    ensures 1 <= width && 0 <= x < Pow10(width) ==>
              |s| == width && AllDigits(s) && DecimalValue(s) == x
  {
    var n := if x < 0 then -x else x;
    var digits := Digits(n);
    var k := if |digits| < width then width - |digits| else 0;
    DigitsLength(n, width);
    DigitsValue(n);
    ZeroPaddedValue(k, digits);
    if x < 0 then "-" + Zeros(k) + digits else Zeros(k) + digits
  }

  /**
   * `t.Format("2006-01-02")`: four-digit year, two-digit month, two-digit day. A date with a
   * four-digit year gives ten characters that parse back to its year, month and day.
   */
  function FormatDate(t: Time): (s: string)
    ensures CalendarDate(t) ==> |s| == 10 && ParseDate(s) == Some((t.year, t.month, t.day))
  {
    var y, m, d := AppendInt(t.year, 4), AppendInt(t.month, 2), AppendInt(t.day, 2);
    var s := y + "-" + m + "-" + d;
    assert Pow10(2) == 100 && Pow10(4) == 10000;
    assert s[..|y|] == y && s[|y| + 1..|y| + 1 + |m|] == m && s[|y| + |m| + 2..] == d;
    s
  }

  /** Reads a "YYYY-MM-DD" string back into its year, month and day. */
  function ParseDate(s: string): Option<(int, int, int)>
  {
    if |s| == 10 && s[4] == '-' && s[7] == '-'
       && AllDigits(s[..4]) && AllDigits(s[5..7]) && AllDigits(s[8..])
    then Some((DecimalValue(s[..4]), DecimalValue(s[5..7]), DecimalValue(s[8..])))
    else None
  }

  lemma {:induction false} DigitsValue(n: nat)
    ensures DecimalValue(Digits(n)) == n
    decreases n
  {
    if n >= 10 {
      var s := Digits(n);
      assert s[..|s| - 1] == Digits(n / 10);
      DigitsValue(n / 10);
    }
  }

  /** A number below 10^w has at most w digits. */
  lemma {:induction false} DigitsLength(n: nat, w: nat)
    ensures 1 <= w && n < Pow10(w) ==> |Digits(n)| <= w
    decreases n
  {
    if 1 <= w && n < Pow10(w) && n >= 10 {
      assert w >= 2;
      assert n / 10 < Pow10(w - 1);
      DigitsLength(n / 10, w - 1);
    }
  }

  lemma {:induction false} DecimalValueConcat(a: string, b: string)
    requires AllDigits(a) && AllDigits(b)
    ensures AllDigits(a + b)
    ensures DecimalValue(a + b) == DecimalValue(a) * Pow10(|b|) + DecimalValue(b)
    decreases |b|
  {
    if b == [] {
      assert a + b == a;
    } else {
      var b' := b[..|b| - 1];
      assert b[..|b| - 1] == b';
      assert (a + b)[..|a + b| - 1] == a + b';
      DecimalValueConcat(a, b');
      var va, p, vb := DecimalValue(a), Pow10(|b'|), DecimalValue(b');
      var c := b[|b| - 1] as int - '0' as int;
      assert DecimalValue(a + b) == 10 * DecimalValue(a + b') + c;
      assert DecimalValue(b) == 10 * vb + c;
      assert Pow10(|b|) == 10 * p;
      ShiftDigit(va, p, vb, c);
    }
  }

  lemma ShiftDigit(va: int, p: int, vb: int, c: int)
    ensures 10 * (va * p + vb) + c == va * (10 * p) + (10 * vb + c)
  {
  }

  lemma {:induction false} ZerosValue(k: nat)
    ensures DecimalValue(Zeros(k)) == 0
  {
    if k > 0 {
      assert Zeros(k)[..k - 1] == Zeros(k - 1);
      ZerosValue(k - 1);
    }
  }

  /** Leading zeros change neither the digits nor the value of a decimal string. */
  lemma ZeroPaddedValue(k: nat, digits: string)
    requires AllDigits(digits)
    ensures AllDigits(Zeros(k) + digits) && DecimalValue(Zeros(k) + digits) == DecimalValue(digits)
  {
    DecimalValueConcat(Zeros(k), digits);
    ZerosValue(k);
    assert DecimalValue(Zeros(k)) * Pow10(|digits|) == 0;
  }
}
