/**
 * UTC instants and their ISO-8601 rendering, as produced by
 * `Date.prototype.toISOString` ("YYYY-MM-DDTHH:mm:ss.sssZ") and by the
 * aggregation operator `$dateToString` with format "%Y-%m-%d".
 */
module Clock {

  /** A broken-down UTC instant with millisecond precision. */
  datatype Instant = Instant(year: int, month: int, day: int,
                             hour: int, minute: int, second: int, millis: int)

  predicate IsLeapYear(y: int) {
    y % 4 == 0 && (y % 100 != 0 || y % 400 == 0)
  }

  function DaysInMonth(y: int, m: int): (n: int)
    requires 1 <= m <= 12
    ensures 28 <= n <= 31
  {
    if m == 2 then (if IsLeapYear(y) then 29 else 28)
    else if m == 4 || m == 6 || m == 9 || m == 11 then 30
    else 31
  }

  /** A real calendar instant whose year has the four-digit ISO form. */
  predicate WellFormed(t: Instant) {
    && 0 <= t.year <= 9999
    && 1 <= t.month <= 12
    && 1 <= t.day <= DaysInMonth(t.year, t.month)
    && 0 <= t.hour < 24 && 0 <= t.minute < 60 && 0 <= t.second < 60
    && 0 <= t.millis < 1000
  }

  type Timestamp = t: Instant | WellFormed(t) witness Instant(1970, 1, 1, 0, 0, 0, 0)

  function Pow10(n: nat): (p: nat)
    ensures p >= 1
  {
    if n == 0 then 1 else 10 * Pow10(n - 1)
  }

  predicate IsDigit(c: char) {
    '0' <= c <= '9'
  }

  predicate IsDecimal(s: string) {
    forall i :: 0 <= i < |s| ==> IsDigit(s[i])
  }

  /** The number a string of decimal digits denotes, most significant digit first. */
  function DecimalValue(s: string): nat
    requires IsDecimal(s)
  {
    if s == [] then 0
    else DecimalValue(s[..|s| - 1]) * 10 + (s[|s| - 1] as int - '0' as int)
  }

  /** `n` written with exactly `width` decimal digits, zero-padded on the left. */
  function Digits(n: nat, width: nat): (r: string)
    requires n < Pow10(width)
    ensures |r| == width
    ensures IsDecimal(r)
    ensures DecimalValue(r) == n
    ensures '-' !in r
  {
    if width == 0 then ""
    else
      var front := Digits(n / 10, width - 1);
      var last := (('0' as int) + n % 10) as char;
      assert front + [last] == (front + [last])[..width - 1] + [last];
      front + [last]
  }

  /** The calendar day of `t` as "YYYY-MM-DD" (`$dateToString`, format "%Y-%m-%d"). */
  function IsoDate(t: Timestamp): (r: string)
    ensures |r| == 10 && r[4] == '-' && r[7] == '-'
    ensures IsDecimal(r[..4]) && DecimalValue(r[..4]) == t.year
    ensures IsDecimal(r[5..7]) && DecimalValue(r[5..7]) == t.month
    ensures IsDecimal(r[8..]) && DecimalValue(r[8..]) == t.day
  {
    var y, m, d := Digits(t.year, 4), Digits(t.month, 2), Digits(t.day, 2);
    var r := y + "-" + m + "-" + d;
    assert r[..4] == y && r[5..7] == m && r[8..] == d;
    r
  }

  /** `Date.prototype.toISOString`: "YYYY-MM-DDTHH:mm:ss.sssZ". */
  function IsoString(t: Timestamp): (r: string)
    ensures |r| == 24
    ensures r[..10] == IsoDate(t)
  {
    var r := IsoDate(t) + "T" + Digits(t.hour, 2) + ":" + Digits(t.minute, 2) + ":"
             + Digits(t.second, 2) + "." + Digits(t.millis, 3) + "Z";
    assert r[..10] == IsoDate(t);
    r
  }
}
