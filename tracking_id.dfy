/**
 * Tracking identifiers: "PRCL-" + the UTC calendar day as eight digits +
 * "-" + three random bytes as six upper-case hexadecimal digits.
 * The clock reading and the random bytes are parameters.
 */
module TrackingIds {
  import opened Common
  import opened Clock

  /** The three bytes drawn from the cryptographic random source. */
  type RandomBytes = b: seq<Byte> | |b| == 3 witness [0, 0, 0]

  const Prefix: string := "PRCL"

  /** `s` with every occurrence of `c` deleted (`String.prototype.replace` with a global pattern and ""). */
  function RemoveAll(s: string, c: char): (r: string)
    ensures c !in r
    ensures |r| <= |s|
  {
    if s == [] then ""
    else RemoveAll(s[..|s| - 1], c) + (if s[|s| - 1] == c then "" else [s[|s| - 1]])
  }

  lemma {:induction false} RemoveAllAppend(a: string, b: string, c: char)
    ensures RemoveAll(a + b, c) == RemoveAll(a, c) + RemoveAll(b, c)
    decreases |b|
  {
    if b == [] {
      assert a + b == a;
    } else {
      var b' := b[..|b| - 1];
      assert (a + b)[..|a + b| - 1] == a + b';
      RemoveAllAppend(a, b', c);
    }
  }

  lemma {:induction false} RemoveAllAbsent(s: string, c: char)
    requires c !in s
    ensures RemoveAll(s, c) == s
  {
    if s != [] {
      RemoveAllAbsent(s[..|s| - 1], c);
    }
  }

  /** A string made of the removed character alone vanishes. */
  lemma RemoveAllSeparator(c: char)
    ensures RemoveAll([c], c) == ""
  {
    assert [c][..0] == "";
  }

  /** Deleting the hyphens of "a-b-c" leaves "abc" when the parts hold none. */
  lemma RemoveSeparators(a: string, b: string, c: string)
    requires '-' !in a && '-' !in b && '-' !in c
    ensures RemoveAll(a + "-" + b + "-" + c, '-') == a + b + c
  {
    RemoveAllSeparator('-');
    RemoveAllAbsent(a, '-');
    RemoveAllAbsent(b, '-');
    RemoveAllAbsent(c, '-');
    var x := a + "-";
    RemoveAllAppend(a, "-", '-');
    assert RemoveAll(x, '-') == a;
    var y := x + b;
    RemoveAllAppend(x, b, '-');
    assert RemoveAll(y, '-') == a + b;
    var z := y + "-";
    RemoveAllAppend(y, "-", '-');
    assert RemoveAll(z, '-') == a + b;
    RemoveAllAppend(z, c, '-');
  }

  /**
   * The date token: the first ten characters of the ISO string with the
   * hyphens removed. It reads back as the year, month and day of `now`.
   */
  function DateToken(now: Timestamp): (r: string)
    ensures |r| == 8
    ensures IsDecimal(r[..4]) && DecimalValue(r[..4]) == now.year
    ensures IsDecimal(r[4..6]) && DecimalValue(r[4..6]) == now.month
    ensures IsDecimal(r[6..]) && DecimalValue(r[6..]) == now.day
  {
    var y, m, d := Digits(now.year, 4), Digits(now.month, 2), Digits(now.day, 2);
    assert IsoString(now)[..10] == y + "-" + m + "-" + d;
    RemoveSeparators(y, m, d);
    var r := RemoveAll(IsoString(now)[..10], '-');
    assert r[..4] == y && r[4..6] == m && r[6..] == d;
    r
  }

  /** The lower-case hexadecimal digit for a nibble. */
  function LowerHexDigit(k: nat): char
    requires k < 16
  {
    if k < 10 then ('0' as int + k) as char else ('a' as int + k - 10) as char
  }

  /** The upper-case hexadecimal digit for a nibble. */
  function UpperHexDigit(k: nat): char
    requires k < 16
  {
    if k < 10 then ('0' as int + k) as char else ('A' as int + k - 10) as char
  }

  /** `Buffer.prototype.toString("hex")`: two lower-case digits per byte, high nibble first. */
  function HexLower(bytes: seq<Byte>): (r: string)
    ensures |r| == 2 * |bytes|
    ensures forall i :: 0 <= i < |bytes| ==>
      r[2 * i] == LowerHexDigit(bytes[i] / 16) && r[2 * i + 1] == LowerHexDigit(bytes[i] % 16)
  {
    if bytes == [] then ""
    else
      var b := bytes[|bytes| - 1];
      HexLower(bytes[..|bytes| - 1]) + [LowerHexDigit(b / 16), LowerHexDigit(b % 16)]
  }

  /** The upper-case rendering, the reference for the round trip. */
  function HexUpper(bytes: seq<Byte>): (r: string)
    ensures |r| == 2 * |bytes|
  {
    if bytes == [] then ""
    else
      var b := bytes[|bytes| - 1];
      HexUpper(bytes[..|bytes| - 1]) + [UpperHexDigit(b / 16), UpperHexDigit(b % 16)]
  }

  /** `String.prototype.toUpperCase` on one character, restricted to ASCII letters. */
  function ToUpperAscii(c: char): char {
    if 'a' <= c <= 'z' then (c as int - 32) as char else c
  }

  /** `String.prototype.toUpperCase` on an ASCII string. */
  function UpperCase(s: string): string {
    seq(|s|, i requires 0 <= i < |s| => ToUpperAscii(s[i]))
  }

  lemma UpperCaseAppend(a: string, b: string)
    ensures UpperCase(a + b) == UpperCase(a) + UpperCase(b)
  {
  }

  lemma {:induction false} UpperCaseOfHexLower(bytes: seq<Byte>)
    ensures UpperCase(HexLower(bytes)) == HexUpper(bytes)
  {
    if bytes != [] {
      var front, b := bytes[..|bytes| - 1], bytes[|bytes| - 1];
      UpperCaseOfHexLower(front);
      UpperCaseAppend(HexLower(front), [LowerHexDigit(b / 16), LowerHexDigit(b % 16)]);
    }
  }

  predicate IsUpperHexDigit(c: char) {
    '0' <= c <= '9' || 'A' <= c <= 'F'
  }

  predicate IsUpperHex(s: string) {
    forall i :: 0 <= i < |s| ==> IsUpperHexDigit(s[i])
  }

  /** The value of an upper-case hexadecimal digit; any other character reads as zero. */
  function HexValue(c: char): (v: nat)
    ensures v < 16
    ensures !IsUpperHexDigit(c) ==> v == 0
  {
    if '0' <= c <= '9' then c as int - '0' as int
    else if 'A' <= c <= 'F' then c as int - 'A' as int + 10
    else 0
  }

  /**
   * Reads back the bytes of an upper-case hexadecimal string, two digits
   * per byte from the end; a leading odd digit is ignored.
   */
  function ParseHex(s: string): (bytes: seq<Byte>)
  {
    if |s| < 2 then []
    else ParseHex(s[..|s| - 2]) + [16 * HexValue(s[|s| - 2]) + HexValue(s[|s| - 1])]
  }

  lemma HexDigitRoundTrip(k: nat)
    requires k < 16
    ensures IsUpperHexDigit(UpperHexDigit(k)) && HexValue(UpperHexDigit(k)) == k
  {
  }

  lemma {:induction false} HexUpperIsHex(bytes: seq<Byte>)
    ensures IsUpperHex(HexUpper(bytes))
  {
    if bytes != [] {
      var front, b := bytes[..|bytes| - 1], bytes[|bytes| - 1];
      HexUpperIsHex(front);
      HexDigitRoundTrip(b / 16);
      HexDigitRoundTrip(b % 16);
      assert HexUpper(bytes) == HexUpper(front) + [UpperHexDigit(b / 16), UpperHexDigit(b % 16)];
    }
  }

  /** Parsing a string extended by two digits extends the bytes by one. */
  lemma ParseHexSnoc(t: string, hi: char, lo: char)
    ensures ParseHex(t + [hi, lo]) == ParseHex(t) + [16 * HexValue(hi) + HexValue(lo)]
  {
    var s := t + [hi, lo];
    assert s[..|s| - 2] == t;
  }

  lemma {:induction false} HexUpperRoundTrip(bytes: seq<Byte>)
    ensures IsUpperHex(HexUpper(bytes))
    ensures ParseHex(HexUpper(bytes)) == bytes
  {
    HexUpperIsHex(bytes);
    if bytes != [] {
      var front, b := bytes[..|bytes| - 1], bytes[|bytes| - 1];
      HexUpperRoundTrip(front);
      var hi, lo := UpperHexDigit(b / 16), UpperHexDigit(b % 16);
      HexDigitRoundTrip(b / 16);
      HexDigitRoundTrip(b % 16);
      ParseHexSnoc(HexUpper(front), hi, lo);
      assert HexUpper(bytes) == HexUpper(front) + [hi, lo];
      assert 16 * (b / 16) + b % 16 == b;
      assert bytes == front + [b];
    }
  }

  /**
   * The tracking identifier for a parcel created at `now` with random
   * bytes `random`. Its shape is PRCL-YYYYMMDD-XXXXXX; the date segment
   * reads back as the calendar day of `now` and the suffix reads back as
   * the random bytes.
   */
  function GenerateTrackingId(now: Timestamp, random: RandomBytes): (id: string)
    ensures |id| == 20
  {
    Prefix + "-" + DateToken(now) + "-" + UpperCase(HexLower(random))
  }

  /**
   * The identifier has the shape PRCL-YYYYMMDD-XXXXXX: its date segment
   * reads back as the calendar day of `now` and its six upper-case
   * hexadecimal digits read back as the random bytes.
   */
  lemma TrackingIdShape(now: Timestamp, random: RandomBytes)
    ensures var id := GenerateTrackingId(now, random);
      && |id| == 20
      && id[..5] == "PRCL-" && id[13] == '-'
      && IsDecimal(id[5..9]) && DecimalValue(id[5..9]) == now.year
      && IsDecimal(id[9..11]) && DecimalValue(id[9..11]) == now.month
      && IsDecimal(id[11..13]) && DecimalValue(id[11..13]) == now.day
      && IsUpperHex(id[14..]) && ParseHex(id[14..]) == random
  {
    var date := DateToken(now);
    UpperCaseOfHexLower(random);
    HexUpperRoundTrip(random);
    var hex := UpperCase(HexLower(random));
    assert IsUpperHex(hex) && ParseHex(hex) == random;
    IdLayout(date, hex);
  }

  lemma IdLayout(date: string, hex: string)
    requires |date| == 8 && |hex| == 6
    ensures var id := Prefix + "-" + date + "-" + hex;
      && |id| == 20 && id[..5] == "PRCL-" && id[13] == '-' && id[14..] == hex
      && id[5..9] == date[..4] && id[9..11] == date[4..6] && id[11..13] == date[6..]
  {
  }

  /** Two identifiers agree only if they were drawn on the same day from the same bytes. */
  lemma GenerateTrackingIdInjective(t1: Timestamp, r1: RandomBytes, t2: Timestamp, r2: RandomBytes)
    requires GenerateTrackingId(t1, r1) == GenerateTrackingId(t2, r2)
    ensures r1 == r2
    ensures t1.year == t2.year && t1.month == t2.month && t1.day == t2.day
  {
    TrackingIdShape(t1, r1);
    TrackingIdShape(t2, r2);
  }
}
