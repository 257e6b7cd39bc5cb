/**
 The fixture clock: signed 64-bit ticks, saturating arithmetic and the
 timestamp text that lease documents carry.  A timestamp has a two-digit hour
 field, so only ticks below 100 hours print as a timestamp that validates; that
 is what bounds the clock.
 */
module FixtureClock {

  const I64_MAX := 0x7fff_ffff_ffff_ffff
  const I64_MIN := -0x8000_0000_0000_0000

  /** First tick whose timestamp no longer validates: one hundred hours. */
  const CLOCK_LIMIT := 360_000

  function Clamp(n: int): (r: int)
    ensures I64_MIN <= r <= I64_MAX
    ensures I64_MIN <= n <= I64_MAX ==> r == n
  {
    if n > I64_MAX then I64_MAX else if n < I64_MIN then I64_MIN else n
  }

  function SaturatingAdd(a: int, b: int): int { Clamp(a + b) }

  function SaturatingSub(a: int, b: int): int { Clamp(a - b) }

  predicate IsDigit(c: char) { '0' <= c <= '9' }

  predicate AllDigits(s: string) { forall i :: 0 <= i < |s| ==> IsDigit(s[i]) }

  function Digit(n: nat): (c: char)
    requires n < 10
    ensures IsDigit(c)
    ensures c as int == '0' as int + n
  {
    ('0' as int + n) as char
  }

  /** Decimal text without leading zeros. */
  function Decimal(n: nat): (s: string)
    ensures |s| >= 1 && AllDigits(s)
    ensures n < 10 ==> |s| == 1
    ensures 10 <= n < 100 ==> |s| == 2
    ensures 100 <= n ==> |s| >= 3
  {
    if n < 10 then [Digit(n)] else Decimal(n / 10) + [Digit(n % 10)]
  }

  /** Decimal text padded to at least two digits. */
  function TwoDigits(n: nat): (s: string)
    ensures |s| >= 2 && AllDigits(s)
    ensures |s| == 2 <==> n < 100
  {
    if n < 10 then "0" + Decimal(n) else Decimal(n)
  }

  const DATE := "2026-09-06T"

  function Clockface(minutes: nat, seconds: nat): (s: string)
    requires minutes < 60 && seconds < 60
    ensures |s| == 7
  {
    ":" + TwoDigits(minutes) + ":" + TwoDigits(seconds) + "Z"
  }

  function Stamp(hours: nat, minutes: nat, seconds: nat): string
    requires minutes < 60 && seconds < 60
  {
    DATE + TwoDigits(hours) + Clockface(minutes, seconds)
  }

  function TimestampForTick(tick: int): string {
    var total: nat := if tick > 0 then tick else 0;
    Stamp(total / 3_600, (total % 3_600) / 60, total % 60)
  }

  predicate ValidTimestamp(value: string) {
    && (|value| == 20 || 22 <= |value| <= 30)
    && value[4] == '-' && value[7] == '-' && value[10] == 'T'
    && value[13] == ':' && value[16] == ':'
    && value[|value| - 1] == 'Z'
    && AllDigits(value[0..4]) && AllDigits(value[5..7]) && AllDigits(value[8..10])
    && AllDigits(value[11..13]) && AllDigits(value[14..16]) && AllDigits(value[17..19])
    && (|value| == 20 || (value[19] == '.' && AllDigits(value[20..|value| - 1])))
  }

  lemma {:induction false} DecimalInjective(a: nat, b: nat)
    requires Decimal(a) == Decimal(b)
    ensures a == b
    decreases a
  {
    var s, t := Decimal(a), Decimal(b);
    assert s[|s| - 1] == t[|t| - 1];
    if a >= 10 {
      assert b >= 10;
      assert Decimal(a / 10) == s[..|s| - 1] == t[..|t| - 1] == Decimal(b / 10);
      DecimalInjective(a / 10, b / 10);
    }
  }

  lemma TwoDigitsInjective(a: nat, b: nat)
    requires TwoDigits(a) == TwoDigits(b)
    ensures a == b
  {
    var s, t := TwoDigits(a), TwoDigits(b);
    if a < 10 && b < 10 {
      assert s[1..] == Decimal(a) && t[1..] == Decimal(b);
      DecimalInjective(a, b);
    } else if a >= 10 && b >= 10 {
      DecimalInjective(a, b);
    } else {
      LeadingDigitNonzero(if a < 10 then b else a);
    }
  }

  lemma {:induction false} LeadingDigitNonzero(n: nat)
    requires n >= 1
    ensures Decimal(n)[0] != '0'
  {
    if n >= 10 {
      LeadingDigitNonzero(n / 10);
      assert Decimal(n)[0] == Decimal(n / 10)[0];
    }
  }

  lemma SameParts(prefix: string, h: string, c: string, h': string, c': string)
    requires |c| == |c'| && prefix + h + c == prefix + h' + c'
    ensures h == h' && c == c'
  {
    var s, t := prefix + h + c, prefix + h' + c';
    assert h == s[|prefix|..|prefix| + |h|] && h' == t[|prefix|..|prefix| + |h'|];
    assert c == s[|prefix| + |h|..] && c' == t[|prefix| + |h'|..];
  }

  lemma PartsInjective(h: nat, m: nat, s: nat, h': nat, m': nat, s': nat)
    requires m < 60 && s < 60 && m' < 60 && s' < 60
    requires Stamp(h, m, s) == Stamp(h', m', s')
    ensures h == h' && m == m' && s == s'
  {
    SameParts(DATE, TwoDigits(h), Clockface(m, s), TwoDigits(h'), Clockface(m', s'));
    TwoDigitsInjective(h, h');
    ClockfaceInjective(m, s, m', s');
  }

  lemma SecondsDetermineTick(total: nat)
    ensures total == 3_600 * (total / 3_600) + 60 * ((total % 3_600) / 60) + total % 60
  {
    var minutes := total / 60;
    assert total == 60 * minutes + total % 60;
    assert total / 3_600 == minutes / 60 && (total % 3_600) / 60 == minutes % 60;
  }

  lemma TickParts(total: nat) returns (h: nat, m: nat, s: nat)
    ensures m < 60 && s < 60 && total == 3_600 * h + 60 * m + s
    ensures TimestampForTick(total) == Stamp(h, m, s)
  {
    SecondsDetermineTick(total);
    h, m, s := total / 3_600, (total % 3_600) / 60, total % 60;
  }

  /** Timestamps are injective in the tick, so equal lease documents mean equal deadlines. */
  lemma TimestampInjective(a: nat, b: nat)
    requires TimestampForTick(a) == TimestampForTick(b)
    ensures a == b
  {
    var h, m, s := TickParts(a);
    var h', m', s' := TickParts(b);
    PartsInjective(h, m, s, h', m', s');
  }

  lemma ClockfaceInjective(m: nat, s: nat, m': nat, s': nat)
    requires m < 60 && s < 60 && m' < 60 && s' < 60
    requires Clockface(m, s) == Clockface(m', s')
    ensures m == m' && s == s'
  {
    var c, c' := Clockface(m, s), Clockface(m', s');
    assert TwoDigits(m) == c[1..3] && TwoDigits(m') == c'[1..3];
    assert TwoDigits(s) == c[4..6] && TwoDigits(s') == c'[4..6];
    TwoDigitsInjective(m, m');
    TwoDigitsInjective(s, s');
  }

  lemma ShapeOfTimestamp(h: string, m: string, s: string, t: string)
    requires |h| >= 2 && |m| == 2 && |s| == 2 && AllDigits(h) && AllDigits(m) && AllDigits(s)
    requires t == DATE + h + (":" + m + ":" + s + "Z")
    ensures ValidTimestamp(t) <==> |h| == 2
  {
    assert t[..11] == DATE;
    assert AllDigits(t[0..4]) && AllDigits(t[5..7]) && AllDigits(t[8..10]);
    if |h| == 2 {
      assert t[11..13] == h && t[14..16] == m && t[17..19] == s;
      assert t[13] == ':' && t[16] == ':' && t[19] == 'Z';
    } else {
      assert t[13] == h[2];
    }
  }

  /** A printed tick validates exactly when it is below one hundred hours. */
  lemma TimestampValidBelowLimit(tick: int)
    ensures ValidTimestamp(TimestampForTick(tick)) <==> tick < CLOCK_LIMIT
  {
    var total: nat := if tick > 0 then tick else 0;
    ShapeOfTimestamp(TwoDigits(total / 3_600), TwoDigits((total % 3_600) / 60), TwoDigits(total % 60),
                     TimestampForTick(tick));
  }

  /** The number two decimal digits show. */
  function TwoDigitValue(s: string, i: nat): int
    requires i + 1 < |s|
  {
    10 * (s[i] as int - '0' as int) + (s[i + 1] as int - '0' as int)
  }

  lemma TwoDigitsShow(n: nat)
    requires n < 100
    ensures |TwoDigits(n)| == 2 && TwoDigitValue(TwoDigits(n), 0) == n
  {
    if n >= 10 { assert Decimal(n) == Decimal(n / 10) + [Digit(n % 10)] && Decimal(n / 10) == [Digit(n / 10)]; }
  }

  lemma StampReads(h: nat, m: nat, s: nat)
    requires h < 100 && m < 60 && s < 60
    ensures var t := Stamp(h, m, s);
      && |t| == 20 && t[..11] == "2026-09-06T" && t[13] == ':' && t[16] == ':' && t[19] == 'Z'
      && TwoDigitValue(t, 11) == h && TwoDigitValue(t, 14) == m && TwoDigitValue(t, 17) == s
  {
    TwoDigitsShow(h);
    TwoDigitsShow(m);
    TwoDigitsShow(s);
    var t := Stamp(h, m, s);
    assert t[..11] == DATE;
    assert t[11..13] == TwoDigits(h) && t[14..16] == TwoDigits(m) && t[17..19] == TwoDigits(s);
  }

  /** A printed tick reads as its hours, minutes and seconds on the fixed day. */
  lemma TimestampReads(tick: nat)
    requires tick < CLOCK_LIMIT
    ensures var t := TimestampForTick(tick);
      && |t| == 20 && t[..11] == "2026-09-06T" && t[13] == ':' && t[16] == ':' && t[19] == 'Z'
      && TwoDigitValue(t, 14) < 60 && TwoDigitValue(t, 17) < 60
      && tick == 3_600 * TwoDigitValue(t, 11) + 60 * TwoDigitValue(t, 14) + TwoDigitValue(t, 17)
  {
    var h, m, s := TickParts(tick);
    StampReads(h, m, s);
  }
}
