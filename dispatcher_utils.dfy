/**
 * Conversions between a relative time-to-live and an absolute expiry date, both in
 * milliseconds since the epoch, as done by joynr's DispatcherUtils.  The wall clock
 * is read by the source; here the current time `now` is a parameter.
 */
module DispatcherUtils {
  import opened Int64

  /** QDateTime::addMSecs on the millisecond count: a 64-bit addition that wraps around. */
  function AddMSecs(date: int64, ms: int64): (r: int64)
    ensures INT64_MIN <= date + ms <= INT64_MAX ==> r == date + ms
  {
    Wrap64(date + ms)
  }

  /** The largest representable absolute time: no int64 date lies after it. */
  function MaxAbsoluteTime(): (r: int64)
    ensures r == INT64_MAX
  {
    INT64_MAX
  }

  /** The reference meaning of a TTL conversion: the sum clamped to the int64 range. */
  function Saturate(x: int): (r: int64)
    ensures x > INT64_MAX ==> r == INT64_MAX
    ensures x < INT64_MIN ==> r == INT64_MIN
    ensures INT64_MIN <= x <= INT64_MAX ==> r == x
  {
    if x > INT64_MAX then INT64_MAX else if x < INT64_MIN then INT64_MIN else x
  }

  /**
   * The absolute expiry date of a message sent at `now` with relative TTL `ttlMs`.
   * The source adds with wrap-around and then detects overflow by comparing the result
   * with `now`; the contract says this is exactly a saturating addition.
   */
  function ConvertTtlToAbsoluteTime(now: int64, ttlMs: int64): (r: int64)
    ensures r == Saturate(now + ttlMs)
    ensures ttlMs > 0 && now + ttlMs > INT64_MAX ==> r == MaxAbsoluteTime()
    ensures ttlMs < 0 && now + ttlMs < INT64_MIN ==> r == INT64_MIN
    ensures ttlMs > 0 ==> r >= now
    ensures ttlMs < 0 ==> r <= now
    ensures ttlMs == 0 ==> r == now
  {
    var expiryDate := AddMSecs(now, ttlMs);
    if ttlMs > 0 && expiryDate < now then
      WrapAbove(now + ttlMs);
      MaxAbsoluteTime()
    else if ttlMs < 0 && expiryDate > now then
      INT64_MIN
    else
      assert now + ttlMs > INT64_MAX ==> false by {
        if now + ttlMs > INT64_MAX { WrapAbove(now + ttlMs); }
      }
      assert now + ttlMs < INT64_MIN ==> false by {
        if now + ttlMs < INT64_MIN { WrapBelow(now + ttlMs); }
      }
      expiryDate
  }

  /**
   * The remaining TTL of an absolute date, seen at `now`.  The subtraction is a signed
   * 64-bit subtraction in the source, whose overflow is undefined behaviour; callers
   * must keep the difference in range.
   */
  function ConvertAbsoluteTimeToTtl(date: int64, now: int64): (r: int64)
    requires INT64_MIN <= date - now <= INT64_MAX
    ensures now + r == date
  {
    date - now
  }

  /** Converting a TTL to a date and back at the same instant gives the TTL again, unless it saturated. */
  lemma TtlRoundTrip(now: int64, ttlMs: int64)
    requires INT64_MIN <= now + ttlMs <= INT64_MAX
    ensures ConvertAbsoluteTimeToTtl(ConvertTtlToAbsoluteTime(now, ttlMs), now) == ttlMs
  {
  }

  /** Converting a date to a TTL and back at the same instant gives the date again. */
  lemma DateRoundTrip(date: int64, now: int64)
    requires INT64_MIN <= date - now <= INT64_MAX
    ensures ConvertTtlToAbsoluteTime(now, ConvertAbsoluteTimeToTtl(date, now)) == date
  {
  }

  /** A saturated expiry date never promises more lifetime than was asked for. */
  lemma SaturatedTtlNotLonger(now: int64, ttlMs: int64)
    requires ttlMs >= 0
    ensures ConvertAbsoluteTimeToTtl(ConvertTtlToAbsoluteTime(now, ttlMs), now) <= ttlMs
  {
  }

  // ---------------------------------------------------------------------------------
  // Decimal rendering (QString::number on a qint64)

  function DigitChar(d: nat): (c: char)
    requires d < 10
    ensures '0' <= c <= '9'
  {
    "0123456789"[d]
  }

  function DigitValue(c: char): (d: nat)
    requires '0' <= c <= '9'
    ensures d < 10 && DigitChar(d) == c
  {
    (c - '0') as nat
  }

  predicate IsDigits(s: string)
  {
    forall i :: 0 <= i < |s| ==> '0' <= s[i] <= '9'
  }

  /** The base-10 digits of n, most significant first, without leading zeros. */
  function NatToDecimal(n: nat): (s: string)
    ensures |s| > 0 && IsDigits(s)
    ensures |s| > 1 ==> s[0] != '0'
    decreases n
  {
    if n < 10 then [DigitChar(n)] else NatToDecimal(n / 10) + [DigitChar(n % 10)]
  }

  /** The number that a string of decimal digits denotes. */
  function DecimalValue(s: string): (n: nat)
    requires IsDigits(s)
  {
    if s == [] then 0 else 10 * DecimalValue(s[..|s| - 1]) + DigitValue(s[|s| - 1])
  }

  /** Decimal rendering of a signed value: a minus sign for negative numbers. */
  function IntToDecimal(i: int): (s: string)
    ensures |s| > 0
    ensures i < 0 <==> s[0] == '-'
  {
    if i < 0 then "-" + NatToDecimal(-i) else NatToDecimal(i)
  }

  /** Reading back a decimal rendering; the partner of IntToDecimal. */
  function ParseDecimal(s: string): (r: int)
    requires |s| > 0
    requires s[0] == '-' ==> IsDigits(s[1..])
    requires s[0] != '-' ==> IsDigits(s)
  {
    if s[0] == '-' then -(DecimalValue(s[1..]) as int) else DecimalValue(s)
  }

  lemma {:induction false} NatToDecimalRoundTrip(n: nat)
    ensures DecimalValue(NatToDecimal(n)) == n
    decreases n
  {
    if n >= 10 {
      NatToDecimalRoundTrip(n / 10);
      var s := NatToDecimal(n);
      assert s[..|s| - 1] == NatToDecimal(n / 10);
    }
  }

  /** The TTL string of a date, seen at `now`. */
  function ConvertAbsoluteTimeToTtlString(date: int64, now: int64): (s: string)
    requires INT64_MIN <= date - now <= INT64_MAX
    ensures |s| > 0
    ensures s[0] == '-' <==> date < now
  {
    IntToDecimal(ConvertAbsoluteTimeToTtl(date, now))
  }

  /** The TTL string denotes exactly the TTL in milliseconds. */
  lemma {:induction false} TtlStringRoundTrip(date: int64, now: int64)
    requires INT64_MIN <= date - now <= INT64_MAX
    ensures var s := ConvertAbsoluteTimeToTtlString(date, now);
      (s[0] == '-' ==> IsDigits(s[1..])) && (s[0] != '-' ==> IsDigits(s))
      && ParseDecimal(s) == ConvertAbsoluteTimeToTtl(date, now)
  {
    var t: int := ConvertAbsoluteTimeToTtl(date, now);
    if t < 0 {
      NatToDecimalRoundTrip(-t);
      assert ("-" + NatToDecimal(-t))[1..] == NatToDecimal(-t);
    } else {
      NatToDecimalRoundTrip(t);
    }
  }
}
