/**
 * Calendar dates as the pages handle them: the `YYYY-MM-DD` strings of date inputs, parsed
 * the way `new Date(s)` reads a date-only ISO string, and the number formatting
 * (`toString`, `padStart(2, "0")`) used to print a date back.
 */
module Dates {
  import opened Common

  datatype Date = Date(year: int, month: int, day: int)

  predicate IsLeapYear(y: int) {
    (y % 4 == 0 && y % 100 != 0) || y % 400 == 0
  }

  function DaysInMonth(y: int, m: int): int {
    if m == 2 then (if IsLeapYear(y) then 29 else 28)
    else if m == 4 || m == 6 || m == 9 || m == 11 then 30
    else 31
  }

  predicate ValidDate(d: Date) {
    1 <= d.month <= 12 && 1 <= d.day <= DaysInMonth(d.year, d.month)
  }

  /** Chronological order on dates, field by field. */
  predicate OnOrBefore(a: Date, b: Date) {
    a.year < b.year || (a.year == b.year && (a.month < b.month || (a.month == b.month && a.day <= b.day)))
  }

  /**
   * The day before a date, across month and year boundaries: an earlier valid date with no
   * valid date strictly between the two.
   */
  function PrevDay(d: Date): (p: Date)
    requires ValidDate(d)
    ensures ValidDate(p) && OnOrBefore(p, d) && p != d
    ensures forall e :: ValidDate(e) && OnOrBefore(e, d) && e != d ==> OnOrBefore(e, p)
  {
    if d.day > 1 then Date(d.year, d.month, d.day - 1)
    else if d.month > 1 then Date(d.year, d.month - 1, DaysInMonth(d.year, d.month - 1))
    else Date(d.year - 1, 12, 31)
  }

  predicate IsDigit(c: char) { '0' <= c <= '9' }

  function DigitValue(c: char): nat
    requires IsDigit(c)
  {
    c as int - '0' as int
  }

  function DigitChar(n: nat): (c: char)
    requires n < 10
    ensures IsDigit(c) && DigitValue(c) == n
  {
    (n + '0' as int) as char
  }

  /** `n.toString()` for a non-negative integer: decimal digits, no leading zero. */
  function NatToString(n: nat): (s: string)
    ensures |s| >= 1 && forall i :: 0 <= i < |s| ==> IsDigit(s[i])
    ensures n >= 10 ==> s[0] != '0'
    ensures n < 10 <==> |s| == 1
    ensures n < 100 ==> |s| <= 2
  {
    if n < 10 then [DigitChar(n)] else NatToString(n / 10) + [DigitChar(n % 10)]
  }

  /** `x.toString()` for an integer, with a leading `-` when negative. */
  function IntToString(x: int): string {
    if x < 0 then "-" + NatToString(-x) else NatToString(x)
  }

  /** `n.toString().padStart(2, "0")`. */
  function Pad2(n: nat): (s: string)
    ensures n < 100 ==> |s| == 2
  {
    var t := NatToString(n);
    if |t| >= 2 then t else "0" + t
  }

  /** Two decimal digits at offset `k` of `s`, as a number. */
  function Two(s: string, k: nat): nat
    requires k + 2 <= |s| && IsDigit(s[k]) && IsDigit(s[k + 1])
  {
    10 * DigitValue(s[k]) + DigitValue(s[k + 1])
  }

  /** `YYYY-MM-DD`: four digits, `-`, two digits, `-`, two digits. */
  predicate IsoShaped(s: string) {
    && |s| == 10 && s[4] == '-' && s[7] == '-'
    && forall i :: 0 <= i < 10 && i != 4 && i != 7 ==> IsDigit(s[i])
  }

  /** The date written in an ISO-shaped string (not checked for being a calendar date). */
  function IsoFields(s: string): Date
    requires IsoShaped(s)
  {
    Date(100 * Two(s, 0) + Two(s, 2), Two(s, 5), Two(s, 8))
  }

  /**
   * `new Date(s)` for the date-only ISO form: the calendar date when `s` is `YYYY-MM-DD`
   * naming a real day, otherwise an invalid date.
   */
  function ParseIsoDate(s: string): (r: Option<Date>)
    ensures r.Some? ==> ValidDate(r.value) && 0 <= r.value.year <= 9999
  {
    if IsoShaped(s) && ValidDate(IsoFields(s)) then Some(IsoFields(s)) else None
  }

  /** Two digits print back as themselves. */
  lemma Pad2OfDigits(s: string, k: nat)
    requires k + 2 <= |s| && IsDigit(s[k]) && IsDigit(s[k + 1])
    ensures Pad2(Two(s, k)) == s[k..k + 2]
  {
    var n := Two(s, k);
    if n >= 10 {
      assert NatToString(n) == NatToString(n / 10) + [DigitChar(n % 10)];
      assert n / 10 == DigitValue(s[k]) && n % 10 == DigitValue(s[k + 1]);
    } else {
      assert DigitValue(s[k]) == 0 && s[k] == '0';
    }
  }

  /** A four-digit number from 1000 on prints as its four digits. */
  lemma FourDigits(s: string, k: nat)
    requires k + 4 <= |s| && forall i :: k <= i < k + 4 ==> IsDigit(s[i])
    requires s[k] != '0'
    ensures NatToString(100 * Two(s, k) + Two(s, k + 2)) == s[k..k + 4]
  {
    var n := 100 * Two(s, k) + Two(s, k + 2);
    var a, b, c, d := DigitValue(s[k]), DigitValue(s[k + 1]), DigitValue(s[k + 2]), DigitValue(s[k + 3]);
    assert n == 1000 * a + 100 * b + 10 * c + d;
    assert n / 10 == 100 * a + 10 * b + c && n % 10 == d;
    assert n / 100 == 10 * a + b && (n / 10) % 10 == c;
    assert n / 1000 == a && (n / 100) % 10 == b;
    assert a >= 1;
    assert NatToString(n / 1000) == [s[k]];
    assert NatToString(n / 100) == [s[k], s[k + 1]];
    assert NatToString(n / 10) == [s[k], s[k + 1], s[k + 2]];
    assert NatToString(n) == [s[k], s[k + 1], s[k + 2], s[k + 3]];
  }
}
