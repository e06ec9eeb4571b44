/** The due-date rule of the invoice form: a `yyyy-MM-dd` text that names a
    real day of the Gregorian calendar. */
module Dates {
  import opened Wrappers
  import opened Invoices

  predicate IsLeapYear(y: int)
  {
    y % 4 == 0 && (y % 100 != 0 || y % 400 == 0)
  }

  function DaysInMonth(y: int, m: int): (n: int)
    requires 1 <= m <= 12
    ensures 28 <= n <= 31
    ensures m == 2 ==> n == if IsLeapYear(y) then 29 else 28
    ensures m == 4 || m == 6 || m == 9 || m == 11 ==> n == 30
    ensures m == 1 || m == 3 || m == 5 || m == 7 || m == 8 || m == 10 || m == 12 ==> n == 31
  {
    if m == 2 then (if IsLeapYear(y) then 29 else 28)
    else if m == 4 || m == 6 || m == 9 || m == 11 then 30
    else 31
  }

  /** A day that exists in the Gregorian calendar. */
  predicate ValidDate(d: Date)
  {
    1 <= d.month <= 12 && 1 <= d.day <= DaysInMonth(d.year, d.month)
  }

  /** A date that the four-digit `yyyy` field accepts: years 1 to 9999 (the
      parser refuses year 0). */
  predicate Spellable(d: Date)
  {
    1 <= d.year <= 9999 && ValidDate(d)
  }

  predicate IsDigit(c: char)
  {
    '0' <= c <= '9'
  }

  function DigitValue(c: char): (n: int)
    requires IsDigit(c)
    ensures 0 <= n <= 9
  {
    c as int - '0' as int
  }

  function DigitChar(n: int): (c: char)
    requires 0 <= n <= 9
    ensures IsDigit(c) && DigitValue(c) == n
  {
    ('0' as int + n) as char
  }

  predicate AllDigits(s: string)
  {
    forall i :: 0 <= i < |s| ==> IsDigit(s[i])
  }

  /** The number a run of decimal digits denotes, most significant first. */
  function Number(s: string): (n: nat)
    requires AllDigits(s)
  {
    if s == [] then 0 else 10 * Number(s[..|s| - 1]) + DigitValue(s[|s| - 1])
  }

  /** The text of `n` in exactly `width` digits, with leading zeros. */
  function Padded(n: nat, width: nat): (s: string)
    ensures |s| == width && AllDigits(s)
  {
    if width == 0 then [] else Padded(n / 10, width - 1) + [DigitChar(n % 10)]
  }

  function Power10(k: nat): (p: nat)
    ensures p >= 1
  {
    if k == 0 then 1 else 10 * Power10(k - 1)
  }

  /** Digits spell back the number they denote, up to `10^width`. */
  lemma {:induction false} NumberPadded(n: nat, width: nat)
    requires n < Power10(width)
    ensures Number(Padded(n, width)) == n
  {
    if width > 0 {
      var s := Padded(n, width);
      assert s[..|s| - 1] == Padded(n / 10, width - 1);
      NumberPadded(n / 10, width - 1);
    }
  }

  /** A digit run is the padded form of its own number. */
  lemma {:induction false} PaddedNumber(s: string)
    requires AllDigits(s)
    ensures Number(s) < Power10(|s|)
    ensures Padded(Number(s), |s|) == s
  {
    if s != [] {
      var init := s[..|s| - 1];
      PaddedNumber(init);
      assert (10 * Number(init) + DigitValue(s[|s| - 1])) / 10 == Number(init);
      assert (10 * Number(init) + DigitValue(s[|s| - 1])) % 10 == DigitValue(s[|s| - 1]);
      assert s == init + [s[|s| - 1]];
    }
  }

  /** The shape `dddd-dd-dd`. */
  predicate IsoShaped(s: string)
  {
    |s| == 10 && s[4] == '-' && s[7] == '-'
    && AllDigits(s[..4]) && AllDigits(s[5..7]) && AllDigits(s[8..])
  }

  /** Parse a `yyyy-MM-dd` due date; None when the text has another shape or
      names a day the calendar does not have (month 13, 31 April, 29 February
      of a common year, or any day of year 0). */
  function ParseDate(s: string): (r: Option<Date>)
    ensures r.Some? ==> IsoShaped(s) && Spellable(r.value)
  {
    if IsoShaped(s) then
      var d := Date(Number(s[..4]), Number(s[5..7]), Number(s[8..]));
      PaddedNumber(s[..4]);
      if Spellable(d) then Some(d) else None
    else None
  }

  /** The `yyyy-MM-dd` text of a date. */
  function FormatDate(d: Date): (s: string)
    requires Spellable(d)
    ensures IsoShaped(s)
  {
    var s := Padded(d.year, 4) + "-" + Padded(d.month, 2) + "-" + Padded(d.day, 2);
    assert s[..4] == Padded(d.year, 4);
    assert s[5..7] == Padded(d.month, 2);
    assert s[8..] == Padded(d.day, 2);
    s
  }

  /** Every date the format can spell is read back unchanged. */
  lemma ParseFormat(d: Date)
    requires Spellable(d)
    ensures ParseDate(FormatDate(d)) == Some(d)
  {
    var s := FormatDate(d);
    assert s[..4] == Padded(d.year, 4);
    assert s[5..7] == Padded(d.month, 2);
    assert s[8..] == Padded(d.day, 2);
    NumberPadded(d.year, 4);
    NumberPadded(d.month, 2);
    NumberPadded(d.day, 2);
  }

  /** Every accepted text is the canonical spelling of the date it denotes:
      the parser accepts exactly the texts FormatDate produces. */
  lemma FormatParse(s: string)
    requires ParseDate(s).Some?
    ensures FormatDate(ParseDate(s).value) == s
  {
    var d := ParseDate(s).value;
    PaddedNumber(s[..4]);
    PaddedNumber(s[5..7]);
    PaddedNumber(s[8..]);
    var t := FormatDate(d);
    assert t[..4] == s[..4] && t[4] == s[4];
    assert t[5..7] == s[5..7] && t[7] == s[7];
    assert t[8..] == s[8..];
    assert t == t[..4] + [t[4]] + t[5..7] + [t[7]] + t[8..];
    assert s == s[..4] + [s[4]] + s[5..7] + [s[7]] + s[8..];
  }
}
