/** The default invoice number `INV-YYYYMMDD-RRRR` the form proposes
    (components/InvoiceForm.tsx, generateInvoiceNumber). The clock and the
    random draw are parameters. */
module InvoiceNumber {
  import opened Optional
  import opened JsText

  /** What `new Date()` gives the generator: `getFullYear()`, the zero-based
      `getMonth()` and the day of the month `getDate()`. */
  datatype Clock = Clock(year: int, month0: int, day: int)

  predicate ValidClock(c: Clock)
  {
    0 <= c.month0 <= 11 && 1 <= c.day <= 31
  }

  /** `Math.floor(u * 9000) + 1000` for a draw `u` of `Math.random()`. */
  function RandomSuffix(u: real): (r: int)
    requires 0.0 <= u < 1.0
    ensures 1000 <= r <= 9999
  {
    (u * 9000.0).Floor + 1000
  }

  /** Every four-digit suffix is drawn by some value of `Math.random()`. */
  lemma SuffixReachable(k: int)
    requires 1000 <= k <= 9999
    ensures var u := (k - 1000) as real / 9000.0;
            0.0 <= u < 1.0 && RandomSuffix(u) == k
  {
  }

  /** A month or day number written with two digits, zero-padded. */
  function TwoDigits(n: nat): (r: string)
    requires 1 <= n <= 99
    ensures |r| == 2 && AllDigits(r) && DigitsValue(r) == n
  {
    var hi, lo := DigitChar(n / 10), DigitChar(n % 10);
    var r := [hi, lo];
    assert r[..1] == [hi] && [hi][..0] == [];
    assert DigitsValue([hi]) == n / 10;
    r
  }

  /** The two digits are `String(n).padStart(2, "0")`. */
  lemma TwoDigitsIsPadStart(n: nat)
    requires 1 <= n <= 99
    ensures TwoDigits(n) == PadStart(NatToString(n), 2, '0')
  {
    if n < 10 {
      PadOneDigit(n);
    } else {
      PadTwoDigits(n);
    }
  }

  /** TwoDigitsIsPadStart for n below 10. */
  lemma PadOneDigit(n: nat)
    requires 1 <= n < 10
    ensures TwoDigits(n) == PadStart(NatToString(n), 2, '0')
  {
    assert NatToString(n) == [DigitChar(n)];
    PadOne(NatToString(n));
  }

  /** TwoDigitsIsPadStart for n from 10 on. */
  lemma PadTwoDigits(n: nat)
    requires 10 <= n <= 99
    ensures TwoDigits(n) == PadStart(NatToString(n), 2, '0')
  {
    assert NatToString(n / 10) == [DigitChar(n / 10)];
    assert NatToString(n) == [DigitChar(n / 10), DigitChar(n % 10)];
    PadTwo(NatToString(n));
  }

  /** Padding one character to two puts one '0' before it. */
  lemma PadOne(s: string)
    requires |s| == 1
    ensures PadStart(s, 2, '0') == ['0'] + s
  {
    assert PadStart(s, 2, '0') == PadStart(['0'] + s, 2, '0');
  }

  /** Padding two characters to two leaves them alone. */
  lemma PadTwo(s: string)
    requires |s| == 2
    ensures PadStart(s, 2, '0') == s
  {
  }

  /** "INV-", the date digits, "-", the suffix digits. */
  function Layout(y: string, m: string, d: string, rr: string): string
  {
    "INV-" + y + m + d + "-" + rr
  }

  /** `generateInvoiceNumber()`: "INV-", the year, the month and day padded to two
      digits, "-", and the random suffix. */
  function GenerateInvoiceNumber(c: Clock, u: real): (r: string)
    requires ValidClock(c) && 0.0 <= u < 1.0
    ensures |r| >= 14
  {
    var suffix := RandomSuffix(u);
    SuffixDigits(suffix);
    Layout(IntToString(c.year), TwoDigits(c.month0 + 1), TwoDigits(c.day), IntToString(suffix))
  }

  /** A generated number starts with "INV-", has a dash before its last four characters,
      and those are the digits of a number from 1000 to 9999. */
  lemma GeneratedFormat(c: Clock, u: real)
    requires ValidClock(c) && 0.0 <= u < 1.0
    ensures var r := GenerateInvoiceNumber(c, u);
            r[..4] == "INV-" && r[|r| - 5] == '-'
            && AllDigits(r[|r| - 4..]) && 1000 <= DigitsValue(r[|r| - 4..]) <= 9999
  {
    var suffix := RandomSuffix(u);
    var y, m, d, rr := IntToString(c.year), TwoDigits(c.month0 + 1), TwoDigits(c.day), IntToString(suffix);
    SuffixDigits(suffix);
    assert GenerateInvoiceNumber(c, u) == Layout(y, m, d, rr);
    LayoutFormat(y, m, d, rr);
  }

  /** The format facts of any layout with a four-digit suffix from 1000 to 9999. */
  lemma LayoutFormat(y: string, m: string, d: string, rr: string)
    requires |y| >= 1 && |m| == 2 && |d| == 2 && |rr| == 4
    requires AllDigits(rr) && 1000 <= DigitsValue(rr) <= 9999
    ensures var r := Layout(y, m, d, rr);
            |r| >= 14 && r[..4] == "INV-" && r[|r| - 5] == '-'
            && AllDigits(r[|r| - 4..]) && 1000 <= DigitsValue(r[|r| - 4..]) <= 9999
  {
    LayoutSlices(y, m, d, rr);
  }

  /** A suffix in [1000, 9999] prints as exactly four digits. */
  lemma SuffixDigits(k: int)
    requires 1000 <= k <= 9999
    ensures |IntToString(k)| == 4 && AllDigits(IntToString(k))
    ensures DigitsValue(IntToString(k)) == k
  {
    DigitsValueOfNatToString(k);
    assert Width(k / 1000) == 1;
  }

  /** The parts an invoice number carries. */
  datatype Stamp = Stamp(year: nat, month: nat, day: nat, suffix: nat)

  /** Reads `INV-<year>MMDD-RRRR` back into its parts: the four digits before the
      second dash are month and day, everything between "INV-" and them is the year. */
  function ParseInvoiceNumber(s: string): Option<Stamp>
  {
    if |s| < 14 || s[..4] != "INV-" || s[|s| - 5] != '-' then None
    else
      var date := s[4..|s| - 5];
      var suffix := s[|s| - 4..];
      if !AllDigits(date) || !AllDigits(suffix) then None
      else
        Some(Stamp(DigitsValue(date[..|date| - 4]),
                   DigitsValue(date[|date| - 4..|date| - 2]),
                   DigitsValue(date[|date| - 2..]),
                   DigitsValue(suffix)))
  }

  /** Where the dashes and the digit groups of a laid-out invoice number sit. */
  lemma LayoutSlices(y: string, m: string, d: string, rr: string)
    requires |y| >= 1 && |m| == 2 && |d| == 2 && |rr| == 4
    ensures var s := Layout(y, m, d, rr);
            |s| >= 14 && s[..4] == "INV-" && s[|s| - 5] == '-'
            && s[4..|s| - 5] == y + m + d && s[|s| - 4..] == rr
  {
    var date := y + m + d;
    var s := "INV-" + date + "-" + rr;
    assert Layout(y, m, d, rr) == s;
    assert s[..4] == "INV-";
    assert s[4..|s| - 5] == date;
  }

  /** Where year, month and day sit in the date part. */
  lemma DateSlices(y: string, m: string, d: string)
    requires |m| == 2 && |d| == 2
    ensures var date := y + m + d;
            date[..|date| - 4] == y && date[|date| - 4..|date| - 2] == m && date[|date| - 2..] == d
  {
  }

  /** Any number laid out as "INV-", year digits, two month digits, two day digits,
      "-" and four suffix digits reads back as those four values. */
  lemma ParseLayout(y: string, m: string, d: string, rr: string)
    requires |y| >= 1 && |m| == 2 && |d| == 2 && |rr| == 4
    requires AllDigits(y) && AllDigits(m) && AllDigits(d) && AllDigits(rr)
    ensures ParseInvoiceNumber(Layout(y, m, d, rr))
            == Some(Stamp(DigitsValue(y), DigitsValue(m), DigitsValue(d), DigitsValue(rr)))
  {
    var date := y + m + d;
    LayoutSlices(y, m, d, rr);
    DateSlices(y, m, d);
    assert AllDigits(date);
  }

  /** For a year from 0 on, the generated number reads back as the clock's year,
      the one-based month, the day and the random suffix. */
  lemma ParseGenerated(c: Clock, u: real)
    requires ValidClock(c) && 0.0 <= u < 1.0 && c.year >= 0
    ensures ParseInvoiceNumber(GenerateInvoiceNumber(c, u))
            == Some(Stamp(c.year, c.month0 + 1, c.day, RandomSuffix(u)))
  {
    var k := RandomSuffix(u);
    assert GenerateInvoiceNumber(c, u)
           == Layout(NatToString(c.year), TwoDigits(c.month0 + 1), TwoDigits(c.day), IntToString(k));
    ParseParts(c.year, c.month0 + 1, c.day, k);
  }

  /** The parse of a layout built from a year, a month, a day and a suffix. */
  lemma ParseParts(year: nat, month: nat, day: nat, k: int)
    requires 1 <= month <= 12 && 1 <= day <= 31 && 1000 <= k <= 9999
    ensures ParseInvoiceNumber(Layout(NatToString(year), TwoDigits(month), TwoDigits(day), IntToString(k)))
            == Some(Stamp(year, month, day, k))
  {
    SuffixDigits(k);
    DigitsValueOfNatToString(year);
    ParseLayout(NatToString(year), TwoDigits(month), TwoDigits(day), IntToString(k));
  }
}
