/** Bill numbers of the form `INV-YYMMDD-NNN`: the last two digits of the
    year, the month and the day of the month (two digits each), and a
    three-digit random suffix. */
module BillNumbers {
  import opened Wrappers
  import opened Text

  /** The number the billing page mints from the clock and a random draw:
      `monthIndex` is the 0-based month `getMonth()` returns and `random` is
      `Math.floor(Math.random() * 1000)`. */
  function BillNumber(year: nat, monthIndex: nat, day: nat, random: nat): string
  {
    "INV-" + TakeLast(Decimal(year), 2)
      + PadStart(Decimal(monthIndex + 1), 2, '0')
      + PadStart(Decimal(day), 2, '0')
      + "-" + PadStart(Decimal(random), 3, '0')
  }

  /** What a `Date` and `Math.random` can deliver. */
  predicate ClockParts(monthIndex: nat, day: nat, random: nat)
  {
    monthIndex < 12 && 1 <= day <= 31 && random < 1000
  }

  /** `INV-\d{6}-\d{3}`. */
  predicate WellFormed(s: string)
  {
    && |s| == 14
    && s[..4] == "INV-"
    && AllDigits(s[4..6]) && AllDigits(s[6..8]) && AllDigits(s[8..10])
    && s[10] == '-'
    && AllDigits(s[11..])
  }

  datatype Parts = Parts(year: nat, month: nat, day: nat, suffix: nat)

  /** Reads the fields back out of a bill number. */
  function Parse(s: string): (r: Option<Parts>)
    ensures r.Some? <==> WellFormed(s)
  {
    if WellFormed(s) then
      Some(Parts(DigitsValue(s[4..6]), DigitsValue(s[6..8]), DigitsValue(s[8..10]), DigitsValue(s[11..])))
    else
      None
  }

  /** Joining four digit fields of widths 2, 2, 2 and 3 gives a well-formed
      number that reads back as those fields. */
  lemma {:induction false} AssembleParse(y: string, m: string, d: string, n: string)
    requires |y| == 2 && |m| == 2 && |d| == 2 && |n| == 3
    requires AllDigits(y) && AllDigits(m) && AllDigits(d) && AllDigits(n)
    ensures WellFormed("INV-" + y + m + d + "-" + n)
    ensures Parse("INV-" + y + m + d + "-" + n)
         == Some(Parts(DigitsValue(y), DigitsValue(m), DigitsValue(d), DigitsValue(n)))
  {
    var s := "INV-" + y + m + d + "-" + n;
    assert s[..4] == "INV-";
    assert s[4..6] == y;
    assert s[6..8] == m;
    assert s[8..10] == d;
    assert s[10] == '-';
    assert s[11..] == n;
  }

  /** A number minted from a real clock reading is well formed, fourteen
      characters long, and reads back as the year modulo 100, the 1-based
      month, the day and the random suffix. */
  lemma BillNumberRoundTrip(year: nat, monthIndex: nat, day: nat, random: nat)
    requires year >= 10 && ClockParts(monthIndex, day, random)
    ensures WellFormed(BillNumber(year, monthIndex, day, random))
    ensures Parse(BillNumber(year, monthIndex, day, random)) == Some(Parts(year % 100, monthIndex + 1, day, random))
  {
    LastTwoDigits(year);
    DecimalLength(monthIndex + 1);
    DecimalLength(day);
    DecimalLength(random);
    PadDecimal(monthIndex + 1, 2);
    PadDecimal(day, 2);
    PadDecimal(random, 3);
    AssembleParse(TakeLast(Decimal(year), 2), PadStart(Decimal(monthIndex + 1), 2, '0'),
                  PadStart(Decimal(day), 2, '0'), PadStart(Decimal(random), 3, '0'));
  }

  /** Before year 10 `slice(-2)` keeps a single digit, and the number is one
      character short. */
  lemma ShortYearBillNumber(year: nat, monthIndex: nat, day: nat, random: nat)
    requires year < 10 && ClockParts(monthIndex, day, random)
    ensures |BillNumber(year, monthIndex, day, random)| == 13
    ensures !WellFormed(BillNumber(year, monthIndex, day, random))
  {
    var y := TakeLast(Decimal(year), 2);
    var m := PadStart(Decimal(monthIndex + 1), 2, '0');
    var d := PadStart(Decimal(day), 2, '0');
    var n := PadStart(Decimal(random), 3, '0');
    assert |y| == 1 by { DecimalLength(year); }
    assert |m| == 2 by { DecimalLength(monthIndex + 1); }
    assert |d| == 2 by { DecimalLength(day); }
    assert |n| == 3 by { DecimalLength(random); }
    assert BillNumber(year, monthIndex, day, random) == "INV-" + y + m + d + "-" + n;
  }
}
