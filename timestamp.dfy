/** The run timestamp: the wall-clock reading taken once before the per-style
    loop, printed with the strftime pattern `%Y%m%d_%H%M%S`. The clock itself is
    an input here; this module only formats and decodes its reading. */
module Timestamp {
  import opened Wrappers
  import opened Decimal

  /** A reading of Python's `datetime.now()` (the sub-second part is never printed). */
  datatype DateTime = DateTime(year: nat, month: nat, day: nat, hour: nat, minute: nat, second: nat)
  {
    /** The ranges Python's `datetime` enforces for every instance. */
    predicate Valid()
    {
      && 1 <= year <= 9999
      && 1 <= month <= 12
      && 1 <= day <= DaysInMonth(year, month)
      && hour < 24
      && minute < 60
      && second < 60
    }
  }

  predicate IsLeapYear(year: nat)
  {
    year % 4 == 0 && (year % 100 != 0 || year % 400 == 0)
  }

  function DaysInMonth(year: nat, month: nat): nat
  {
    if month == 2 then (if IsLeapYear(year) then 29 else 28)
    else if month == 4 || month == 6 || month == 9 || month == 11 then 30
    else 31
  }

  /** Length of every formatted timestamp: eight date digits, `_`, six time digits. */
  const Width: nat := 15

  /** `t.strftime("%Y%m%d_%H%M%S")`: every field zero-padded, the year to four
      digits and the others to two, with one underscore between date and time. */
  function Format(t: DateTime): (s: string)
    requires t.Valid()
    ensures |s| == Width && s[8] == '_'
    ensures AllDigits(s[..8]) && AllDigits(s[9..])
  {
    var s := Padded(t.year, 4) + Padded(t.month, 2) + Padded(t.day, 2) + "_"
             + Padded(t.hour, 2) + Padded(t.minute, 2) + Padded(t.second, 2);
    assert s[..8] == Padded(t.year, 4) + Padded(t.month, 2) + Padded(t.day, 2);
    assert s[9..] == Padded(t.hour, 2) + Padded(t.minute, 2) + Padded(t.second, 2);
    s
  }

  /** Reads a `%Y%m%d_%H%M%S` string back into the date and time it names; None
      when the shape is wrong or the fields name no valid date and time. */
  function Parse(s: string): (r: Option<DateTime>)
  {
    if |s| != Width || s[8] != '_' || !AllDigits(s[..8]) || !AllDigits(s[9..]) then None
    else
      assert AllDigits(s[0..4]) && AllDigits(s[4..6]) && AllDigits(s[6..8]);
      assert AllDigits(s[9..11]) && AllDigits(s[11..13]) && AllDigits(s[13..15]);
      var t := DateTime(ValueOf(s[0..4]), ValueOf(s[4..6]), ValueOf(s[6..8]),
                        ValueOf(s[9..11]), ValueOf(s[11..13]), ValueOf(s[13..15]));
      if t.Valid() then Some(t) else None
  }

  /** The six fields of a `%Y%m%d_%H%M%S` string sit at fixed positions. */
  lemma FieldPositions(y: string, mo: string, d: string, h: string, mi: string, se: string)
    requires |y| == 4 && |mo| == 2 && |d| == 2 && |h| == 2 && |mi| == 2 && |se| == 2
    ensures var s := y + mo + d + "_" + h + mi + se;
      && s[0..4] == y && s[4..6] == mo && s[6..8] == d
      && s[9..11] == h && s[11..13] == mi && s[13..15] == se
  {
  }

  /** A string of `Width` characters is its six fields and the separator, in order. */
  lemma FieldsCover(s: string)
    requires |s| == Width
    ensures s == s[0..4] + s[4..6] + s[6..8] + [s[8]] + s[9..11] + s[11..13] + s[13..15]
  {
  }

  /** Every reading of the clock is recovered from its formatted form. */
  lemma ParseFormat(t: DateTime)
    requires t.Valid()
    ensures Parse(Format(t)) == Some(t)
  {
    FieldPositions(Padded(t.year, 4), Padded(t.month, 2), Padded(t.day, 2),
                   Padded(t.hour, 2), Padded(t.minute, 2), Padded(t.second, 2));
    PaddedValue(t.year, 4);
    PaddedValue(t.month, 2);
    PaddedValue(t.day, 2);
    PaddedValue(t.hour, 2);
    PaddedValue(t.minute, 2);
    PaddedValue(t.second, 2);
  }

  /** Every string that decodes is the formatted form of what it decodes to, so
      distinct timestamps name distinct clock readings. */
  lemma FormatParse(s: string)
    requires Parse(s).Some?
    ensures Format(Parse(s).value) == s
  {
    assert AllDigits(s[0..4]) && AllDigits(s[4..6]) && AllDigits(s[6..8]);
    assert AllDigits(s[9..11]) && AllDigits(s[11..13]) && AllDigits(s[13..15]);
    ValuePadded(s[0..4]);
    ValuePadded(s[4..6]);
    ValuePadded(s[6..8]);
    ValuePadded(s[9..11]);
    ValuePadded(s[11..13]);
    ValuePadded(s[13..15]);
    FieldsCover(s);
  }
}
