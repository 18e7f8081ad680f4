/** Dates as the pipeline uses them: `Date.today`, `Date#saturday?`,
    `Date#sunday?`, `date + n` and `Date#iso8601`. A date is a day ordinal,
    the number of days since 1970-01-01 in the proleptic Gregorian calendar. */
module Calendar {
  import opened RubyText
  import opened Decimal

  /** `Date#wday`: 0 is Sunday, 6 is Saturday; 1970-01-01 was a Thursday. */
  function Wday(day: int): (w: int)
    ensures 0 <= w < 7
  {
    (day + 4) % 7
  }

  /** Day 0 is 1970-01-01 both as a calendar date and as a Thursday, so
      `Wday` and `Iso8601` agree on every day. */
  lemma Epoch()
    ensures CivilFromDays(0) == Civil(1970, 1, 1) && Wday(0) == 4
  {
  }

  predicate IsSaturday(day: int) {
    Wday(day) == 6
  }

  predicate IsSunday(day: int) {
    Wday(day) == 0
  }

  predicate IsWeekday(day: int) {
    1 <= Wday(day) <= 5
  }

  /** A calendar date as year, month (1-12) and day of month. */
  datatype Civil = Civil(year: int, month: int, day: int)

  /** Days from the start of a 400-year era (a March 1st) to March 1st of
      its year `yoe`. */
  function YearStart(yoe: int): int {
    365 * yoe + yoe / 4 - yoe / 100
  }

  /** The year of a 400-year era that the era's day `doe` falls in: whole
      centuries of 36524 days (the last one has 36525), then 4-year groups of
      1461 days (the last of a century may have 1460), then years of 365. */
  function YearOfEra(doe: int): (yoe: int)
    requires 0 <= doe <= 146096
    ensures 0 <= yoe <= 399
    ensures YearStart(yoe) <= doe <= YearStart(yoe) + 365
  {
    var c := if doe / 36524 < 3 then doe / 36524 else 3;
    var r1 := doe - 36524 * c;
    var g := r1 / 1461;
    var r2 := r1 - 1461 * g;
    var yy := if r2 / 365 < 3 then r2 / 365 else 3;
    var yoe := 100 * c + 4 * g + yy;
    assert 0 <= r1 <= 36524 && 0 <= g <= 24 && 0 <= r2 <= 1460 && 0 <= yy <= 3;
    assert yoe / 4 == 25 * c + g;
    assert yoe / 100 == c;
    assert YearStart(yoe) == 36524 * c + 1461 * g + 365 * yy;
    yoe
  }

  /** Days from March 1st to a month and day, counting the year from March. */
  function DayOfYear(month: int, day: int): int {
    var mp := if month > 2 then month - 3 else month + 9;
    (153 * mp + 2) / 5 + day - 1
  }

  /** The month and day of a day of a March-based year. */
  function MonthDayOf(doy: int): (md: (int, int))
    requires 0 <= doy <= 365
    ensures 1 <= md.0 <= 12 && 1 <= md.1 <= 31
    ensures DayOfYear(md.0, md.1) == doy
  {
    var mp := (5 * doy + 2) / 153;
    assert 0 <= mp <= 11;
    var d := doy - (153 * mp + 2) / 5 + 1;
    (if mp < 10 then mp + 3 else mp - 9, d)
  }

  /** The day ordinal of a calendar date (years counted from March, in
      400-year eras of 146097 days). */
  function DaysFromCivil(c: Civil): int {
    var y := if c.month <= 2 then c.year - 1 else c.year;
    var era := y / 400;
    var yoe := y - era * 400;
    era * 146097 + YearStart(yoe) + DayOfYear(c.month, c.day) - 719468
  }

  /** The calendar date of day `doe` of 400-year era `era`. */
  function CivilOfEra(era: int, doe: int): (c: Civil)
    requires 0 <= doe <= 146096
    ensures 1 <= c.month <= 12 && 1 <= c.day <= 31
  {
    var yoe := YearOfEra(doe);
    var md := MonthDayOf(doe - YearStart(yoe));
    var y := yoe + era * 400;
    Civil(if md.0 <= 2 then y + 1 else y, md.0, md.1)
  }

  /** The calendar date of a day ordinal. */
  function CivilFromDays(n: int): (c: Civil)
    ensures 1 <= c.month <= 12 && 1 <= c.day <= 31
  {
    var z := n + 719468;
    var era := z / 146097;
    CivilOfEra(era, z - era * 146097)
  }

  lemma CivilOfEraRoundTrip(era: int, doe: int)
    requires 0 <= doe <= 146096
    ensures DaysFromCivil(CivilOfEra(era, doe)) == era * 146097 + doe - 719468
  {
    var yoe := YearOfEra(doe);
    EraSplit(yoe, era);
  }

  /** Converting to a calendar date and back gives the same day. */
  lemma CivilRoundTrip(n: int)
    ensures DaysFromCivil(CivilFromDays(n)) == n
  {
    var z := n + 719468;
    var era := z / 146097;
    CivilOfEraRoundTrip(era, z - era * 146097);
  }

  lemma EraSplit(yoe: int, era: int)
    requires 0 <= yoe < 400
    ensures (yoe + era * 400) / 400 == era
  {
  }

  /** `n` in decimal, zero-padded to at least `width` digits. */
  function PadTo(n: nat, width: nat): (s: string)
    requires width >= 1
    ensures |s| >= width && AllDigits(s)
    ensures DigitsValue(s) == n
    ensures n < Pow10(width) ==> |s| == width
  {
    if n < Pow10(width) then Padded(n, width)
    else
      DigitsLengthAtLeast(n, width);
      Digits(n)
  }

  lemma {:induction false} DigitsLengthAtLeast(n: nat, w: nat)
    requires n >= Pow10(w)
    ensures |Digits(n)| > w
    decreases w
  {
    if w > 0 {
      DigitsLengthAtLeast(n / 10, w - 1);
    }
  }

  predicate IsDateChar(c: char) {
    IsDigit(c) || c == '-'
  }

  predicate AllDateChars(s: string) {
    forall i :: 0 <= i < |s| ==> IsDateChar(s[i])
  }

  lemma DateCharsConcat(a: string, b: string)
    requires AllDateChars(a) && AllDateChars(b)
    ensures AllDateChars(a + b)
  {
    forall i | 0 <= i < |a + b| ensures IsDateChar((a + b)[i]) {
      if i >= |a| {
        assert (a + b)[i] == b[i - |a|];
      }
    }
  }

  /** A calendar date as `strftime("%Y-%m-%d")` writes it: the year has at
      least four digits and a sign only when negative, the month and day
      two digits each. */
  function DateText(c: Civil): (s: string)
    requires 1 <= c.month <= 12 && 1 <= c.day <= 31
    ensures |s| >= 10 && AllDateChars(s)
  {
    var digits := PadTo(if c.year < 0 then -c.year else c.year, 4);
    var year := (if c.year < 0 then "-" else "") + digits;
    DateCharsConcat(if c.year < 0 then "-" else "", digits);
    DateCharsConcat(year, "-");
    DateCharsConcat(year + "-", PadTo(c.month, 2));
    DateCharsConcat(year + "-" + PadTo(c.month, 2), "-");
    DateCharsConcat(year + "-" + PadTo(c.month, 2) + "-", PadTo(c.day, 2));
    year + "-" + PadTo(c.month, 2) + "-" + PadTo(c.day, 2)
  }

  /** `Date#iso8601`: the text of the day's calendar date. */
  function Iso8601(day: int): (s: string)
    ensures |s| >= 10 && AllDateChars(s)
  {
    DateText(CivilFromDays(day))
  }

  /** A year from its text: digits, with a leading '-' when negative. */
  function YearOf(text: string): Option<int> {
    var negative := |text| > 0 && text[0] == '-';
    var digits := if negative then text[1..] else text;
    if !AllDigits(digits) then None
    else
      var y: int := DigitsValue(digits);
      Some(if negative then -y else y)
  }

  /** A calendar date from its year text, its month digits and its day
      digits. */
  function CivilOf(year: string, month: string, day: string): Option<Civil> {
    match YearOf(year)
    case None => None
    case Some(y) =>
      if !AllDigits(month) || !AllDigits(day) then None
      else Some(Civil(y, DigitsValue(month), DigitsValue(day)))
  }

  /** Reads a "[-]YYYY-MM-DD" text back as a calendar date: the last six
      characters are "-MM-DD", and what comes before them is the year. */
  function ReadCivil(s: string): Option<Civil> {
    if |s| < 10 || s[|s| - 6] != '-' || s[|s| - 3] != '-' then None
    else CivilOf(s[..|s| - 6], s[|s| - 5..|s| - 3], s[|s| - 2..])
  }

  /** Reads an ISO date text back as a day ordinal. */
  function ParseIso8601(s: string): Option<int> {
    match ReadCivil(s)
    case None => None
    case Some(c) => Some(DaysFromCivil(c))
  }

  /** A text of a sign, at least four year digits, and two digits each of
      month and day, joined by '-', is read back as that date. */
  lemma ParsePieces(negative: bool, digits: string, month: string, day: string)
    requires |digits| >= 4 && AllDigits(digits) && |month| == 2 && AllDigits(month)
    requires |day| == 2 && AllDigits(day)
    ensures var year: int := DigitsValue(digits);
      ReadCivil((if negative then "-" else "") + digits + "-" + month + "-" + day)
        == Some(Civil(if negative then -year else year, DigitsValue(month), DigitsValue(day)))
  {
    var sign := if negative then "-" else "";
    var s := sign + digits + "-" + month + "-" + day;
    assert s[|s| - 6] == '-' && s[|s| - 3] == '-';
    assert s[..|s| - 6] == sign + digits;
    assert s[|s| - 5..|s| - 3] == month;
    assert s[|s| - 2..] == day;
    assert ReadCivil(s) == CivilOf(sign + digits, month, day);
    SignedYear(negative, digits, month, day);
  }

  /** A year text is read with its sign. */
  lemma SignedYear(negative: bool, digits: string, month: string, day: string)
    requires |digits| >= 1 && AllDigits(digits) && AllDigits(month) && AllDigits(day)
    ensures var year: int := DigitsValue(digits);
      CivilOf((if negative then "-" else "") + digits, month, day)
        == Some(Civil(if negative then -year else year, DigitsValue(month), DigitsValue(day)))
  {
    if negative {
      NegativeYear(digits);
    } else {
      assert "" + digits == digits;
      UnsignedYear(digits);
    }
  }

  lemma UnsignedYear(digits: string)
    requires |digits| >= 1 && AllDigits(digits)
    ensures YearOf(digits) == Some(DigitsValue(digits) as int)
  {
    assert IsDigit(digits[0]);
  }

  lemma NegativeYear(digits: string)
    requires AllDigits(digits)
    ensures YearOf("-" + digits) == Some(0 - DigitsValue(digits))
  {
    var text := "-" + digits;
    assert text[0] == '-' && text[1..] == digits;
  }

  /** Reading a date text gives back the day of the date it was written
      from. */
  lemma DateTextRoundTrip(c: Civil)
    requires 1 <= c.month <= 12 && 1 <= c.day <= 31
    ensures ParseIso8601(DateText(c)) == Some(DaysFromCivil(c))
  {
    var digits := PadTo(if c.year < 0 then -c.year else c.year, 4);
    var month, day := PadTo(c.month, 2), PadTo(c.day, 2);
    assert Pow10(2) == 100;
    ParsePieces(c.year < 0, digits, month, day);
    assert ReadCivil(DateText(c)) == Some(c);
  }

  /** Reading `Iso8601`'s text gives back the day. */
  lemma Iso8601RoundTrip(day: int)
    ensures ParseIso8601(Iso8601(day)) == Some(day)
  {
    DateTextRoundTrip(CivilFromDays(day));
    CivilRoundTrip(day);
  }

  /** Different days have different ISO texts. */
  lemma Iso8601Injective(a: int, b: int)
    requires Iso8601(a) == Iso8601(b)
    ensures a == b
  {
    Iso8601RoundTrip(a);
    Iso8601RoundTrip(b);
  }

  /** A date never holds the '/' that separates cache-key fields. */
  lemma DateHasNoSlash(s: string)
    requires AllDateChars(s)
    ensures '/' !in s
  {
  }
}
