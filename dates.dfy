/** Calendar values as integer tuples. A successful `datetime.strptime` is modelled as a
    parse that yields a `Valid` tuple; `datetime.min` is the tuple 0001-01-01 00:00, the
    least valid value, which the source substitutes for dates it cannot parse. */
module Dates {
  import opened Wrappers
  import opened Text
  import opened Sorting

  datatype DateTime = DateTime(year: int, month: int, day: int, hour: int, minute: int)

  predicate IsLeapYear(y: int) {
    y % 4 == 0 && (y % 100 != 0 || y % 400 == 0)
  }

  function DaysInMonth(y: int, m: int): int
    requires 1 <= m <= 12
  {
    if m == 2 then (if IsLeapYear(y) then 29 else 28)
    else if m == 4 || m == 6 || m == 9 || m == 11 then 30
    else 31
  }

  /** What the `datetime` constructor accepts. */
  predicate Valid(d: DateTime) {
    && 1 <= d.year <= 9999
    && 1 <= d.month <= 12
    && 1 <= d.day <= DaysInMonth(d.year, d.month)
    && 0 <= d.hour < 24
    && 0 <= d.minute < 60
  }

  /** `datetime.min`. */
  const MinDateTime: DateTime := DateTime(1, 1, 1, 0, 0)

  /** The value `datetime` comparisons order by. */
  function Key(d: DateTime): seq<int> {
    [d.year, d.month, d.day, d.hour, d.minute]
  }

  /** The sentinel is a valid date and no valid date sorts below it, so an event whose date
      could not be parsed is ordered as the earliest. */
  lemma MinIsLeast(d: DateTime)
    requires Valid(d)
    ensures Valid(MinDateTime)
    ensures KeyLe(Key(MinDateTime), Key(d))
    ensures KeyLe(Key(d), Key(MinDateTime)) ==> d == MinDateTime
  {
    var k := Key(d);
    assert k[1..] == [d.month, d.day, d.hour, d.minute];
    assert k[2..] == [d.day, d.hour, d.minute];
    assert k[3..] == [d.hour, d.minute];
    assert k[4..] == [d.minute];
    assert k[5..] == [];
    var m := Key(MinDateTime);
    assert m[1..] == [1, 1, 0, 0] && m[2..] == [1, 0, 0] && m[3..] == [0, 0] && m[4..] == [0] && m[5..] == [];
    if KeyLe(k, m) {
      KeyLeAntisymmetric(k, m);
    }
  }

  /** One or two digits, as `%d`, `%m`, `%H` and `%M` read them. */
  predicate ShortNumber(s: string) {
    IsDigits(s) && |s| <= 2
  }

  /** Exactly four digits, as `%Y` reads them. */
  predicate FourDigits(s: string) {
    IsDigits(s) && |s| == 4
  }

  /** The date a day, month and year field denote, if the fields are well formed and the
      date exists. */
  function DateFromFields(d: string, m: string, y: string): (r: Option<DateTime>)
    ensures r.Some? ==> Valid(r.value) && r.value.hour == 0 && r.value.minute == 0
  {
    if ShortNumber(d) && ShortNumber(m) && FourDigits(y) then
      var dt := DateTime(DigitsValue(y), DigitsValue(m), DigitsValue(d), 0, 0);
      if Valid(dt) then Some(dt) else None
    else None
  }

  /** `datetime.strptime(s, '%d/%m/%Y')`. */
  function ParseDayMonthYear(s: string): (r: Option<DateTime>)
    ensures r.Some? ==> Valid(r.value)
  {
    var p := Split(s, '/');
    if |p| == 3 then DateFromFields(p[0], p[1], p[2]) else None
  }

  /** `datetime.strptime(s, '%Y-%m-%d')`. */
  function ParseYearMonthDay(s: string): (r: Option<DateTime>)
    ensures r.Some? ==> Valid(r.value)
  {
    var p := Split(s, '-');
    if |p| == 3 then DateFromFields(p[2], p[1], p[0]) else None
  }

  /** `datetime.strptime(s, '%Y-%m-%dT%H:%M')`. */
  function ParseDateHourMinute(s: string): (r: Option<DateTime>)
    ensures r.Some? ==> Valid(r.value)
  {
    var p := Split(s, 'T');
    if |p| != 2 then None
    else
      match ParseYearMonthDay(p[0])
      case None => None
      case Some(day) =>
        var t := Split(p[1], ':');
        if |t| == 2 && ShortNumber(t[0]) && ShortNumber(t[1]) then
          var dt := day.(hour := DigitsValue(t[0]), minute := DigitsValue(t[1]));
          if Valid(dt) then Some(dt) else None
        else None
  }

  /** `n` in decimal, left-padded with zeros to `width` digits. */
  function Padded(n: nat, width: nat): (r: string)
    ensures forall i :: 0 <= i < |r| ==> IsDigit(r[i])
    ensures |r| >= width
  {
    var digits := NatToString(n);
    if |digits| >= width then digits else seq(width - |digits|, _ => '0') + digits
  }

  /** A number below 10^width pads to exactly `width` digits that read back as the number. */
  lemma PaddedReadsBack(n: nat, width: nat)
    requires 1 <= width && n < Pow10(width)
    ensures |Padded(n, width)| == width
    ensures DigitsValue(Padded(n, width)) == n
  {
    var digits := NatToString(n);
    NatToStringLength(n, width);
    DigitsValueOfNatToString(n);
    if |digits| < width {
      DigitsValueLeadingZeros(seq(width - |digits|, _ => '0'), digits);
    }
  }

  /** `strftime('%d/%m/%Y')`. */
  function DayMonthYearText(d: DateTime): string
    requires Valid(d)
  {
    Padded(d.day, 2) + "/" + Padded(d.month, 2) + "/" + Padded(d.year, 4)
  }

  lemma NoSeparatorInDigits(s: string, sep: char)
    requires forall i :: 0 <= i < |s| ==> IsDigit(s[i])
    requires !IsDigit(sep)
    ensures sep !in s
  {
  }

  /** Formatting a date as dd/mm/yyyy and parsing it back with the same format gives the
      day back (the time of day is dropped). */
  lemma {:induction false} DayMonthYearRoundTrip(d: DateTime)
    requires Valid(d)
    ensures ParseDayMonthYear(DayMonthYearText(d)) == Some(d.(hour := 0, minute := 0))
  {
    assert Pow10(2) == 100 && Pow10(4) == 10000;
    var dd, mm, yy := Padded(d.day, 2), Padded(d.month, 2), Padded(d.year, 4);
    PaddedReadsBack(d.day, 2);
    PaddedReadsBack(d.month, 2);
    PaddedReadsBack(d.year, 4);
    NoSeparatorInDigits(dd, '/');
    NoSeparatorInDigits(mm, '/');
    NoSeparatorInDigits(yy, '/');
    SplitThree(dd, mm, yy, '/');
    assert DayMonthYearText(d) == dd + ['/'] + mm + ['/'] + yy;
    assert ShortNumber(dd) && ShortNumber(mm) && FourDigits(yy);
    assert DateFromFields(dd, mm, yy) == Some(d.(hour := 0, minute := 0));
  }

  /** `strftime('%Y-%m-%d')`. */
  function YearMonthDayText(d: DateTime): string
    requires Valid(d)
  {
    Padded(d.year, 4) + "-" + Padded(d.month, 2) + "-" + Padded(d.day, 2)
  }

  /** Formatting a date as yyyy-mm-dd and parsing it back with the same format gives the
      day back (the time of day is dropped). */
  lemma YearMonthDayRoundTrip(d: DateTime)
    requires Valid(d)
    ensures ParseYearMonthDay(YearMonthDayText(d)) == Some(d.(hour := 0, minute := 0))
    ensures 'T' !in YearMonthDayText(d)
  {
    assert Pow10(2) == 100 && Pow10(4) == 10000;
    var yy, mm, dd := Padded(d.year, 4), Padded(d.month, 2), Padded(d.day, 2);
    PaddedReadsBack(d.day, 2);
    PaddedReadsBack(d.month, 2);
    PaddedReadsBack(d.year, 4);
    NoSeparatorInDigits(dd, '-');
    NoSeparatorInDigits(mm, '-');
    NoSeparatorInDigits(yy, '-');
    SplitThree(yy, mm, dd, '-');
    assert YearMonthDayText(d) == yy + ['-'] + mm + ['-'] + dd;
    assert ShortNumber(dd) && ShortNumber(mm) && FourDigits(yy);
    assert DateFromFields(dd, mm, yy) == Some(d.(hour := 0, minute := 0));
    NoSeparatorInDigits(dd, 'T');
    NoSeparatorInDigits(mm, 'T');
    NoSeparatorInDigits(yy, 'T');
  }

  /** `strftime('%Y-%m-%dT%H:%M')`. */
  function DateHourMinuteText(d: DateTime): string
    requires Valid(d)
  {
    YearMonthDayText(d) + "T" + Padded(d.hour, 2) + ":" + Padded(d.minute, 2)
  }

  /** Formatting a timestamp as yyyy-mm-ddThh:mm and parsing it back with the same format
      gives the timestamp back. */
  lemma DateHourMinuteRoundTrip(d: DateTime)
    requires Valid(d)
    ensures ParseDateHourMinute(DateHourMinuteText(d)) == Some(d)
  {
    assert Pow10(2) == 100;
    var hh, mi := Padded(d.hour, 2), Padded(d.minute, 2);
    YearMonthDayRoundTrip(d);
    PaddedReadsBack(d.hour, 2);
    PaddedReadsBack(d.minute, 2);
    NoSeparatorInDigits(hh, ':');
    NoSeparatorInDigits(mi, ':');
    NoSeparatorInDigits(hh, 'T');
    NoSeparatorInDigits(mi, 'T');
    ParseJuntos(YearMonthDayText(d), hh, mi, d.(hour := 0, minute := 0));
  }

  /** A date text without 'T', then 'T', hours, ':' and minutes parses as that day at that
      time. */
  lemma ParseJuntos(dia: string, hh: string, mi: string, day: DateTime)
    requires 'T' !in dia && 'T' !in hh && 'T' !in mi && ':' !in hh && ':' !in mi
    requires ParseYearMonthDay(dia) == Some(day) && ShortNumber(hh) && ShortNumber(mi)
    requires Valid(day.(hour := DigitsValue(hh), minute := DigitsValue(mi)))
    ensures ParseDateHourMinute(dia + "T" + hh + ":" + mi) == Some(day.(hour := DigitsValue(hh), minute := DigitsValue(mi)))
  {
    JuntosPartes(dia, hh, mi);
  }

  /** How the two splits of `ParseDateHourMinute` cut such a text. */
  lemma JuntosPartes(dia: string, hh: string, mi: string)
    requires 'T' !in dia && 'T' !in hh && 'T' !in mi && ':' !in hh && ':' !in mi
    ensures Split(dia + "T" + hh + ":" + mi, 'T') == [dia, hh + [':'] + mi]
    ensures Split(hh + [':'] + mi, ':') == [hh, mi]
  {
    var hora := hh + [':'] + mi;
    assert 'T' !in hora;
    ConcatAssoc(dia + "T" + hh, ":", mi);
    ConcatAssoc(dia + "T", hh, ":" + mi);
    ConcatAssoc(hh, ":", mi);
    SplitTwo(dia, hora, 'T');
    SplitTwo(hh, mi, ':');
  }

  /** `strftime('%d/%m/%Y às %H:%M')`. */
  function DateTimeText(d: DateTime): string
    requires Valid(d)
  {
    DayMonthYearText(d) + " às " + Padded(d.hour, 2) + ":" + Padded(d.minute, 2)
  }
}
