/** The exchanges' expiry labels: a two-digit day, a three-letter English
    month name and the year, joined by a separator (`-` for the NSE, a space
    for the BSE), and the reading of such a label back into a date. */
module DateFormat {
  import opened Common
  import opened Calendar
  import opened Decimal

  const MonthNames: seq<string> :=
    ["Jan", "Feb", "Mar", "Apr", "May", "Jun", "Jul", "Aug", "Sep", "Oct", "Nov", "Dec"]

  /** `String(n).padStart(2, '0')` for `n` below 100. */
  function Pad2(n: int): (s: string)
    requires 0 <= n < 100
    ensures |s| == 2 && AllDigits(s) && DigitsValue(s) == n
  {
    var s := [DigitChar(n / 10), DigitChar(n % 10)];
    assert s[..1] == [DigitChar(n / 10)] && s[..1][..0] == [];
    assert DigitsValue(s[..1]) == n / 10;
    s
  }

  /** The label of day `day`: its day of the month padded to two digits,
      the month's name and the full year, with `sep` between them. */
  function FormatDate(day: int, sep: char): string {
    var c := ToCivil(day);
    Pad2(c.day) + [sep] + MonthNames[c.month] + [sep] + IntToString(c.year)
  }

  /** The index of a month name, if it is one. */
  function MonthNumber(name: string): (r: Option<int>)
    ensures r.Some? ==> 0 <= r.value < 12 && MonthNames[r.value] == name
  {
    if name == "Jan" then Some(0) else if name == "Feb" then Some(1)
    else if name == "Mar" then Some(2) else if name == "Apr" then Some(3)
    else if name == "May" then Some(4) else if name == "Jun" then Some(5)
    else if name == "Jul" then Some(6) else if name == "Aug" then Some(7)
    else if name == "Sep" then Some(8) else if name == "Oct" then Some(9)
    else if name == "Nov" then Some(10) else if name == "Dec" then Some(11)
    else None
  }

  lemma MonthNumberOfName(m: int)
    requires 0 <= m < 12
    ensures MonthNumber(MonthNames[m]) == Some(m)
  {
  }

  /** Reads a label `DD<sep>Mon<sep>YYYY` back into a calendar date. */
  function ParseDate(s: string, sep: char): Option<Civil> {
    if |s| < 8 || !AllDigits(s[..2]) || s[2] != sep || s[6] != sep then None
    else
      match MonthNumber(s[3..6])
      case None => None
      case Some(m) =>
        match ParseInt(s[7..])
        case None => None
        case Some(y) => Some(Civil(y, m, DigitsValue(s[..2])))
  }

  /** The pieces of a label sit at fixed positions. */
  lemma LabelParts(dd: string, sep: char, name: string, ys: string)
    requires |dd| == 2 && |name| == 3
    ensures var s := dd + [sep] + name + [sep] + ys;
      && |s| == 7 + |ys| && s[..2] == dd && s[2] == sep && s[3..6] == name && s[6] == sep && s[7..] == ys
  {
  }

  /** A string assembled from a two-digit day, a month name and a year
      string reads back as that date. */
  lemma ParseDateParts(dd: string, sep: char, m: int, ys: string, y: int)
    requires |dd| == 2 && AllDigits(dd) && 0 <= m < 12 && |ys| >= 1 && ParseInt(ys) == Some(y)
    ensures ParseDate(dd + [sep] + MonthNames[m] + [sep] + ys, sep) == Some(Civil(y, m, DigitsValue(dd)))
  {
    LabelParts(dd, sep, MonthNames[m], ys);
    MonthNumberOfName(m);
  }

  /** The label of a day reads back as that day's calendar date. */
  lemma ParseFormatDate(day: int, sep: char)
    ensures ParseDate(FormatDate(day, sep), sep) == Some(ToCivil(day))
  {
    var c := ToCivil(day);
    ParseIntToString(c.year);
    ParseDateParts(Pad2(c.day), sep, c.month, IntToString(c.year), c.year);
  }

  /** Different days have different labels: a label names one expiry. */
  lemma FormatDateInjective(d1: int, d2: int, sep: char)
    requires FormatDate(d1, sep) == FormatDate(d2, sep)
    ensures d1 == d2
  {
    ParseFormatDate(d1, sep);
    ParseFormatDate(d2, sep);
    assert ToCivil(d1) == ToCivil(d2);
  }

  /** The shape of every label: two digits for the day, the separator, the
      month's name, the separator, then the year. */
  lemma FormatDateShape(day: int, sep: char)
    ensures var s := FormatDate(day, sep);
      var c := ToCivil(day);
      && |s| >= 8
      && AllDigits(s[..2]) && DigitsValue(s[..2]) == c.day
      && s[2] == sep && s[6] == sep
      && s[3..6] == MonthNames[c.month]
      && s[7..] == IntToString(c.year)
  {
    var c := ToCivil(day);
    LabelParts(Pad2(c.day), sep, MonthNames[c.month], IntToString(c.year));
  }
}
