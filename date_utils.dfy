/** `dateToSqliteString` (server/lib/date-utils.ts): a date's UTC fields
    printed as `YYYY-MM-DD HH:MM:SS`, the text form of a time value that
    SQLite's date and time functions read. The `Date` object is represented
    by the six values its `getUTC…` getters return. */
module DateUtils {
  import opened Common
  import opened Text

  /** What `getUTCFullYear`, `getUTCMonth` (0-based), `getUTCDate`,
      `getUTCHours`, `getUTCMinutes` and `getUTCSeconds` return. */
  datatype UtcFields = UtcFields(year: int, month: int, day: int, hours: int, minutes: int, seconds: int)

  /** The ranges the `Date` getters guarantee. */
  predicate ValidUtc(d: UtcFields)
  {
    0 <= d.month <= 11 && 1 <= d.day <= 31 && 0 <= d.hours <= 23 &&
    0 <= d.minutes <= 59 && 0 <= d.seconds <= 59
  }

  function DateToSqliteString(d: UtcFields): (r: string)
    requires ValidUtc(d)
    ensures |r| == |IntToString(d.year)| + 15 && r[..|IntToString(d.year)|] == IntToString(d.year)
  {
    IntToString(d.year) + AfterYear(d)
  }

  /** Everything after the year: `-MM-DD HH:MM:SS`. */
  function AfterYear(d: UtcFields): (r: string)
    requires ValidUtc(d)
    ensures |r| == 15
  {
    "-" + Pad2(d.month + 1) + "-" + Pad2(d.day) + " " +
    Pad2(d.hours) + ":" + Pad2(d.minutes) + ":" + Pad2(d.seconds)
  }

  /** Value of the two characters of `s` starting at `i`, if both are digits. */
  function TwoDigits(s: string, i: nat): Option<nat>
    requires i + 2 <= |s|
  {
    if IsDigit(s[i]) && IsDigit(s[i + 1]) then Some(10 * DigitValue(s[i]) + DigitValue(s[i + 1]))
    else None
  }

  /** Splits a `YYYY-MM-DD HH:MM:SS` string at its separators. The year is
      everything before the last fifteen characters, so an unpadded or a
      negative year splits as well as a four-digit one. */
  function ParseSqliteString(s: string): Option<UtcFields>
  {
    if |s| < 16 then None
    else
      var n := |s| - 15;
      if s[n] != '-' || s[n + 3] != '-' || s[n + 6] != ' ' || s[n + 9] != ':' || s[n + 12] != ':' then None
      else
        var y, mo, dd := ParseInt(s[..n]), TwoDigits(s, n + 1), TwoDigits(s, n + 4);
        var h, mi, se := TwoDigits(s, n + 7), TwoDigits(s, n + 10), TwoDigits(s, n + 13);
        if y.None? || mo.None? || dd.None? || h.None? || mi.None? || se.None? then None
        else Some(UtcFields(y.value, mo.value as int - 1, dd.value, h.value, mi.value, se.value))
  }

  /** Where the pieces of the template land, whatever strings fill it. */
  lemma TemplateLayout(y: string, t: string, mo: string, dd: string, h: string, mi: string, se: string)
    requires |mo| == 2 && |dd| == 2 && |h| == 2 && |mi| == 2 && |se| == 2
    requires t == "-" + mo + "-" + dd + " " + h + ":" + mi + ":" + se
    ensures var r := y + t; var n := |y|;
      |r| == n + 15 && r[..n] == y &&
      r[n] == '-' && r[n + 3] == '-' && r[n + 6] == ' ' && r[n + 9] == ':' && r[n + 12] == ':' &&
      TwoDigits(r, n + 1) == TwoDigits(mo, 0) && TwoDigits(r, n + 4) == TwoDigits(dd, 0) &&
      TwoDigits(r, n + 7) == TwoDigits(h, 0) && TwoDigits(r, n + 10) == TwoDigits(mi, 0) &&
      TwoDigits(r, n + 13) == TwoDigits(se, 0)
  {
  }

  /** A padded field reads back as the number printed. */
  lemma Pad2Reads(v: nat)
    requires v < 100
    ensures TwoDigits(Pad2(v), 0) == Some(v)
  {
    var p := Pad2(v);
    assert IsDigit(p[0]) && IsDigit(p[1]);
    assert 10 * DigitValue(p[0]) + DigitValue(p[1]) == v;
  }

  /** The year comes first; the separators and the five two-digit fields,
      each reading back as its input (the month as the 0-based month plus
      one), sit at fixed offsets after it. */
  lemma Layout(d: UtcFields)
    requires ValidUtc(d)
    ensures var r := DateToSqliteString(d); var n := |IntToString(d.year)|;
      |r| == n + 15 && r[..n] == IntToString(d.year) &&
      r[n] == '-' && r[n + 3] == '-' && r[n + 6] == ' ' && r[n + 9] == ':' && r[n + 12] == ':' &&
      TwoDigits(r, n + 1) == Some(d.month + 1) && TwoDigits(r, n + 4) == Some(d.day) &&
      TwoDigits(r, n + 7) == Some(d.hours) && TwoDigits(r, n + 10) == Some(d.minutes) &&
      TwoDigits(r, n + 13) == Some(d.seconds)
  {
    var y := IntToString(d.year);
    var mo, dd, h, mi, se := Pad2(d.month + 1), Pad2(d.day), Pad2(d.hours), Pad2(d.minutes), Pad2(d.seconds);
    Pad2Reads(d.month + 1);
    Pad2Reads(d.day);
    Pad2Reads(d.hours);
    Pad2Reads(d.minutes);
    Pad2Reads(d.seconds);
    TemplateLayout(y, AfterYear(d), mo, dd, h, mi, se);
  }

  /** Any string whose last fifteen characters hold the separators and the
      five two-digit fields of `d`, after a prefix that reads back as
      `d.year`, splits back into `d`. */
  lemma ParseLaidOut(r: string, y: string, d: UtcFields)
    requires ValidUtc(d) && ParseInt(y) == Some(d.year)
    requires var n := |y|;
      |r| == n + 15 && r[..n] == y &&
      r[n] == '-' && r[n + 3] == '-' && r[n + 6] == ' ' && r[n + 9] == ':' && r[n + 12] == ':' &&
      TwoDigits(r, n + 1) == Some(d.month + 1) && TwoDigits(r, n + 4) == Some(d.day) &&
      TwoDigits(r, n + 7) == Some(d.hours) && TwoDigits(r, n + 10) == Some(d.minutes) &&
      TwoDigits(r, n + 13) == Some(d.seconds)
    ensures ParseSqliteString(r) == Some(d)
  {
    assert r[..|r| - 15] == y;
  }

  /** Splitting the output at its separators recovers the six inputs. */
  lemma SqliteStringRoundTrip(d: UtcFields)
    requires ValidUtc(d)
    ensures ParseSqliteString(DateToSqliteString(d)) == Some(d)
  {
    Layout(d);
    IntToStringRoundTrip(d.year);
    ParseLaidOut(DateToSqliteString(d), IntToString(d.year), d);
  }

  /** A four-digit prefix followed by the fixed fifteen-character layout. */
  lemma FourDigitPrefixLayout(r: string, y: string, d: UtcFields)
    requires |y| == 4 && AllDigits(y)
    requires |r| == 19 && r[..4] == y &&
      r[4] == '-' && r[7] == '-' && r[10] == ' ' && r[13] == ':' && r[16] == ':' &&
      TwoDigits(r, 5) == Some(d.month + 1) && TwoDigits(r, 8) == Some(d.day) &&
      TwoDigits(r, 11) == Some(d.hours) && TwoDigits(r, 14) == Some(d.minutes) &&
      TwoDigits(r, 17) == Some(d.seconds)
    ensures forall i :: 0 <= i < 19 && i !in {4, 7, 10, 13, 16} ==> IsDigit(r[i])
  {
    forall i | 0 <= i < 19 && i !in {4, 7, 10, 13, 16}
      ensures IsDigit(r[i])
    {
      if i < 4 {
        assert r[i] == y[i];
      } else {
        var start := if i < 7 then 5 else if i < 10 then 8 else if i < 13 then 11 else if i < 16 then 14 else 17;
        assert TwoDigits(r, start).Some?;
      }
    }
  }

  /** For four-digit years the text is 19 characters, with `-` at 4 and 7,
      a space at 10 and `:` at 13 and 16, and digits everywhere else. */
  lemma FourDigitYearLayout(d: UtcFields)
    requires ValidUtc(d) && 1000 <= d.year <= 9999
    ensures var r := DateToSqliteString(d);
      |r| == 19 && r[4] == '-' && r[7] == '-' && r[10] == ' ' && r[13] == ':' && r[16] == ':' &&
      forall i :: 0 <= i < 19 && i !in {4, 7, 10, 13, 16} ==> IsDigit(r[i])
  {
    NatToStringFourDigits(d.year);
    Layout(d);
    FourDigitPrefixLayout(DateToSqliteString(d), IntToString(d.year), d);
  }
}
