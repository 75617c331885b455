/** `formatDateRange` (client/src/lib/utils.ts). The calendar lookups are
    inputs: each end of the range arrives as the locale's short month name, the
    day of the month and the full year, as `toLocaleString`, `getDate` and
    `getFullYear` would give them. */
module DateRange {
  import opened Text

  datatype CalendarDate = CalendarDate(shortMonth: string, day: nat, year: int)

  /** The range in one month, `"MON d1-d2, YYYY"`, or across months or years,
      `"MON1 d1 - MON2 d2, YYYY2"`. Month names are upper-cased first. */
  function FormatDateRange(start: CalendarDate, end: CalendarDate): string
  {
    var startMonth := Upper(start.shortMonth);
    var endMonth := Upper(end.shortMonth);
    if startMonth == endMonth && start.year == end.year then
      startMonth + " " + NatToString(start.day) + "-" + NatToString(end.day) + ", " + IntToString(start.year)
    else
      startMonth + " " + NatToString(start.day) + " - " + endMonth + " " + NatToString(end.day) + ", "
      + IntToString(end.year)
  }

  /** Both forms open with the start month and day and close with the end year.
      Right after the start day comes a bare dash exactly when the upper-cased
      month names and the years agree. */
  lemma DateRangeShape(start: CalendarDate, end: CalendarDate)
    ensures var r, head := FormatDateRange(start, end), Upper(start.shortMonth) + " " + NatToString(start.day);
            |r| > |head| && r[..|head|] == head
            && (r[|head|] == '-' <==> Upper(start.shortMonth) == Upper(end.shortMonth) && start.year == end.year)
    ensures var r, tail := FormatDateRange(start, end), ", " + IntToString(end.year);
            |r| >= |tail| && r[|r| - |tail|..] == tail
  {
    var r := FormatDateRange(start, end);
    var head := Upper(start.shortMonth) + " " + NatToString(start.day);
    var tail := ", " + IntToString(end.year);
    if Upper(start.shortMonth) == Upper(end.shortMonth) && start.year == end.year {
      assert r == head + "-" + NatToString(end.day) + tail;
      assert r[..|head|] == head && r[|head|] == '-';
    } else {
      assert r == head + " - " + Upper(end.shortMonth) + " " + NatToString(end.day) + tail;
      assert r[..|head|] == head && r[|head|] == ' ';
    }
    assert r[|r| - |tail|..] == tail;
  }

  /** Across months the start year is not printed: changing it changes nothing. */
  lemma StartYearNotShownAcrossMonths(start: CalendarDate, end: CalendarDate, otherYear: int)
    requires Upper(start.shortMonth) != Upper(end.shortMonth)
    ensures FormatDateRange(start, end) == FormatDateRange(start.(year := otherYear), end)
  {
  }

  /** The same month name in two different years is not a one-month range:
      the long form is used, and it names only the end year. */
  lemma SameMonthOtherYearUsesLongForm(start: CalendarDate, end: CalendarDate)
    requires start.shortMonth == end.shortMonth && start.year != end.year
    ensures FormatDateRange(start, end)
            == Upper(start.shortMonth) + " " + NatToString(start.day) + " - "
               + Upper(end.shortMonth) + " " + NatToString(end.day) + ", " + IntToString(end.year)
  {
  }

  /** The end day of a one-month range sits between the dash and the comma, so
      two one-month ranges that print the same have the same end day. */
  lemma OneMonthRangeEndDay(start: CalendarDate, d1: nat, d2: nat)
    requires FormatDateRange(start, start.(day := d1)) == FormatDateRange(start, start.(day := d2))
    ensures d1 == d2
  {
    var head := Upper(start.shortMonth) + " " + NatToString(start.day) + "-";
    var tail := ", " + IntToString(start.year);
    var r1, r2 := FormatDateRange(start, start.(day := d1)), FormatDateRange(start, start.(day := d2));
    assert r1 == head + NatToString(d1) + tail;
    assert r2 == head + NatToString(d2) + tail;
    assert |NatToString(d1)| == |NatToString(d2)|;
    assert NatToString(d1) == r1[|head|..|r1| - |tail|];
    assert NatToString(d2) == r2[|head|..|r2| - |tail|];
    NatToStringInjective(d1, d2);
  }

  /** Two different upper-cased month names always give the long form. */
  lemma OtherMonthUsesLongForm(start: CalendarDate, end: CalendarDate)
    requires Upper(start.shortMonth) != Upper(end.shortMonth)
    ensures FormatDateRange(start, end)
            == Upper(start.shortMonth) + " " + NatToString(start.day) + " - "
               + Upper(end.shortMonth) + " " + NatToString(end.day) + ", " + IntToString(end.year)
  {
  }

  /** A one-week stay in October 2025. */
  lemma OctoberExample()
    ensures FormatDateRange(CalendarDate("Oct", 10, 2025), CalendarDate("Oct", 16, 2025)) == "OCT 10-16, 2025"
  {
    var r := FormatDateRange(CalendarDate("Oct", 10, 2025), CalendarDate("Oct", 16, 2025));
    assert r == Upper("Oct") + " " + NatToString(10) + "-" + NatToString(16) + ", " + IntToString(2025);
    OctoberPieces();
  }

  lemma OctoberPieces()
    ensures Upper("Oct") + " " + NatToString(10) + "-" + NatToString(16) + ", " + IntToString(2025)
            == "OCT 10-16, 2025"
  {
    UpperOct();
    OctoberNumbers();
  }

  lemma UpperOct()
    ensures Upper("Oct") == "OCT"
  {
    var u := Upper("Oct");
    assert u[0] == 'O' && u[1] == 'C' && u[2] == 'T';
  }

  lemma OctoberNumbers()
    ensures NatToString(10) == "10" && NatToString(16) == "16" && IntToString(2025) == "2025"
  {
  }

  /** A stay across the new year. */
  lemma NewYearExample()
    ensures FormatDateRange(CalendarDate("Dec", 28, 2025), CalendarDate("Jan", 3, 2026)) == "DEC 28 - JAN 3, 2026"
  {
    var r := FormatDateRange(CalendarDate("Dec", 28, 2025), CalendarDate("Jan", 3, 2026));
    assert Upper("Dec") != Upper("Jan") by {
      UpperDecJan();
      assert "DEC"[0] != "JAN"[0];
    }
    assert r == Upper("Dec") + " " + NatToString(28) + " - " + Upper("Jan") + " " + NatToString(3) + ", "
                + IntToString(2026);
    NewYearPieces();
  }

  lemma NewYearPieces()
    ensures Upper("Dec") + " " + NatToString(28) + " - " + Upper("Jan") + " " + NatToString(3) + ", "
            + IntToString(2026) == "DEC 28 - JAN 3, 2026"
  {
    UpperDecJan();
    NewYearNumbers();
  }

  lemma NewYearNumbers()
    ensures NatToString(28) == "28" && NatToString(3) == "3" && IntToString(2026) == "2026"
  {
  }

  lemma UpperDecJan()
    ensures Upper("Dec") == "DEC" && Upper("Jan") == "JAN"
  {
    var u, v := Upper("Dec"), Upper("Jan");
    assert u[0] == 'D' && u[1] == 'E' && u[2] == 'C';
    assert v[0] == 'J' && v[1] == 'A' && v[2] == 'N';
  }
}
