/**
 * The month a page shows and the date prefix that selects its transactions:
 * the dashboard's `?month=&year=` selector with its fall-back to today, and the
 * ISO date text the application writes.
 */
module Period {
  import opened Wrappers
  import opened Text
  import opened Records

  /** The dashboard's period prefix `f"{year}-{month:02d}"`: the year is not zero-padded. */
  function MonthPrefix(year: int, month: int): string {
    IntToString(year) + "-" + ZeroPad(month, 2)
  }

  /**
   * `today.strftime("%Y-%m")`, the prefix of the budget page. From year 1000 on
   * `%Y` is the four-digit year; below it the C library decides, and this pads.
   */
  function TodayPrefix(today: Date): string {
    ZeroPad(today.year, 4) + "-" + ZeroPad(today.month, 2)
  }

  /** `str(today)`: the ISO form `YYYY-MM-DD`. */
  function IsoDate(d: Date): string {
    ZeroPad(d.year, 4) + "-" + ZeroPad(d.month, 2) + "-" + ZeroPad(d.day, 2)
  }

  /** `s.startswith(prefix)`. */
  predicate StartsWith(s: string, prefix: string) {
    |prefix| <= |s| && s[..|prefix|] == prefix
  }

  /** Python's truth value of an optional form field: present and non-empty. */
  predicate Truthy(arg: Option<string>) {
    arg.Some? && arg.value != ""
  }

  datatype Selection = Selection(month: int, year: int)

  /**
   * The selector: when both query arguments are present, non-empty and parse as
   * integers, they are used as they are (no range check); otherwise today's month
   * and year.
   */
  function SelectPeriod(monthArg: Option<string>, yearArg: Option<string>, today: Date): (s: Selection)
    ensures Truthy(monthArg) && Truthy(yearArg) && ParseInt(monthArg.value).Some? && ParseInt(yearArg.value).Some?
      ==> s == Selection(ParseInt(monthArg.value).value, ParseInt(yearArg.value).value)
    ensures !(Truthy(monthArg) && Truthy(yearArg) && ParseInt(monthArg.value).Some? && ParseInt(yearArg.value).Some?)
      ==> s == Selection(today.month, today.year)
  {
    if Truthy(monthArg) && Truthy(yearArg) then
      match (ParseInt(monthArg.value), ParseInt(yearArg.value))
      case (Some(m), Some(y)) => Selection(m, y)
      case _ => Selection(today.month, today.year)
    else
      Selection(today.month, today.year)
  }

  lemma ZeroPadNotEmpty(n: int, width: int)
    ensures ZeroPad(n, width) != ""
  {
    if n < 0 {
      assert ZeroPad(n, width)[0] == '-';
    } else {
      assert |ZeroPad(n, width)| >= |NatToString(n)|;
    }
  }

  /**
   * A month and year chosen in the page's own selector (sent as `str(m)` and
   * `str(y)`) select exactly that period, whatever today is.
   */
  lemma SelectRenderedPeriod(month: int, year: int, today: Date)
    requires DigitCount(IntToString(month)) <= MaxIntDigits && DigitCount(IntToString(year)) <= MaxIntDigits
    ensures SelectPeriod(Some(IntToString(month)), Some(IntToString(year)), today) == Selection(month, year)
  {
    ParseZeroPad(month, 0);
    ParseZeroPad(year, 0);
    ZeroPadNotEmpty(month, 0);
    ZeroPadNotEmpty(year, 0);
  }

  /**
   * A month argument padded with U+001C is not an integer to `int()`, so the
   * dashboard falls back to today, although `str.strip()` would drop that
   * character.
   */
  lemma SelectControlPadding(today: Date)
    ensures SelectPeriod(Some("\U{1C}5"), Some("2024"), today) == Selection(today.month, today.year)
  {
    ParseIntControlPadding();
  }

  lemma {:induction false} NatToStringLength(n: nat)
    ensures n < 10 ==> |NatToString(n)| == 1
    ensures 10 <= n < 100 ==> |NatToString(n)| == 2
  {
    if n >= 10 {
      NatToStringLength(n / 10);
    }
  }

  /** A month field `{m:02d}` of a two-digit month is two digits. */
  lemma MonthFieldDigits(m: int)
    requires 0 <= m < 100
    ensures |ZeroPad(m, 2)| == 2
    ensures forall i :: 0 <= i < 2 ==> IsDigit(ZeroPad(m, 2)[i])
  {
    NatToStringLength(m);
    var z := Zeros(2 - |NatToString(m)|);
    assert ZeroPad(m, 2) == z + NatToString(m);
  }

  /** A non-negative year renders as digits only. */
  lemma YearFieldDigits(y: int)
    requires y >= 0
    ensures IntToString(y) == NatToString(y)
  {
    assert Zeros(0 - |NatToString(y)|) == "";
  }

  /**
   * Two different periods never claim the same transaction: a date that starts
   * with the prefixes of two periods (non-negative years, two-digit months)
   * names the same period twice. The zero-padding of the month is what makes
   * this hold ("2024-1" would also select "2024-11-05").
   */
  lemma PeriodsDisjoint(date: string, y1: int, m1: int, y2: int, m2: int)
    requires y1 >= 0 && y2 >= 0 && 0 <= m1 < 100 && 0 <= m2 < 100
    requires StartsWith(date, MonthPrefix(y1, m1)) && StartsWith(date, MonthPrefix(y2, m2))
    ensures y1 == y2 && m1 == m2
  {
    var a1, a2 := IntToString(y1), IntToString(y2);
    var b1, b2 := ZeroPad(m1, 2), ZeroPad(m2, 2);
    YearFieldDigits(y1);
    YearFieldDigits(y2);
    MonthFieldDigits(m1);
    MonthFieldDigits(m2);
    var p1, p2 := MonthPrefix(y1, m1), MonthPrefix(y2, m2);
    assert p1 == a1 + "-" + b1 && p2 == a2 + "-" + b2;
    DashEndsDigits(date, a1, a2, b1, b2);
    DashEndsDigits(date, a2, a1, b2, b1);
    assert |p1| == |p2|;
    assert p1 == date[..|p1|] == p2;
    assert a1 == p1[..|a1|] && a2 == p2[..|a2|];
    assert b1 == p1[|a1| + 1..] && b2 == p2[|a2| + 1..];
    ZeroPadInjective(y1, y2, 0, 0);
    ZeroPadInjective(m1, m2, 2, 2);
  }

  /** The dash after a run of digits sits at the same place in every prefix of one date. */
  lemma DashEndsDigits(date: string, a1: string, a2: string, b1: string, b2: string)
    requires forall i :: 0 <= i < |a2| ==> IsDigit(a2[i])
    requires StartsWith(date, a1 + "-" + b1) && StartsWith(date, a2 + "-" + b2)
    ensures |a2| <= |a1|
  {
    assert date[|a1|] == '-' by {
      assert (a1 + "-" + b1)[|a1|] == '-';
    }
  }

  /** For four-digit years the dashboard's prefix and the budget page's agree. */
  lemma PrefixesAgree(today: Date)
    requires 1000 <= today.year
    ensures MonthPrefix(today.year, today.month) == TodayPrefix(today)
  {
    FourDigits(today.year);
  }

  lemma FourDigits(y: int)
    requires 1000 <= y
    ensures ZeroPad(y, 4) == IntToString(y)
  {
    AtLeastFourDigits(y);
    assert Zeros(4 - |NatToString(y)|) == "";
    assert Zeros(0 - |NatToString(y)|) == "";
  }

  lemma {:induction false} AtLeastFourDigits(n: nat)
    requires 1000 <= n
    ensures |NatToString(n)| >= 4
  {
    var a := n / 10;
    var b := a / 10;
    assert 100 <= a && 10 <= b;
    assert |NatToString(b)| >= 2 by {
      assert NatToString(b) == NatToString(b / 10) + [DigitChar(b % 10)];
    }
    assert |NatToString(a)| == |NatToString(b)| + 1;
    assert |NatToString(n)| == |NatToString(a)| + 1;
  }

  /** Today's ISO date lies in today's budget-page period. */
  lemma IsoDateInTodayPrefix(today: Date)
    ensures StartsWith(IsoDate(today), TodayPrefix(today))
  {
    var p := TodayPrefix(today);
    assert IsoDate(today) == p + "-" + ZeroPad(today.day, 2);
    assert IsoDate(today)[..|p|] == p;
  }
}
