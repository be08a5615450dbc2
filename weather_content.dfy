/**
 * The clock-derived texts the backend pushes to the dashboards: the part
 * of the day from the current hour, and the date as day, month name and
 * year with the day zero-padded to two digits. The clock is a parameter.
 */
module WeatherContent {
  import opened Strings

  /** `getTimeOfDay` for the hour `getHours()` returned. */
  function TimeOfDay(hour: int): (r: string)
    ensures r == "Morning" <==> hour < 12
    ensures r == "Afternoon" <==> 12 <= hour < 18
    ensures r == "Evening" <==> hour >= 18
  {
    if hour < 12 then "Morning"
    else if hour < 18 then "Afternoon"
    else "Evening"
  }

  /** The position of a part of the day in the day. */
  function PeriodRank(period: string): nat {
    if period == "Morning" then 0 else if period == "Afternoon" then 1 else 2
  }

  /** Later hours never give an earlier part of the day. */
  lemma TimeOfDayInOrder(h1: int, h2: int)
    requires h1 <= h2
    ensures PeriodRank(TimeOfDay(h1)) <= PeriodRank(TimeOfDay(h2))
  {
  }

  /** `String(day).padStart(2, '0')` for the day of the month. */
  function DayString(day: nat): (r: string)
    requires 1 <= day <= 31
    ensures |r| == 2 && AllDigits(r)
    ensures r[0] == '0' <==> day <= 9
    ensures ParseNat(r) == day
  {
    var digits := NatToString(day);
    var r := PadStart2(digits);
    ParseNatToString(day);
    assert day <= 9 ==> r == "0" + digits && r[..1] == "0";
    assert day > 9 ==> r == digits;
    r
  }

  /** `Intl.DateTimeFormat('en-US', { month: 'long' })` for months 1..12. */
  function MonthName(month: nat): (r: string)
    requires 1 <= month <= 12
    ensures r != [] && ' ' !in r
  {
    ["January", "February", "March", "April", "May", "June", "July",
     "August", "September", "October", "November", "December"][month - 1]
  }

  /** `getDate`: day, a space, the month name, a space, the year. */
  function DateString(day: nat, month: nat, year: nat): string
    requires 1 <= day <= 31 && 1 <= month <= 12
  {
    DayString(day) + " " + MonthName(month) + " " + NatToString(year)
  }

  /** The date splits back into its three parts: the first two characters
      read as the day, the month name sits between the only two spaces,
      and the rest reads as the year. */
  lemma DateStringFields(day: nat, month: nat, year: nat)
    requires 1 <= day <= 31 && 1 <= month <= 12
    ensures var r := DateString(day, month, year);
      var m := MonthName(month);
      |r| == 4 + |m| + |NatToString(year)| &&
      ParseNat(r[..2]) == day && r[2] == ' ' && r[3..3 + |m|] == m && r[3 + |m|] == ' ' &&
      AllDigits(r[4 + |m|..]) && ParseNat(r[4 + |m|..]) == year
  {
    var r := DateString(day, month, year);
    var m := MonthName(month);
    assert r == DayString(day) + " " + m + " " + NatToString(year);
    assert r[..2] == DayString(day);
    assert r[3..3 + |m|] == m;
    assert r[4 + |m|..] == NatToString(year);
    ParseNatToString(year);
  }
}
