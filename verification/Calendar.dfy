/** Advancing a UTC calendar timestamp: the days-from-civil arithmetic against the leap-year rule, and what a caller may
    rely on when a held GPS fix ages. */
module Calendar {
  import opened Selection

  datatype Stamp = Stamp(year: nat, month: nat, day: nat, hour: nat, minute: nat, second: nat, centisecond: nat)

  // ----- the calendar as it is defined

  predicate IsLeap(y: nat) { y % 4 == 0 && (y % 100 != 0 || y % 400 == 0) }

  function MonthDays(y: nat, m: nat): nat {
    if m == 2 then (if IsLeap(y) then 29 else 28) else if m == 4 || m == 6 || m == 9 || m == 11 then 30 else 31
  }

  function YearDays(y: nat): nat { if IsLeap(y) then 366 else 365 }

  /** Days from 1 January 1970 to 1 January of the year, counted year by year. */
  function DaysBeforeYear(y: nat): nat
    requires y >= 1970
  {
    if y == 1970 then 0 else DaysBeforeYear(y - 1) + YearDays(y - 1)
  }

  function DaysBeforeMonth(y: nat, m: nat): nat
    requires 1 <= m <= 13
  {
    if m == 1 then 0 else DaysBeforeMonth(y, m - 1) + MonthDays(y, m - 1)
  }

  function DayCount(y: nat, m: nat, d: nat): nat
    requires y >= 1970 && 1 <= m <= 12 && d >= 1
  {
    DaysBeforeYear(y) + DaysBeforeMonth(y, m) + d - 1
  }

  predicate ValidDate(y: nat, m: nat, d: nat) { y >= 1970 && 1 <= m <= 12 && 1 <= d <= MonthDays(y, m) }

  predicate ValidStamp(s: Stamp) {
    ValidDate(s.year, s.month, s.day) && s.hour <= 23 && s.minute <= 59 && s.second <= 59
  }

  // ----- the code's arithmetic

  /** Days since 1 January 1970 by eras of 400 years that begin in March. */
  function DaysFromCivil(y: nat, m: nat, d: nat): int
    requires y >= 1970 && 1 <= m <= 12
  {
    var year := if m <= 2 then y - 1 else y;
    var era := year / 400;
    var yoe := year - era * 400;
    var doy := (153 * (m + (if m > 2 then -3 else 9)) + 2) / 5 + d - 1;
    var doe := yoe * 365 + yoe / 4 - yoe / 100 + doy;
    era * 146097 + doe - 719468
  }

  /** The range test at the top of gpsAdvanceUtc: it admits dates like 31 February and the second 60. */
  predicate Plausible(s: Stamp) {
    s.year >= 1970 && 1 <= s.month <= 12 && 1 <= s.day <= 31 && s.hour <= 23 && s.minute <= 59 && s.second <= 60
  }

  function Epoch(s: Stamp): int
    requires s.year >= 1970 && 1 <= s.month <= 12
  {
    DaysFromCivil(s.year, s.month, s.day) * 86400 + s.hour * 3600 + s.minute * 60 + s.second
  }

  /** gpsAdvanceUtc: None when it returns false. */
  function Advance(s: Stamp, elapsedMs: nat): Option<Stamp> {
    if !Plausible(s) then None
    else
      EpochIsNatural(s);
      Some(Gmtime(Epoch(s) + elapsedMs / 1000).(centisecond := s.centisecond))
  }

  // ----- the arithmetic is the calendar

  /** Leap years up to and including n, by the rule's three divisions. */
  function Leaps(n: nat): int { n / 4 - n / 100 + n / 400 }

  lemma LeapsStep(n: nat)
    requires n > 0
    ensures Leaps(n) == Leaps(n - 1) + (if IsLeap(n) then 1 else 0)
  {
    Quotient(n, 4);
    Quotient(n, 100);
    Quotient(n, 400);
    Multiples(n);
  }

  lemma Multiples(n: nat)
    ensures (n % 400 == 0 ==> n % 100 == 0) && (n % 100 == 0 ==> n % 4 == 0)
  {
    if n % 400 == 0 { assert n == 100 * (4 * (n / 400)); }
    if n % 100 == 0 { assert n == 4 * (25 * (n / 100)); }
  }

  lemma Quotient(n: nat, k: nat)
    requires n > 0 && (k == 4 || k == 100 || k == 400)
    ensures n / k == (n - 1) / k + (if n % k == 0 then 1 else 0)
  {
  }

  lemma {:induction false} YearsByLeaps(y: nat)
    requires y >= 1970
    ensures DaysBeforeYear(y) == 365 * (y - 1970) + Leaps(y - 1) - Leaps(1969)
  {
    if y > 1970 {
      YearsByLeaps(y - 1);
      LeapsStep(y - 1);
    }
  }

  /** An era holds 146097 days: 400 years and their leap days. */
  lemma ErasByLeaps(year: nat)
    ensures var era := year / 400; var yoe := year - era * 400;
            era * 146097 + (yoe * 365 + yoe / 4 - yoe / 100) == 365 * year + Leaps(year)
  {
    var era := year / 400;
    var yoe := year - era * 400;
    assert year == 400 * era + yoe && 0 <= yoe < 400;
    assert year / 4 == 100 * era + yoe / 4;
    assert year / 100 == 4 * era + yoe / 100;
  }

  /** The month lengths by the rule, and by the 153-days-in-five-months formula. */
  lemma MonthsByFormula(y: nat, m: nat)
    requires 1 <= m <= 12
    ensures m > 2 ==> DaysBeforeMonth(y, m) == (153 * (m - 3) + 2) / 5 + (if IsLeap(y) then 60 else 59)
    ensures m <= 2 ==> DaysBeforeMonth(y, m) == (153 * (m + 9) + 2) / 5 - 306
  {
    assert DaysBeforeMonth(y, 2) == 31;
    assert DaysBeforeMonth(y, 3) == 31 + MonthDays(y, 2);
    assert DaysBeforeMonth(y, 4) == 62 + MonthDays(y, 2);
    assert DaysBeforeMonth(y, 5) == 92 + MonthDays(y, 2);
    assert DaysBeforeMonth(y, 6) == 123 + MonthDays(y, 2);
    assert DaysBeforeMonth(y, 7) == 153 + MonthDays(y, 2);
    assert DaysBeforeMonth(y, 8) == 184 + MonthDays(y, 2);
    assert DaysBeforeMonth(y, 9) == 215 + MonthDays(y, 2);
    assert DaysBeforeMonth(y, 10) == 245 + MonthDays(y, 2);
    assert DaysBeforeMonth(y, 11) == 276 + MonthDays(y, 2);
    assert DaysBeforeMonth(y, 12) == 306 + MonthDays(y, 2);
  }

  /** For every year from 1970 on, every month and every day number, also past the month's end, the era arithmetic is
      the count of days by the leap-year rule. */
  lemma DaysFromCivilCounts(y: nat, m: nat, d: nat)
    requires y >= 1970 && 1 <= m <= 12 && d >= 1
    ensures DaysFromCivil(y, m, d) == DayCount(y, m, d)
  {
    YearsByLeaps(y);
    MonthsByFormula(y, m);
    LeapsStep(y);
    ErasByLeaps(if m <= 2 then y - 1 else y);
    assert Leaps(1969) == 477;
  }

  lemma EpochIsNatural(s: Stamp)
    requires s.year >= 1970 && 1 <= s.month <= 12 && s.day >= 1
    ensures Epoch(s) >= 0
  {
    DaysFromCivilCounts(s.year, s.month, s.day);
  }

  // ----- order

  predicate EarlierDate(y: nat, m: nat, d: nat, yy: nat, mm: nat, dd: nat) {
    y < yy || (y == yy && (m < mm || (m == mm && d < dd)))
  }

  /** Field by field, most significant first; the centiseconds are not part of it. */
  predicate Earlier(s: Stamp, t: Stamp) {
    || EarlierDate(s.year, s.month, s.day, t.year, t.month, t.day)
    || (s.year == t.year && s.month == t.month && s.day == t.day
        && (s.hour < t.hour
            || (s.hour == t.hour && (s.minute < t.minute || (s.minute == t.minute && s.second < t.second)))))
  }

  lemma {:induction false} YearsApart(y: nat, later: nat)
    requires 1970 <= y < later
    ensures DaysBeforeYear(later) >= DaysBeforeYear(y) + YearDays(y)
    decreases later
  {
    if later > y + 1 { YearsApart(y, later - 1); }
  }

  lemma {:induction false} MonthsApart(y: nat, m: nat, later: nat)
    requires 1 <= m < later <= 13
    ensures DaysBeforeMonth(y, later) >= DaysBeforeMonth(y, m) + MonthDays(y, m)
    decreases later
  {
    if later > m + 1 { MonthsApart(y, m, later - 1); }
  }

  lemma YearHoldsMonths(y: nat)
    ensures DaysBeforeMonth(y, 13) == YearDays(y)
  {
    MonthsByFormula(y, 12);
    assert DaysBeforeMonth(y, 13) == DaysBeforeMonth(y, 12) + 31;
  }

  /** A valid date lies before the end of its month, which lies within its year. */
  lemma DateInYear(y: nat, m: nat, d: nat)
    requires ValidDate(y, m, d)
    ensures DaysBeforeYear(y) <= DayCount(y, m, d) < DaysBeforeYear(y) + YearDays(y)
  {
    MonthsApart(y, m, 13);
    YearHoldsMonths(y);
  }

  lemma EarlierDateCounts(y: nat, m: nat, d: nat, yy: nat, mm: nat, dd: nat)
    requires ValidDate(y, m, d) && ValidDate(yy, mm, dd) && EarlierDate(y, m, d, yy, mm, dd)
    ensures DayCount(y, m, d) < DayCount(yy, mm, dd)
  {
    if y < yy {
      DateInYear(y, m, d);
      YearsApart(y, yy);
      DateInYear(yy, mm, dd);
    } else if m < mm {
      MonthsApart(y, m, mm);
    }
  }

  /** On valid timestamps the order of the fields is the order of the epoch seconds, so equal seconds mean equal
      fields. */
  lemma OrderAgrees(s: Stamp, t: Stamp)
    requires ValidStamp(s) && ValidStamp(t)
    ensures Earlier(s, t) <==> Epoch(s) < Epoch(t)
    ensures Epoch(s) == Epoch(t) <==> s == t.(centisecond := s.centisecond)
  {
    DaysFromCivilCounts(s.year, s.month, s.day);
    DaysFromCivilCounts(t.year, t.month, t.day);
    if EarlierDate(s.year, s.month, s.day, t.year, t.month, t.day) {
      EarlierDateCounts(s.year, s.month, s.day, t.year, t.month, t.day);
    } else if EarlierDate(t.year, t.month, t.day, s.year, s.month, s.day) {
      EarlierDateCounts(t.year, t.month, t.day, s.year, s.month, s.day);
    }
  }

  // ----- gmtime_r, the inverse

  function YearOf(days: nat, y: nat): (r: nat)
    requires y >= 1970 && days >= DaysBeforeYear(y)
    ensures r >= 1970 && DaysBeforeYear(r) <= days < DaysBeforeYear(r) + YearDays(r)
    decreases days - DaysBeforeYear(y)
  {
    if days < DaysBeforeYear(y) + YearDays(y) then y else YearOf(days, y + 1)
  }

  function MonthOf(y: nat, dayOfYear: nat, m: nat): (r: nat)
    requires 1 <= m <= 12 && DaysBeforeMonth(y, m) <= dayOfYear < DaysBeforeMonth(y, 13)
    ensures 1 <= r <= 12 && DaysBeforeMonth(y, r) <= dayOfYear < DaysBeforeMonth(y, r) + MonthDays(y, r)
    decreases 12 - m
  {
    if dayOfYear < DaysBeforeMonth(y, m) + MonthDays(y, m) then m else MonthOf(y, dayOfYear, m + 1)
  }

  /** The valid timestamp of an epoch second. */
  function Gmtime(epoch: nat): (s: Stamp)
    ensures ValidStamp(s) && Epoch(s) == epoch
  {
    var days := epoch / 86400;
    var rest := epoch % 86400;
    var y := YearOf(days, 1970);
    YearHoldsMonths(y);
    var m := MonthOf(y, days - DaysBeforeYear(y), 1);
    var d := days - DaysBeforeYear(y) - DaysBeforeMonth(y, m) + 1;
    DaysFromCivilCounts(y, m, d);
    Stamp(y, m, d, rest / 3600, rest % 3600 / 60, rest % 60, 0)
  }

  // ----- advancing

  /** The result is a valid timestamp exactly the elapsed whole seconds later, with the centiseconds carried over. */
  lemma AdvanceIsExact(s: Stamp, elapsedMs: nat)
    ensures Advance(s, elapsedMs).Some? <==>
              && s.year >= 1970 && 1 <= s.month <= 12 && 1 <= s.day <= 31
              && s.hour <= 23 && s.minute <= 59 && s.second <= 60
    ensures Advance(s, elapsedMs).Some? ==>
              var r := Advance(s, elapsedMs).value;
              ValidStamp(r) && Epoch(r) == Epoch(s) + elapsedMs / 1000 && r.centisecond == s.centisecond
  {
  }

  /** Advancing by less than a second changes nothing exactly when the timestamp is a valid one; an admitted 31 February
      or second 60 is normalised instead. */
  lemma AdvanceByNothingIff(s: Stamp, elapsedMs: nat)
    requires elapsedMs < 1000
    ensures Advance(s, elapsedMs) == Some(s) <==> ValidStamp(s)
  {
    AdvanceIsExact(s, elapsedMs);
    if ValidStamp(s) { OrderAgrees(Advance(s, elapsedMs).value, s); }
  }

  /** Advancing twice by whole seconds is advancing once by their sum. */
  lemma AdvanceAdds(s: Stamp, first: nat, second: nat)
    requires Plausible(s)
    ensures Advance(Advance(s, 1000 * first).value, 1000 * second) == Advance(s, 1000 * (first + second))
  {
    hide Advance, Epoch, ValidStamp, Earlier;
    AdvanceIsExact(s, 1000 * first);
    var mid := Advance(s, 1000 * first).value;
    ValidIsPlausible(mid);
    AdvanceIsExact(mid, 1000 * second);
    AdvanceIsExact(s, 1000 * (first + second));
    OrderAgrees(Advance(mid, 1000 * second).value, Advance(s, 1000 * (first + second)).value);
  }

  lemma ValidIsPlausible(s: Stamp)
    requires ValidStamp(s)
    ensures Plausible(s)
  {
  }

  /** More elapsed time never yields an earlier timestamp, and a whole second more yields a later one. */
  lemma AdvanceMonotone(s: Stamp, elapsedMs: nat, longerMs: nat)
    requires Plausible(s) && elapsedMs <= longerMs
    ensures !Earlier(Advance(s, longerMs).value, Advance(s, elapsedMs).value)
    ensures longerMs >= elapsedMs + 1000 ==> Earlier(Advance(s, elapsedMs).value, Advance(s, longerMs).value)
  {
    AdvanceIsExact(s, elapsedMs);
    AdvanceIsExact(s, longerMs);
    OrderAgrees(Advance(s, longerMs).value, Advance(s, elapsedMs).value);
    OrderAgrees(Advance(s, elapsedMs).value, Advance(s, longerMs).value);
  }
}
