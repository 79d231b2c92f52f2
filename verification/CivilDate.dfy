/** The start time of a macOS process, in the words of `ps -o lstart=` (src/os/macos.rs).

    `Started` is the source's arithmetic on unsigned 64-bit numbers: Dafny checks every
    subtraction and every table index. `DateOf` is the reference: it steps through the
    Gregorian calendar one day at a time from Thursday 1 January 1970. The seconds are those
    of section 4.16 of IEEE Std 1003.1-2017 (Base Definitions): each day has 86400. */
module CivilDate {
  import opened Common

  newtype u64 = x: int | 0 <= x < 0x1_0000_0000_0000_0000

  // ---- The reference calendar ----

  datatype Date = Date(year: nat, month: nat, day: nat)

  predicate Leap(year: nat) {
    year % 4 == 0 && (year % 100 != 0 || year % 400 == 0)
  }

  function MonthLength(year: nat, month: nat): nat {
    if month == 2 then if Leap(year) then 29 else 28
    else if month == 4 || month == 6 || month == 9 || month == 11 then 30
    else 31
  }

  function NextDay(d: Date): Date {
    if d.day < MonthLength(d.year, d.month) then d.(day := d.day + 1)
    else if d.month < 12 then Date(d.year, d.month + 1, 1)
    else Date(d.year + 1, 1, 1)
  }

  /** The date reached after `days` single steps from 1 January 1970. */
  function DateOf(days: nat): Date {
    if days == 0 then Date(1970, 1, 1) else NextDay(DateOf(days - 1))
  }

  datatype Weekday = Monday | Tuesday | Wednesday | Thursday | Friday | Saturday | Sunday

  function NextWeekday(w: Weekday): Weekday {
    match w
    case Monday => Tuesday
    case Tuesday => Wednesday
    case Wednesday => Thursday
    case Thursday => Friday
    case Friday => Saturday
    case Saturday => Sunday
    case Sunday => Monday
  }

  function WeekdayOf(days: nat): Weekday {
    if days == 0 then Thursday else NextWeekday(WeekdayOf(days - 1))
  }

  // ---- Text ----

  /** Rust's `{:02}` and `{:>2}`: at least two characters. */
  function Padded(n: nat, pad: char): string {
    if n < 10 then [pad] + Decimal(n) else Decimal(n)
  }

  function WeekdayName(w: Weekday): string {
    match w
    case Monday => "Mon"
    case Tuesday => "Tue"
    case Wednesday => "Wed"
    case Thursday => "Thu"
    case Friday => "Fri"
    case Saturday => "Sat"
    case Sunday => "Sun"
  }

  const MONTH_NAMES: seq<string> :=
    ["Jan", "Feb", "Mar", "Apr", "May", "Jun", "Jul", "Aug", "Sep", "Oct", "Nov", "Dec"]

  /** What a reader of the calendar writes for a day and a second of that day. */
  function Rendered(date: Date, weekday: Weekday, second: nat): string
    requires 1 <= date.month <= 12
  {
    WeekdayName(weekday) + " " + MONTH_NAMES[date.month - 1] + " " + Padded(date.day, ' ') + " "
    + Padded(second / 3600, '0') + ":" + Padded(second % 3600 / 60, '0') + ":" + Padded(second % 60, '0')
    + " " + Decimal(date.year)
  }

  // ---- The source's arithmetic ----

  const DAYS: seq<string> := ["Thu", "Fri", "Sat", "Sun", "Mon", "Tue", "Wed"]

  /** Year, month and day of a day counted from 1970, in years that begin with March. */
  function CivilFromDays(days: u64): (u64, u64, u64)
    requires days <= 0xFFFF_FFFF_FFFF_FFFF / 86400
  {
    var shifted := days + 719468;
    var era, ofEra := shifted / 146097, shifted % 146097;
    var yearOfEra := (ofEra - ofEra / 1460 + ofEra / 36524 - ofEra / 146096) / 365;
    DayOfYearFits(ofEra as int);
    var ofYear := ofEra - (365 * yearOfEra + yearOfEra / 4 - yearOfEra / 100);
    var shiftedMonth := (5 * ofYear + 2) / 153;
    var day := ofYear - (153 * shiftedMonth + 2) / 5 + 1;
    var month := if shiftedMonth < 10 then shiftedMonth + 3 else shiftedMonth - 9;
    var year := yearOfEra + era * 400 + (if month <= 2 then 1 else 0);
    (year, month, day)
  }

  function Started(seconds: u64): string {
    var days, rest := seconds / 86400, seconds % 86400;
    var (year, month, day) := CivilFromDays(days);
    CivilFromDaysIsDateOf(days);
    DAYS[days % 7] + " " + MONTH_NAMES[month - 1] + " " + Padded(day as nat, ' ') + " "
    + Padded((rest / 3600) as nat, '0') + ":" + Padded((rest % 3600 / 60) as nat, '0') + ":"
    + Padded((rest % 60) as nat, '0') + " " + Decimal(year as nat)
  }

  // ---- Years that begin with March ----

  /** Days from 1 March of year 0 to 1 March of year `y`. */
  function YearStart(y: nat): nat {
    if y == 0 then 0 else YearStart(y - 1) + if Leap(y) then 366 else 365
  }

  function YearOfEra(ofEra: nat): nat
    requires ofEra < 146097
  {
    (ofEra - ofEra / 1460 + ofEra / 36524 - ofEra / 146096) / 365
  }

  lemma Scaled(d: int, k: int)
    requires 0 < d
    ensures k >= 1 ==> d * k >= d
    ensures k <= -1 ==> d * k <= -d
  {
  }

  /** A quotient is known by its remainder. */
  lemma Quotient(n: int, d: nat, q: int)
    requires 0 < d && d * q <= n < d * q + d
    ensures n / d == q && n % d == n - d * q
  {
    assert d * (n / d - q) == n - d * q - n % d;
    Scaled(d, n / d - q);
  }

  /** A day of the era, by its century, four-year cycle, year of the cycle and day of the year. */
  predicate Parts(century: nat, cycle: nat, year: nat, day: nat) {
    && century < 4 && cycle < 25 && year < 4 && day < 366
    && (day == 365 ==> year == 3 && (cycle < 24 || century == 3))
  }

  lemma YearOfParts(century: nat, cycle: nat, year: nat, day: nat)
    requires Parts(century, cycle, year, day)
    ensures var ofEra := 36524 * century + 1461 * cycle + 365 * year + day;
            ofEra < 146097 && YearOfEra(ofEra) == 100 * century + 4 * cycle + year
  {
    var ofEra := 36524 * century + 1461 * cycle + 365 * year + day;
    var late := if 24 * century + cycle + 365 * year + day >= 1460 then 1 else 0;
    Quotient(ofEra, 1460, 25 * century + cycle + late);
    Quotient(ofEra, 36524, if ofEra == 146096 then 4 else century);
    Quotient(ofEra, 146096, if ofEra == 146096 then 1 else 0);
    Quotient(36500 * century + 1460 * cycle + 365 * year + day - late, 365, 100 * century + 4 * cycle + year);
  }

  lemma StartOfParts(century: nat, cycle: nat, year: nat)
    requires century < 4 && cycle < 25 && year < 4
    ensures YearStart(100 * century + 4 * cycle + year) == 36524 * century + 1461 * cycle + 365 * year
  {
    var y := 100 * century + 4 * cycle + year;
    YearStartClosed(y);
    Quotient(y, 4, 25 * century + cycle);
    Quotient(y, 100, century);
    Quotient(y, 400, 0);
  }

  lemma LeapOfParts(century: nat, cycle: nat, year: nat)
    requires century < 4 && cycle < 25 && year < 4
    ensures Leap(100 * century + 4 * cycle + year + 1) <==> year == 3 && (cycle < 24 || century == 3)
  {
    var y := 100 * century + 4 * cycle + year + 1;
    Quotient(y, 4, 25 * century + cycle + if year == 3 then 1 else 0);
    Quotient(y, 100, century + if cycle == 24 && year == 3 then 1 else 0);
    Quotient(y, 400, if y == 400 then 1 else 0);
  }

  lemma YearOfEraFits(ofEra: nat)
    requires ofEra < 146097
    ensures YearOfEra(ofEra) < 400
    ensures YearStart(YearOfEra(ofEra)) <= ofEra < YearStart(YearOfEra(ofEra) + 1)
  {
    var century := if ofEra == 146096 then 3 else ofEra / 36524;
    var rest := ofEra - 36524 * century;
    var cycle, inCycle := rest / 1461, rest % 1461;
    var year := if inCycle == 1460 then 3 else inCycle / 365;
    YearOfParts(century, cycle, year, inCycle - 365 * year);
    StartOfParts(century, cycle, year);
    LeapOfParts(century, cycle, year);
  }

  lemma DayOfYearFits(ofEra: nat)
    requires ofEra < 146097
    ensures var y := YearOfEra(ofEra);
            y < 400 && y / 4 >= y / 100 && 0 <= ofEra - (365 * y + y / 4 - y / 100) < 366
  {
    YearOfEraFits(ofEra);
    YearStartClosed(YearOfEra(ofEra));
  }

  /** Month and day of a day counted from 1 March. */
  function MonthAndDay(ofYear: nat): (nat, nat)
  {
    var shiftedMonth := (5 * ofYear + 2) / 153;
    (shiftedMonth, ofYear - (153 * shiftedMonth + 2) / 5 + 1)
  }

  /** The date `Civil` writes for day `ofYear` of the March year `y`. */
  function Civil(y: nat, ofYear: nat): Date
    requires ofYear < 366
  {
    var (m, d) := MonthAndDay(ofYear);
    if m < 10 then Date(y, m + 3, d) else Date(y + 1, m - 9, d)
  }

  /** One more day in the same March year is the next day of the calendar. */
  lemma NextInYear(y: nat, ofYear: nat)
    requires ofYear < 365 && (ofYear == 364 ==> Leap(y + 1))
    ensures Civil(y, ofYear + 1) == NextDay(Civil(y, ofYear))
  {
    var (m, d) := MonthAndDay(ofYear);
    assert 153 * m <= 5 * ofYear + 2 < 153 * m + 153;
    assert m <= 11;
    if m == 0 {} else if m == 1 {} else if m == 2 {} else if m == 3 {} else if m == 4 {} else if m == 5 {}
    else if m == 6 {} else if m == 7 {} else if m == 8 {} else if m == 9 {} else if m == 10 {} else {}
  }

  /** After the last day of February comes 1 March. */
  lemma NextYear(y: nat)
    ensures Civil(y + 1, 0) == NextDay(Civil(y, if Leap(y + 1) then 365 else 364))
  {
  }

  lemma NextQuotient(y: nat, d: nat)
    requires 0 < d
    ensures (y + 1) / d == y / d + if (y + 1) % d == 0 then 1 else 0
  {
    if y % d == d - 1 {
      assert d * (y / d + 1) == d * (y / d) + d;
      Quotient(y + 1, d, y / d + 1);
    } else {
      Quotient(y + 1, d, y / d);
    }
  }

  lemma Multiples(y: nat)
    ensures y % 100 == 0 ==> y % 4 == 0
    ensures y % 400 == 0 ==> y % 100 == 0
  {
    assert y % 100 == 0 ==> y == 4 * (25 * (y / 100));
    assert y % 400 == 0 ==> y == 100 * (4 * (y / 400));
  }

  lemma {:induction false} YearStartClosed(y: nat)
    ensures YearStart(y) == 365 * y + y / 4 - y / 100 + y / 400
  {
    if y == 0 {
    } else {
      YearStartClosed(y - 1);
      NextQuotient(y - 1, 4);
      NextQuotient(y - 1, 100);
      NextQuotient(y - 1, 400);
      Multiples(y);
    }
  }

  lemma {:induction false} YearStartGrows(y: nat, z: nat)
    ensures y <= z ==> YearStart(y) <= YearStart(z)
  {
    if y >= z {
    } else {
      YearStartGrows(y, z - 1);
    }
  }

  /** Day `n` counted from 1 March of year 0 is day `n - YearStart(y)` of the March year `y`. */
  ghost predicate InMarchYear(n: nat, y: nat) {
    YearStart(y) <= n < YearStart(y + 1)
  }

  lemma OneMarchYear(n: nat, y: nat, z: nat)
    requires InMarchYear(n, y) && InMarchYear(n, z)
    ensures y == z
  {
    YearStartGrows(y + 1, z);
    YearStartGrows(z + 1, y);
  }

  /** The source's split of a shifted day finds its March year. */
  lemma SplitFindsMarchYear(n: nat)
    ensures var y := 400 * (n / 146097) + YearOfEra(n % 146097);
            InMarchYear(n, y)
            && n - YearStart(y) == n % 146097 - YearStart(YearOfEra(n % 146097))
  {
    var era, inEra := n / 146097, YearOfEra(n % 146097);
    YearOfEraFits(n % 146097);
    EraShift(era, inEra);
    EraShift(era, inEra + 1);
  }

  /** Every era of 400 years has the same 146097 days. */
  lemma EraShift(era: nat, y: nat)
    ensures YearStart(400 * era + y) == 146097 * era + YearStart(y)
  {
    YearStartClosed(y);
    YearStartClosed(400 * era + y);
    assert (400 * era + y) / 4 == 100 * era + y / 4;
    assert (400 * era + y) / 100 == 4 * era + y / 100;
    assert (400 * era + y) / 400 == era + y / 400;
  }

  /** The next day stays in its March year or begins the next one. */
  lemma NextMarchDay(n: nat, y: nat)
    requires InMarchYear(n, y)
    ensures n + 1 < YearStart(y + 1) ==>
              InMarchYear(n + 1, y) && Civil(y, n + 1 - YearStart(y)) == NextDay(Civil(y, n - YearStart(y)))
    ensures n + 1 == YearStart(y + 1) ==>
              InMarchYear(n + 1, y + 1) && Civil(y + 1, 0) == NextDay(Civil(y, n - YearStart(y)))
  {
    if n + 1 < YearStart(y + 1) {
      NextInYear(y, n - YearStart(y));
    } else {
      NextYear(y);
    }
  }

  /** 1 January 1970 is day 306 of the March year 1969. */
  lemma FirstMarchYear(y: nat)
    requires y == 1969
    ensures InMarchYear(719468, y) && DateOf(0) == Civil(y, 719468 - YearStart(y))
  {
    YearStartClosed(y);
    YearStartClosed(y + 1);
    hide YearStart;
    assert (y + 1) / 4 == 492 && (y + 1) / 100 == 19 && (y + 1) / 400 == 4;
    assert y / 4 == 492 && y / 100 == 19 && y / 400 == 4;
    assert !Leap(y + 1);
    assert MonthAndDay(306) == (10, 1);
  }

  /** Stepping through the calendar from 1 January 1970 walks through the March years. */
  lemma {:induction false} DateOfIsCivil(days: nat) returns (y: nat)
    ensures InMarchYear(days + 719468, y)
    ensures DateOf(days) == Civil(y, days + 719468 - YearStart(y))
  {
    hide Civil, NextDay;
    if days == 0 {
      y := 1969;
      FirstMarchYear(y);
    } else {
      var before := DateOfIsCivil(days - 1);
      NextMarchDay(days - 1 + 719468, before);
      y := if days + 719468 < YearStart(before + 1) then before else before + 1;
    }
  }

  /** The arithmetic gives the date reached by stepping day by day, with its month in the table. */
  lemma CivilFromDaysIsDateOf(days: u64)
    requires days <= 0xFFFF_FFFF_FFFF_FFFF / 86400
    ensures var (year, month, day) := CivilFromDays(days);
            DateOf(days as nat) == Date(year as nat, month as nat, day as nat) && 1 <= month <= 12
  {
    var n := days as nat + 719468;
    var inEra := YearOfEra(n % 146097);
    var y := DateOfIsCivil(days as nat);
    SplitFindsMarchYear(n);
    OneMarchYear(n, 400 * (n / 146097) + inEra, y);
    YearStartClosed(inEra);
    CivilOfNumbers(days, inEra, n % 146097 - YearStart(inEra));
  }

  lemma CivilOfNumbers(days: u64, inEra: nat, ofYear: nat)
    requires days <= 0xFFFF_FFFF_FFFF_FFFF / 86400 && ofYear < 366
    requires inEra == YearOfEra((days as nat + 719468) % 146097)
    requires ofYear == (days as nat + 719468) % 146097 - (365 * inEra + inEra / 4 - inEra / 100)
    ensures var (year, month, day), civil := CivilFromDays(days), Civil(400 * ((days as nat + 719468) / 146097) + inEra, ofYear);
            civil == Date(year as nat, month as nat, day as nat) && 1 <= month <= 12
  {
  }

  lemma {:induction false} WeekdayOfIsTable(days: nat)
    ensures WeekdayName(WeekdayOf(days)) == DAYS[days % 7]
    ensures WeekdayOf(days) == [Thursday, Friday, Saturday, Sunday, Monday, Tuesday, Wednesday][days % 7]
  {
    if days == 0 {
    } else {
      WeekdayOfIsTable(days - 1);
    }
  }

  /** For every number of seconds, the text is the day reached by stepping through the calendar,
      its weekday and its time of day. */
  lemma StartedIsTheCalendarDay(seconds: u64)
    ensures 1 <= DateOf(seconds as nat / 86400).month <= 12
    ensures Started(seconds)
         == Rendered(DateOf(seconds as nat / 86400), WeekdayOf(seconds as nat / 86400), seconds as nat % 86400)
  {
    CivilFromDaysIsDateOf(seconds / 86400);
    WeekdayOfIsTable(seconds as nat / 86400);
  }
}
