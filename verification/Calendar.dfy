/**
 The activity log's UTC timestamps (src/activity.rs): Howard Hinnant's days-to-date
 arithmetic, and the RFC 3339 string built from it.

 The reference is the calendar itself: the Gregorian leap-year rule of Appendix C of RFC 3339,
 the month lengths of its section 5.7, and the rule for the day after a date.
 */
module Calendar {
  import opened Decimals

  datatype Date = Date(y: int, m: int, d: int)

  // ---------------------------------------------------------------- the calendar

  predicate IsLeap(y: int) {
    y % 4 == 0 && (y % 100 != 0 || y % 400 == 0)
  }

  function DaysInMonth(y: int, m: int): int {
    if m == 2 then (if IsLeap(y) then 29 else 28)
    else if m == 4 || m == 6 || m == 9 || m == 11 then 30 else 31
  }

  predicate IsDate(t: Date) {
    1 <= t.m <= 12 && 1 <= t.d <= DaysInMonth(t.y, t.m)
  }

  function DayAfter(t: Date): Date {
    if t.d < DaysInMonth(t.y, t.m) then Date(t.y, t.m, t.d + 1)
    else if t.m < 12 then Date(t.y, t.m + 1, 1)
    else Date(t.y + 1, 1, 1)
  }

  predicate Earlier(a: Date, b: Date) {
    a.y < b.y || (a.y == b.y && (a.m < b.m || (a.m == b.m && a.d < b.d)))
  }

  // ---------------------------------------------------------------- the code

  /** The year of the era, from the day of the era. */
  function YearOfEra(doe: int): int {
    (doe - doe / 1460 + doe / 36_524 - doe / 146_096) / 365
  }

  function Civil(days: int): Date {
    var z := days + 719_468;
    var era := z / 146_097;
    var doe := z % 146_097;
    var yoe := YearOfEra(doe);
    CivilIn(era, yoe, doe - (365 * yoe + yoe / 4 - yoe / 100))
  }

  /** The date on day `doy` of year `yoe` of an era, counted from 1 March. */
  function CivilIn(era: int, yoe: int, doy: int): Date {
    var mp := (5 * doy + 2) / 153;
    var d := doy - (153 * mp + 2) / 5 + 1;
    var m := if mp < 10 then mp + 3 else mp - 9;
    Date(yoe + era * 400 + (if m <= 2 then 1 else 0), m, d)
  }

  // ---------------------------------------------------------------- years of an era

  /** Days of an era before its year `y` begins; years here begin on 1 March. */
  function YearStart(y: int): int {
    365 * y + y / 4 - y / 100
  }

  /** Year `y` of an era ends with a 29 February: the era's last year does, its centuries do not. */
  predicate LongYear(y: int) {
    (y + 1) % 4 == 0 && ((y + 1) % 100 != 0 || (y + 1) % 400 == 0)
  }

  function YearLength(y: int): int {
    if LongYear(y) then 366 else 365
  }

  /** Year `100 * a + 4 * b + c` of an era: century, leap cycle, year of the cycle. */
  lemma YearSplit(a: int, b: int, c: int)
    requires 0 <= a < 4 && 0 <= b < 25 && 0 <= c < 4
    ensures YearStart(100 * a + 4 * b + c) == 36_524 * a + 1461 * b + 365 * c
    ensures LongYear(100 * a + 4 * b + c) <==> c == 3 && (b != 24 || a == 3)
  {
    var y := 100 * a + 4 * b + c;
    assert y == 4 * (25 * a + b) + c && y == 100 * a + (4 * b + c);
    assert y / 4 == 25 * a + b && y / 100 == a;
    assert (y + 1) % 4 == 0 <==> c == 3;
  }

  /** The three corrections in Hinnant's year formula. */
  lemma DivideEra(a: int, b: int, c: int, k: int, carry: int)
    requires 0 <= a < 4 && 0 <= b < 25 && 0 <= c < 4
    requires 0 <= k < if c == 3 && (b != 24 || a == 3) then 366 else 365
    requires carry == if 24 * a + b + 365 * c + k < 1460 then 0 else 1
    ensures var doe := 36_524 * a + 1461 * b + 365 * c + k;
      doe - doe / 1460 + doe / 36_524 - doe / 146_096 == 365 * (100 * a + 4 * b + c) + (k - carry)
    ensures 0 <= k - carry < 365
  {
    var doe := 36_524 * a + 1461 * b + 365 * c + k;
    assert doe / 1460 == 25 * a + b + carry by {
      assert doe == 1460 * (25 * a + b) + (24 * a + b + 365 * c + k);
    }
    assert doe / 36_524 - doe / 146_096 == a by {
      assert doe == 36_524 * a + (1461 * b + 365 * c + k);
    }
  }

  /** Hinnant's year formula, at every day `k` of every year of the era. */
  lemma YearOfEraAt(a: int, b: int, c: int, k: int)
    requires 0 <= a < 4 && 0 <= b < 25 && 0 <= c < 4
    requires 0 <= k < YearLength(100 * a + 4 * b + c)
    ensures YearOfEra(YearStart(100 * a + 4 * b + c) + k) == 100 * a + 4 * b + c
  {
    YearSplit(a, b, c);
    var carry := if 24 * a + b + 365 * c + k < 1460 then 0 else 1;
    DivideEra(a, b, c, k, carry);
  }

  lemma YearOfEraExact(doe: int)
    requires 0 <= doe < 146_097
    ensures var y := YearOfEra(doe);
      0 <= y < 400 && YearStart(y) <= doe < YearStart(y) + YearLength(y)
  {
    var a := if doe == 146_096 then 3 else doe / 36_524;
    var r := doe - 36_524 * a;
    var b := r / 1461;
    var q := r - 1461 * b;
    var c := if q == 1460 then 3 else q / 365;
    YearSplit(a, b, c);
    YearOfEraAt(a, b, c, q - 365 * c);
  }

  // ---------------------------------------------------------------- months of a year

  /** Days from 1 March to the first of month `mp` after March. */
  function MonthStart(mp: int): int {
    (153 * mp + 2) / 5
  }

  /** The calendar month and the length, in a year of the era that starts in civil year `y`. */
  function MonthOf(mp: int): int {
    if mp < 10 then mp + 3 else mp - 9
  }

  lemma MonthExact(doy: int)
    requires 0 <= doy < 366
    ensures var mp := (5 * doy + 2) / 153;
      0 <= mp < 12 && MonthStart(mp) <= doy < MonthStart(mp + 1)
  {
  }

  lemma MonthLengths(mp: int, y: int)
    requires 0 <= mp < 12
    ensures mp < 11 ==> MonthStart(mp + 1) - MonthStart(mp) == DaysInMonth(y + (if mp < 10 then 0 else 1), MonthOf(mp))
    ensures mp == 11 ==> MonthStart(mp) + DaysInMonth(y + 1, 2) == if IsLeap(y + 1) then 366 else 365
  {
    assert mp == 0 || mp == 1 || mp == 2 || mp == 3 || mp == 4 || mp == 5
        || mp == 6 || mp == 7 || mp == 8 || mp == 9 || mp == 10 || mp == 11;
  }

  // ---------------------------------------------------------------- dates and day numbers

  /** The day number of a date: the inverse the code does not have. */
  function DayNumber(t: Date): int {
    var y := if t.m <= 2 then t.y - 1 else t.y;
    var mp := if t.m <= 2 then t.m + 9 else t.m - 3;
    DayAt(y / 400, y % 400, mp, t.d - 1)
  }

  /** The day number of day `dom` of month `mp` of year `yoe` of an era. */
  function DayAt(era: int, yoe: int, mp: int, dom: int): int {
    era * 146_097 + (YearStart(yoe) + (MonthStart(mp) + dom)) - 719_468
  }

  /** And its date. */
  function DateAt(era: int, yoe: int, mp: int, dom: int): Date {
    Date(yoe + era * 400 + (if MonthOf(mp) <= 2 then 1 else 0), MonthOf(mp), dom + 1)
  }

  lemma Remainder4(x: int, k: int, r: int)
    requires x == 4 * k + r
    ensures x % 4 == r % 4
  {
  }

  lemma Remainder100(x: int, k: int, r: int)
    requires x == 100 * k + r
    ensures x % 100 == r % 100
  {
  }

  lemma Remainder400(x: int, k: int, r: int)
    requires x == 400 * k + r
    ensures x % 400 == r % 400
  {
  }

  lemma LeapRepeats(y: int, q: int, r: int)
    requires y == 400 * q + r
    ensures IsLeap(y) <==> IsLeap(r)
  {
    Remainder4(y, 100 * q, r);
    Remainder100(y, 4 * q, r);
    Remainder400(y, q, r);
  }

  lemma LeapInEra(y: int)
    ensures LongYear(y % 400) <==> IsLeap(y + 1)
  {
    LeapRepeats(y + 1, y / 400, y % 400 + 1);
  }

  lemma EraOf(n: int, era: int, doe: int)
    requires 0 <= doe < 146_097 && n + 719_468 == era * 146_097 + doe
    ensures (n + 719_468) / 146_097 == era && (n + 719_468) % 146_097 == doe
  {
  }

  lemma YearOfEraOf(yoe: int, doy: int)
    requires 0 <= yoe < 400 && 0 <= doy < YearLength(yoe)
    ensures YearOfEra(YearStart(yoe) + doy) == yoe && 0 <= YearStart(yoe) + doy < 146_097
  {
    var a, b, c := yoe / 100, yoe % 100 / 4, yoe % 4;
    assert yoe == 100 * a + 4 * b + c;
    YearSplit(a, b, c);
    YearOfEraAt(a, b, c, doy);
  }

  lemma MonthOfDay(mp: int, dom: int)
    requires 0 <= mp < 12 && 0 <= dom < MonthStart(mp + 1) - MonthStart(mp)
    ensures (5 * (MonthStart(mp) + dom) + 2) / 153 == mp
  {
  }

  lemma CivilInYear(era: int, yoe: int, mp: int, dom: int)
    requires 0 <= mp < 12 && 0 <= dom < MonthStart(mp + 1) - MonthStart(mp)
    ensures CivilIn(era, yoe, MonthStart(mp) + dom) == DateAt(era, yoe, mp, dom)
  {
    MonthOfDay(mp, dom);
  }

  lemma CivilOnDay(n: int, era: int, yoe: int, doy: int)
    requires 0 <= yoe < 400 && 0 <= doy < YearLength(yoe)
    requires n + 719_468 == era * 146_097 + (YearStart(yoe) + doy)
    ensures Civil(n) == CivilIn(era, yoe, doy)
  {
    YearOfEraOf(yoe, doy);
    EraOf(n, era, YearStart(yoe) + doy);
  }

  /** The code, at day `dom` of month `mp` of year `yoe` of an era. */
  lemma CivilAt(era: int, yoe: int, mp: int, dom: int)
    requires 0 <= yoe < 400 && 0 <= mp < 12 && 0 <= dom < MonthStart(mp + 1) - MonthStart(mp)
    requires MonthStart(mp) + dom < YearLength(yoe)
    ensures Civil(DayAt(era, yoe, mp, dom)) == DateAt(era, yoe, mp, dom)
  {
    var n, doy := DayAt(era, yoe, mp, dom), MonthStart(mp) + dom;
    CivilOnDay(n, era, yoe, doy);
    assert Civil(n) == CivilIn(era, yoe, doy);
    CivilInYear(era, yoe, mp, dom);
  }

  lemma DayInYear(t: Date, y: int, mp: int)
    requires IsDate(t) && 0 <= mp < 12 && t.m == MonthOf(mp) && t.y == y + if t.m <= 2 then 1 else 0
    ensures t.d - 1 < MonthStart(mp + 1) - MonthStart(mp)
    ensures MonthStart(mp) + t.d - 1 < YearLength(y % 400)
  {
    MonthLengths(mp, y);
    LeapInEra(y);
    MonthSums(mp);
  }

  /** Where date `t` is: era, year of the era, month of the year, day of the month. */
  lemma Place(t: Date) returns (era: int, yoe: int, mp: int, dom: int)
    requires IsDate(t)
    ensures 0 <= yoe < 400 && 0 <= mp < 12 && 0 <= dom < MonthStart(mp + 1) - MonthStart(mp)
    ensures MonthStart(mp) + dom < YearLength(yoe)
    ensures t == DateAt(era, yoe, mp, dom) && DayNumber(t) == DayAt(era, yoe, mp, dom)
  {
    var y := if t.m <= 2 then t.y - 1 else t.y;
    mp := if t.m <= 2 then t.m + 9 else t.m - 3;
    era, yoe, dom := y / 400, y % 400, t.d - 1;
    DayInYear(t, y, mp);
  }

  /** The code undoes the day count, for every date. */
  lemma CivilOfDayNumber(t: Date)
    requires IsDate(t)
    ensures Civil(DayNumber(t)) == t
  {
    var era, yoe, mp, dom := Place(t);
    CivilAt(era, yoe, mp, dom);
  }

  lemma MonthSums(mp: int)
    requires 0 <= mp < 12
    ensures MonthStart(11) == 337 && MonthStart(12) == 367 && (mp < 11 ==> MonthStart(mp + 1) <= 337)
  {
  }

  lemma EraOfYear(era: int, yoe: int)
    requires 0 <= yoe < 400
    ensures (yoe + era * 400) / 400 == era && (yoe + era * 400) % 400 == yoe
  {
  }

  /** Where day `n` is: era, year of the era, month of the year, day of the month. */
  lemma Locate(n: int) returns (era: int, yoe: int, mp: int, dom: int)
    ensures 0 <= yoe < 400 && 0 <= mp < 12 && 0 <= dom < MonthStart(mp + 1) - MonthStart(mp)
    ensures MonthStart(mp) + dom < YearLength(yoe)
    ensures n == DayAt(era, yoe, mp, dom)
  {
    era := (n + 719_468) / 146_097;
    var doe := (n + 719_468) % 146_097;
    YearOfEraExact(doe);
    yoe := YearOfEra(doe);
    var doy := doe - YearStart(yoe);
    MonthExact(doy);
    mp := (5 * doy + 2) / 153;
    dom := doy - MonthStart(mp);
  }

  lemma DateAtIsDate(era: int, yoe: int, mp: int, dom: int)
    requires 0 <= yoe < 400 && 0 <= mp < 12 && 0 <= dom < MonthStart(mp + 1) - MonthStart(mp)
    requires MonthStart(mp) + dom < YearLength(yoe)
    ensures IsDate(DateAt(era, yoe, mp, dom)) && DayNumber(DateAt(era, yoe, mp, dom)) == DayAt(era, yoe, mp, dom)
  {
    var y := yoe + era * 400;
    EraOfYear(era, yoe);
    MonthLengths(mp, y);
    LeapInEra(y);
  }

  /** And the day count undoes the code, for every integer; so `Civil` always gives a date. */
  lemma DayNumberOfCivil(n: int)
    ensures IsDate(Civil(n)) && DayNumber(Civil(n)) == n
  {
    var era, yoe, mp, dom := Locate(n);
    CivilAt(era, yoe, mp, dom);
    DateAtIsDate(era, yoe, mp, dom);
  }

  // ---------------------------------------------------------------- day by day

  lemma YearSteps(era: int, yoe: int)
    requires 0 <= yoe < 400
    ensures var y := yoe + era * 400;
      DayAt((y + 1) / 400, (y + 1) % 400, 0, 0) == DayAt(era, yoe, 0, YearLength(yoe))
  {
    if yoe < 399 {
      EraOfYear(era, yoe + 1);
      YearLengths(yoe);
    } else {
      EraOfYear(era + 1, 0);
    }
  }

  lemma YearLengths(yoe: int)
    requires 0 <= yoe < 399
    ensures YearStart(yoe + 1) == YearStart(yoe) + YearLength(yoe)
  {
    assert (yoe + 1) / 4 == yoe / 4 + if (yoe + 1) % 4 == 0 then 1 else 0;
    assert (yoe + 1) / 100 == yoe / 100 + if (yoe + 1) % 100 == 0 then 1 else 0;
  }

  /** From the last of February to the first of March. */
  lemma YearEnds(y: int)
    ensures DayNumber(Date(y + 1, 3, 1)) == DayNumber(Date(y + 1, 2, DaysInMonth(y + 1, 2))) + 1
  {
    MonthLengths(11, y);
    LeapInEra(y);
    YearSteps(y / 400, y % 400);
  }

  /** From the last of another month to the first of the next. */
  lemma MonthEnds(t: Date)
    requires IsDate(t) && t.m != 2 && t.d == DaysInMonth(t.y, t.m)
    ensures DayNumber(DayAfter(t)) == DayNumber(t) + 1
  {
    var y := if t.m <= 2 then t.y - 1 else t.y;
    var mp := if t.m <= 2 then t.m + 9 else t.m - 3;
    MonthLengths(mp, y);
    assert DayNumber(t) == DayAt(y / 400, y % 400, mp, t.d - 1);
    assert DayNumber(DayAfter(t)) == DayAt(y / 400, y % 400, mp + 1, 0);
  }

  /** The day count steps by one from a date to the next. */
  lemma DayNumberSteps(t: Date)
    requires IsDate(t)
    ensures IsDate(DayAfter(t)) && DayNumber(DayAfter(t)) == DayNumber(t) + 1
  {
    if t.d == DaysInMonth(t.y, t.m) {
      if t.m == 2 {
        YearEnds(t.y - 1);
      } else {
        MonthEnds(t);
      }
    }
  }

  lemma DayZero()
    ensures Civil(0) == Date(1970, 1, 1)
  {
    assert DayNumber(Date(1970, 1, 1)) == 0;
    CivilOfDayNumber(Date(1970, 1, 1));
  }

  /**
   The timestamp arithmetic is right on every day there is: day 0 is 1 January 1970, and each
   day's date is the Gregorian successor of the day before's. With `DayNumberOfCivil` and
   `CivilOfDayNumber` it is a bijection between the integers and the dates.
   */
  lemma CivilIsTheCalendar(n: int)
    ensures Civil(0) == Date(1970, 1, 1) && Civil(n + 1) == DayAfter(Civil(n))
  {
    DayZero();
    var t := Civil(n);
    DayNumberOfCivil(n);
    DayNumberSteps(t);
    CivilOfDayNumber(DayAfter(t));
  }

  /** `f` gives a date at `n` and the next date at `n + 1`. */
  ghost predicate StepsAt(f: int -> Date, n: int) {
    IsDate(f(n)) && f(n + 1) == DayAfter(f(n))
  }

  lemma {:induction false} StepsAreMonotone(f: int -> Date, a: int, b: int)
    requires a < b && forall n :: StepsAt(f, n)
    ensures Earlier(f(a), f(b))
    decreases b - a
  {
    assert StepsAt(f, b - 1);
    if a < b - 1 {
      StepsAreMonotone(f, a, b - 1);
    }
  }

  /** Later days have later dates. */
  lemma CivilMonotone(a: int, b: int)
    requires a < b
    ensures Earlier(Civil(a), Civil(b))
  {
    forall n
      ensures StepsAt(Civil, n)
    {
      DayNumberOfCivil(n);
      CivilIsTheCalendar(n);
    }
    StepsAreMonotone(Civil, a, b);
  }

  // ---------------------------------------------------------------- the string

  /** Whole seconds since the epoch of a time in nanoseconds; a time before it counts as 0. */
  function Seconds(t: int): nat {
    if t < 0 then 0 else t / 1_000_000_000
  }

  function DateOf(t: int): Date {
    Civil(Seconds(t) / 86_400)
  }

  lemma YearAtLeast1970(n: nat)
    ensures Civil(n).y >= 1970
  {
    DayZero();
    if 0 < n {
      CivilMonotone(0, n);
    }
  }

  function Clock(h: nat, m: nat, s: nat): string {
    Padded(h, 2) + (":" + (Padded(m, 2) + (":" + (Padded(s, 2) + "Z"))))
  }

  function ClockString(s: nat): string {
    Clock(s / 3600, s / 60 % 60, s % 60)
  }

  function Stamp(date: Date, s: nat): string
    requires 0 <= date.y && IsDate(date) && s < 86_400
  {
    Padded(date.y, 4) + ("-" + (Padded(date.m, 2) + ("-" + (Padded(date.d, 2) + ("T" + ClockString(s))))))
  }

  function Rfc3339Utc(t: int): string {
    YearAtLeast1970(Seconds(t) / 86_400);
    DayNumberOfCivil(Seconds(t) / 86_400);
    Stamp(DateOf(t), Seconds(t) % 86_400)
  }

  /** Byte-wise order, as a sort of the file's lines sees it. */
  predicate SortsBefore(a: string, b: string) {
    b != [] && (a == [] || a[0] < b[0] || (a[0] == b[0] && SortsBefore(a[1..], b[1..])))
  }

  lemma {:induction false} HeadDecides(a: string, b: string, x: string, y: string)
    requires |a| == |b| && SortsBefore(a, b)
    ensures SortsBefore(a + x, b + y)
  {
    if a[0] == b[0] {
      HeadDecides(a[1..], b[1..], x, y);
      assert (a + x)[1..] == a[1..] + x && (b + y)[1..] == b[1..] + y;
    }
  }

  lemma {:induction false} TailDecides(a: string, x: string, y: string)
    requires SortsBefore(x, y)
    ensures SortsBefore(a + x, a + y)
  {
    if a == [] {
      assert a + x == x && a + y == y;
    } else {
      TailDecides(a[1..], x, y);
      assert (a + x)[1..] == a[1..] + x && (a + y)[1..] == a[1..] + y;
    }
  }

  lemma {:induction false} SortsAsymmetric(a: string, b: string)
    requires SortsBefore(a, b)
    ensures !SortsBefore(b, a) && a != b
  {
    if a != [] && a[0] == b[0] {
      SortsAsymmetric(a[1..], b[1..]);
    }
  }

  function Pow10(w: nat): nat {
    if w == 0 then 1 else 10 * Pow10(w - 1)
  }

  lemma {:induction false} PaddedWidth(n: nat, w: nat)
    requires 0 < w && n < Pow10(w)
    ensures |Padded(n, w)| == w
  {
    if w > 1 {
      PaddedWidth(n / 10, w - 1);
    }
  }

  lemma {:induction false} PaddedSorts(a: nat, b: nat, w: nat)
    requires 0 < w && a < b < Pow10(w)
    ensures SortsBefore(Padded(a, w), Padded(b, w))
  {
    if w > 1 {
      PaddedWidth(a / 10, w - 1);
      PaddedWidth(b / 10, w - 1);
      if a / 10 < b / 10 {
        PaddedSorts(a / 10, b / 10, w - 1);
        HeadDecides(Padded(a / 10, w - 1), Padded(b / 10, w - 1), [Digit(a % 10)], [Digit(b % 10)]);
      } else {
        assert Digit(a % 10) < Digit(b % 10);
        TailDecides(Padded(a / 10, w - 1), [Digit(a % 10)], [Digit(b % 10)]);
      }
    } else {
      assert Digit(a) < Digit(b);
    }
  }

  /** Two fields one after the other: the first decides unless it is equal. */
  lemma FieldsSort(a: nat, b: nat, w: nat, x: string, y: string)
    requires 0 < w && a < Pow10(w) && b < Pow10(w)
    requires a < b || (a == b && SortsBefore(x, y))
    ensures SortsBefore(Padded(a, w) + x, Padded(b, w) + y)
  {
    PaddedWidth(a, w);
    PaddedWidth(b, w);
    if a < b {
      PaddedSorts(a, b, w);
      HeadDecides(Padded(a, w), Padded(b, w), x, y);
    } else {
      TailDecides(Padded(a, w), x, y);
    }
  }

  lemma ClockSorts(h: nat, m: nat, s: nat, h': nat, m': nat, s': nat)
    requires h < 24 && m < 60 && s < 60 && h' < 24 && m' < 60 && s' < 60
    requires h < h' || (h == h' && (m < m' || (m == m' && s < s')))
    ensures SortsBefore(Clock(h, m, s), Clock(h', m', s'))
  {
    var sec, sec' := Padded(s, 2) + "Z", Padded(s', 2) + "Z";
    var min, min' := Padded(m, 2) + (":" + sec), Padded(m', 2) + (":" + sec');
    assert Pow10(2) == 100;
    if h == h' {
      if m == m' {
        FieldsSort(s, s', 2, "Z", "Z");
        TailDecides(":", sec, sec');
      }
      FieldsSort(m, m', 2, ":" + sec, ":" + sec');
      TailDecides(":", min, min');
    }
    FieldsSort(h, h', 2, ":" + min, ":" + min');
  }

  lemma SecondsSort(a: nat, b: nat)
    requires a < b < 86_400
    ensures SortsBefore(ClockString(a), ClockString(b))
  {
    var h, m, s := a / 3600, a / 60 % 60, a % 60;
    var h', m', s' := b / 3600, b / 60 % 60, b % 60;
    assert a == 3600 * h + 60 * m + s && b == 3600 * h' + 60 * m' + s';
    ClockSorts(h, m, s, h', m', s');
  }

  lemma StampSorts(a: Date, b: Date, s: nat, r: nat)
    requires IsDate(a) && IsDate(b) && 0 <= a.y && 0 <= b.y <= 9999 && s < 86_400 && r < 86_400
    requires Earlier(a, b) || (a == b && s < r)
    ensures SortsBefore(Stamp(a, s), Stamp(b, r))
  {
    var dayA, dayB := Padded(a.d, 2) + ("T" + ClockString(s)), Padded(b.d, 2) + ("T" + ClockString(r));
    var monA, monB := Padded(a.m, 2) + ("-" + dayA), Padded(b.m, 2) + ("-" + dayB);
    if a.y == b.y {
      if a.m == b.m {
        if a.d == b.d {
          SecondsSort(s, r);
          TailDecides("T", ClockString(s), ClockString(r));
        }
        FieldsSort(a.d, b.d, 2, "T" + ClockString(s), "T" + ClockString(r));
        TailDecides("-", dayA, dayB);
      }
      FieldsSort(a.m, b.m, 2, "-" + dayA, "-" + dayB);
      TailDecides("-", monA, monB);
    }
    FieldsSort(a.y, b.y, 4, "-" + monA, "-" + monB);
  }

  lemma LaterSorts(t: int, u: int)
    requires Seconds(t) < Seconds(u) && DateOf(u).y <= 9999
    ensures SortsBefore(Rfc3339Utc(t), Rfc3339Utc(u))
  {
    SplitDays(Seconds(t), Seconds(u));
    DatesInOrder(Seconds(t) / 86_400, Seconds(u) / 86_400);
    StampSorts(DateOf(t), DateOf(u), Seconds(t) % 86_400, Seconds(u) % 86_400);
  }

  lemma SplitDays(a: nat, b: nat)
    requires a < b
    ensures a / 86_400 < b / 86_400 || (a / 86_400 == b / 86_400 && a % 86_400 < b % 86_400)
  {
  }

  lemma DatesInOrder(a: nat, b: nat)
    requires a <= b
    ensures IsDate(Civil(a)) && IsDate(Civil(b)) && 0 <= Civil(a).y && 0 <= Civil(b).y
    ensures a < b ==> Earlier(Civil(a), Civil(b))
  {
    YearAtLeast1970(a);
    YearAtLeast1970(b);
    DayNumberOfCivil(a);
    DayNumberOfCivil(b);
    if a < b {
      CivilMonotone(a, b);
    }
  }

  /**
   Timestamps of years up to 9999 sort as their times do, to the second (section 5.1 of RFC
   3339): one is before the other exactly when it is at least a second earlier.
   */
  lemma TimestampsSort(t: int, u: int)
    requires DateOf(t).y <= 9999 && DateOf(u).y <= 9999
    ensures SortsBefore(Rfc3339Utc(t), Rfc3339Utc(u)) <==> Seconds(t) < Seconds(u)
  {
    if Seconds(t) < Seconds(u) {
      LaterSorts(t, u);
    } else if Seconds(u) < Seconds(t) {
      LaterSorts(u, t);
      SortsAsymmetric(Rfc3339Utc(u), Rfc3339Utc(t));
    } else if SortsBefore(Rfc3339Utc(t), Rfc3339Utc(u)) {
      SortsAsymmetric(Rfc3339Utc(t), Rfc3339Utc(u));
    }
  }
}
