/** When a recurring job runs next: the schedule vocabulary over UTC instants in milliseconds. */
module Schedule {
  import opened Calendar

  const MS_PER_DAY := 86_400_000

  datatype Unit = Seconds | Minutes | Hours | Days

  datatype Spec =
    | Every(amount: nat, unit: Unit)
    | Daily(hour: nat, minute: nat)
    | Weekly(day: nat, hour: nat, minute: nat)
    | Monthly(date: nat, hour: nat, minute: nat)

  function UnitMs(u: Unit): int {
    match u
    case Seconds => 1_000
    case Minutes => 60_000
    case Hours => 3_600_000
    case Days => 86_400_000
  }

  function Day(t: int): int { t / MS_PER_DAY }

  function TimeInDay(t: int): int { t % MS_PER_DAY }

  /** 0 is Sunday. */
  function WeekDay(t: int): int { (Day(t) + 4) % 7 }

  function UtcYear(t: int): int { YearOfDay(Day(t)) }

  function TimeOfDay(hour: nat, minute: nat): int { hour * 3_600_000 + minute * 60_000 }

  /** How `Date.UTC` reads its year argument (MakeFullYear of section 21.4.1): 0 to 99 mean 1900 to 1999. */
  function FullYear(y: int): int {
    if 0 <= y <= 99 then 1900 + y else y
  }

  function Utc(year: int, month: int, date: int, time: int): int {
    MakeDay(FullYear(year), month, date) * MS_PER_DAY + time
  }

  function SetUtcDate(t: int, date: int): int {
    MakeDay(UtcYear(t), MonthOfDay(Day(t)), date) * MS_PER_DAY + TimeInDay(t)
  }

  function Min(a: int, b: int): int {
    if a < b then a else b
  }

  // ---- the schedule a spec describes ----

  /** The documented ranges of a schedule. */
  predicate InRange(s: Spec) {
    match s
    case Every(amount, _) => amount >= 1
    case Daily(hour, minute) => hour < 24 && minute < 60
    case Weekly(day, hour, minute) => day <= 6 && hour < 24 && minute < 60
    case Monthly(date, hour, minute) => date >= 1 && hour < 24 && minute < 60
  }

  /** Instant `t` is one of the occurrences of a calendar schedule. */
  predicate Occurs(s: Spec, t: int)
    requires !s.Every?
  {
    match s
    case Daily(hour, minute) => TimeInDay(t) == TimeOfDay(hour, minute)
    case Weekly(day, hour, minute) => TimeInDay(t) == TimeOfDay(hour, minute) && WeekDay(t) == day
    case Monthly(date, hour, minute) =>
      TimeInDay(t) == TimeOfDay(hour, minute) && DateOfDay(Day(t)) == Min(date, 28)
  }

  /** The least occurrence strictly after `from`. */
  ghost predicate IsNext(s: Spec, from: int, r: int)
    requires !s.Every?
  {
    from < r && Occurs(s, r) && forall t :: from < t < r ==> !Occurs(s, t)
  }

  lemma NextIsUnique(s: Spec, from: int, r: int, r': int)
    requires !s.Every? && IsNext(s, from, r) && IsNext(s, from, r')
    ensures r == r'
  {
  }

  // ---- what the code computes ----

  /** `nextAtTimeOfDay`, were the year of `from` read as `year`. */
  function AtTimeOfDay(from: int, year: int, time: int): int {
    var next := MakeDay(year, MonthOfDay(Day(from)), DateOfDay(Day(from))) * MS_PER_DAY + time;
    if next <= from then SetUtcDate(next, DateOfDay(Day(next)) + 1) else next
  }

  /** The monthly branch, were the year of `from` read as `year`. */
  function OnDateOfMonth(from: int, year: int, date: int, time: int): int {
    var month := MonthOfDay(Day(from));
    var next := MakeDay(year, month, date) * MS_PER_DAY + time;
    if next <= from then MakeDay(year, month + 1, date) * MS_PER_DAY + time else next
  }

  function NextInYear(s: Spec, from: int, year: int): int
    requires s.Weekly? ==> s.day <= 6
  {
    match s
    case Every(amount, unit) => from + amount * UnitMs(unit)
    case Daily(hour, minute) => AtTimeOfDay(from, year, TimeOfDay(hour, minute))
    case Weekly(day, hour, minute) =>
      var first := AtTimeOfDay(from, year, TimeOfDay(hour, minute));
      first + (day - WeekDay(first)) % 7 * MS_PER_DAY
    case Monthly(date, hour, minute) =>
      OnDateOfMonth(from, year, Min(date, 28), TimeOfDay(hour, minute))
  }

  /** The result of `computeNextRun` on a recognized spec. */
  function NextRun(s: Spec, from: int): int
    requires s.Weekly? ==> s.day <= 6
  {
    NextInYear(s, from, FullYear(UtcYear(from)))
  }

  lemma UtcReadsFullYear(year: int, month: int, date: int, time: int)
    ensures Utc(year, month, date, time) == MakeDay(FullYear(year), month, date) * MS_PER_DAY + time
  {
  }

  /** The least instant after `from` at that time of day, exactly unless the year of `from` is misread. */
  method NextAtTimeOfDay(from: int, hour: nat, minute: nat) returns (next: int)
    ensures hour < 24 && minute < 60 ==> (IsNext(Daily(hour, minute), from, next) <==> !YearIsMisread(from))
    ensures next == AtTimeOfDay(from, FullYear(UtcYear(from)), TimeOfDay(hour, minute))
  {
    next := ReadTimeOfDay(from, hour, minute);
    hide AtTimeOfDay, FullYear, UtcYear, IsNext, YearIsMisread, TimeOfDay;
    if hour < 24 && minute < 60 {
      DailyRunIsNext(from, hour, minute);
    }
  }

  /** What the two statements compute. */
  method ReadTimeOfDay(from: int, hour: nat, minute: nat) returns (next: int)
    ensures next == AtTimeOfDay(from, FullYear(UtcYear(from)), TimeOfDay(hour, minute))
  {
    UtcReadsFullYear(UtcYear(from), MonthOfDay(Day(from)), DateOfDay(Day(from)),
                     TimeOfDay(hour, minute));
    hide YearOfDay, MonthOfDay, DateOfDay, MakeDay, UtcYear, FullYear, Utc, SetUtcDate;
    next := Utc(UtcYear(from), MonthOfDay(Day(from)), DateOfDay(Day(from)), TimeOfDay(hour, minute));
    if next <= from {
      next := SetUtcDate(next, DateOfDay(Day(next)) + 1);
    }
  }

  /**
   `computeNextRun` on a recognized spec. The weekly loop needs a weekday that exists, and then takes
   at most six rounds: each brings the instant one day closer to that weekday.
   */
  method ComputeNextRun(s: Spec, from: int) returns (next: int, ghost rounds: nat)
    requires s.Weekly? ==> s.day <= 6
    ensures next == NextRun(s, from)
    ensures s.Every? ==>
      && (s.unit.Seconds? ==> next == from + 1_000 * s.amount)
      && (s.unit.Minutes? ==> next == from + 60_000 * s.amount)
      && (s.unit.Hours? ==> next == from + 60 * 60_000 * s.amount)
      && (s.unit.Days? ==> next == from + 24 * 60 * 60_000 * s.amount)
    ensures InRange(s) && !s.Every? ==> (IsNext(s, from, next) <==> !YearIsMisread(from))
    ensures InRange(s) ==> next > from
    ensures rounds <= 6
  {
    hide YearOfDay, MonthOfDay, DateOfDay, MakeDay, UtcYear, FullYear, Utc, AtTimeOfDay, WeekDay, IsNext, YearIsMisread,
         InRange, NextRun;
    rounds := 0;
    match s {
      case Every(amount, unit) =>
        next := from + amount * UnitMs(unit);
      case Daily(hour, minute) =>
        next := NextAtTimeOfDay(from, hour, minute);
      case Weekly(day, hour, minute) =>
        next := NextAtTimeOfDay(from, hour, minute);
        ghost var first := next;
        WeekDayRange(first);
        ghost var distance := (day - WeekDay(first)) % 7;
        while WeekDay(next) != day
          invariant rounds <= distance
          invariant next == first + rounds * MS_PER_DAY
          invariant (day - WeekDay(next)) % 7 == distance - rounds
          decreases distance - rounds
        {
          WeekDayRange(next);
          LaterWeekDay(next, day);
          next := next + 86_400_000;
          rounds := rounds + 1;
        }
      case Monthly(date, hour, minute) =>
        var targetDate := Min(date, 28);
        var month := MonthOfDay(Day(from));
        UtcReadsFullYear(UtcYear(from), month, targetDate, TimeOfDay(hour, minute));
        next := Utc(UtcYear(from), month, targetDate, TimeOfDay(hour, minute));
        if next <= from {
          UtcReadsFullYear(UtcYear(from), month + 1, targetDate, TimeOfDay(hour, minute));
          next := Utc(UtcYear(from), month + 1, targetDate, TimeOfDay(hour, minute));
        }
    }
    assert next == NextInYear(s, from, FullYear(UtcYear(from)));
    hide NextInYear;
    RunIsRight(s, from);
  }

  lemma WeekDayRange(t: int)
    ensures 0 <= WeekDay(t) <= 6
  {
  }

  lemma LaterWeekDay(t: int, day: nat)
    requires day <= 6 && WeekDay(t) != day
    ensures WeekDay(t + MS_PER_DAY) == (WeekDay(t) + 1) % 7
    ensures (day - WeekDay(t + MS_PER_DAY)) % 7 == (day - WeekDay(t)) % 7 - 1
  {
    assert Day(t + MS_PER_DAY) == Day(t) + 1;
  }

  /** On a weekday past Saturday, which the pattern accepts, the weekly loop would never end. */
  lemma NoSuchWeekDay(day: nat, t: int, rounds: nat)
    requires day >= 7
    ensures WeekDay(t + rounds * MS_PER_DAY) != day
  {
  }

  // ---- arithmetic of instants ----

  predicate InDay(time: int) {
    0 <= time < MS_PER_DAY
  }

  lemma DayAndTime(d: int, time: int)
    requires InDay(time)
    ensures Day(d * MS_PER_DAY + time) == d && TimeInDay(d * MS_PER_DAY + time) == time
  {
  }

  lemma Instant(t: int)
    ensures t == Day(t) * MS_PER_DAY + TimeInDay(t) && InDay(TimeInDay(t))
  {
  }

  /** Instants of one time of day are whole days apart. */
  lemma SameTimeOrder(t: int, t': int)
    requires TimeInDay(t) == TimeInDay(t') && t < t'
    ensures Day(t) < Day(t') && t' - t == (Day(t') - Day(t)) * MS_PER_DAY
  {
    Instant(t);
    Instant(t');
  }

  lemma DayOrder(t: int, t': int)
    requires t <= t'
    ensures Day(t) <= Day(t')
  {
  }

  lemma TimeOfDayInDay(hour: nat, minute: nat)
    requires hour < 24 && minute < 60
    ensures InDay(TimeOfDay(hour, minute))
  {
  }

  // ---- daily ----

  lemma SetToNextDate(t: int)
    ensures SetUtcDate(t, DateOfDay(Day(t)) + 1) == t + MS_PER_DAY
  {
    hide MakeDay, YearOfDay, MonthOfDay, DateOfDay, StartOfMonth, Day, TimeInDay;
    var d := Day(t);
    DayToCivilAndBack(d);
    MakeDayInYear(YearOfDay(d), MonthOfDay(d), DateOfDay(d));
    MakeDayInYear(YearOfDay(d), MonthOfDay(d), DateOfDay(d) + 1);
    Instant(t);
  }

  /** The two candidates of a daily schedule: today and tomorrow. */
  lemma AtTimeOfDayIs(from: int, time: int)
    requires InDay(time)
    ensures var today := Day(from) * MS_PER_DAY + time;
            AtTimeOfDay(from, UtcYear(from), time)
            == if today <= from then today + MS_PER_DAY else today
  {
    DayToCivilAndBack(Day(from));
    SetToNextDate(Day(from) * MS_PER_DAY + time);
    hide MakeDay, YearOfDay, MonthOfDay, DateOfDay, SetUtcDate;
  }

  lemma TimeOfDayIsNext(from: int, time: int)
    requires InDay(time)
    ensures var r := AtTimeOfDay(from, UtcYear(from), time);
            && from < r <= from + MS_PER_DAY && TimeInDay(r) == time
            && forall t :: from < t < r ==> TimeInDay(t) != time
  {
    hide AtTimeOfDay, Day, TimeInDay, UtcYear;
    AtTimeOfDayIs(from, time);
    Instant(from);
    var r := AtTimeOfDay(from, UtcYear(from), time);
    DayAndTime(Day(from), time);
    DayAndTime(Day(from) + 1, time);
    forall t | from < t < r ensures TimeInDay(t) != time {
      if TimeInDay(t) == time { SameTimeOrder(t, r); }
    }
  }

  // ---- weekly ----

  lemma WeekDayLater(t: int, k: int)
    ensures WeekDay(t + k * MS_PER_DAY) == (WeekDay(t) + k) % 7
  {
    assert Day(t + k * MS_PER_DAY) == Day(t) + k;
  }

  /** Weekday `day` is first reached `(day - w) % 7` days after weekday `w`. */
  lemma DaysToWeekDay(w: int, day: int, j: int)
    requires 0 <= w <= 6 && 0 <= day <= 6 && 0 <= j <= (day - w) % 7
    ensures (w + j) % 7 == day <==> j == (day - w) % 7
  {
  }

  lemma WeeklyIsNext(from: int, day: nat, hour: nat, minute: nat)
    requires InRange(Weekly(day, hour, minute))
    ensures IsNext(Weekly(day, hour, minute), from,
                   NextInYear(Weekly(day, hour, minute), from, UtcYear(from)))
  {
    hide AtTimeOfDay, TimeOfDay, UtcYear, Day, TimeInDay, WeekDay;
    var time := TimeOfDay(hour, minute);
    TimeOfDayInDay(hour, minute);
    TimeOfDayIsNext(from, time);
    var first := AtTimeOfDay(from, UtcYear(from), time);
    WeekDayRange(first);
    var k := (day - WeekDay(first)) % 7;
    var r := first + k * MS_PER_DAY;
    DaysToWeekDay(WeekDay(first), day, k);
    WeekDayLater(first, k);
    Instant(first);
    DayAndTime(Day(first) + k, time);
    assert Occurs(Weekly(day, hour, minute), r);
    forall t | from < t < r ensures !Occurs(Weekly(day, hour, minute), t) {
      if TimeInDay(t) == time {
        WeeklyTooEarly(first, t, day, k);
      }
    }
  }

  lemma WeeklyTooEarly(first: int, t: int, day: int, k: int)
    requires 0 <= day <= 6 && k == (day - WeekDay(first)) % 7
    requires first <= t < first + k * MS_PER_DAY && TimeInDay(t) == TimeInDay(first)
    ensures WeekDay(t) != day
  {
    hide Day, TimeInDay, WeekDay;
    WeekDayRange(first);
    var j := 0;
    if first < t {
      SameTimeOrder(first, t);
      j := Day(t) - Day(first);
    }
    assert t == first + j * MS_PER_DAY;
    WeekDayLater(first, j);
    DaysToWeekDay(WeekDay(first), day, j);
  }

  // ---- monthly ----

  /** The instant of date `date`, at `time`, of month `m` of year `y`; month 12 is the next January. */
  function OnDate(y: int, m: int, date: int, time: int): int
    requires 0 <= m <= 12
  {
    (StartOfMonth(y, m) + date - 1) * MS_PER_DAY + time
  }

  lemma MakeDayNextMonth(y: int, m: int, date: int)
    requires 0 <= m < 12
    ensures MakeDay(y, m + 1, date) == StartOfMonth(y, m + 1) + date - 1
  {
    if m == 11 {
      YearLength(y);
      assert 12 / 12 == 1 && 12 % 12 == 0;
    } else {
      MakeDayInYear(y, m + 1, date);
    }
  }

  lemma OnDateOfMonthIs(from: int, date: int, time: int)
    ensures var y, m := UtcYear(from), MonthOfDay(Day(from));
            OnDateOfMonth(from, y, date, time)
            == if OnDate(y, m, date, time) <= from then OnDate(y, m + 1, date, time)
               else OnDate(y, m, date, time)
  {
    hide MakeDay, YearOfDay, UtcYear, MonthOfDay, StartOfMonth, Day;
    var y, m := UtcYear(from), MonthOfDay(Day(from));
    MakeDayInYear(y, m, date);
    MakeDayNextMonth(y, m, date);
  }

  /** A date up to the 28th is in every month. */
  lemma DateInMonth(y: int, m: int, date: int)
    requires 0 <= m < 12 && 1 <= date <= 28
    ensures StartOfMonth(y, m) <= StartOfMonth(y, m) + date - 1 < StartOfMonth(y, m + 1)
    ensures DateOfDay(StartOfMonth(y, m) + date - 1) == date
  {
    hide *;
    MonthLength(m, Leap(y));
    MonthEnd(y, m);
    DaysOfMonth(StartOfMonth(y, m) + date - 1, y, m);
  }

  lemma NextJanuary(y: int)
    ensures StartOfMonth(y, 12) == StartOfMonth(y + 1, 0)
  {
    YearLength(y);
  }

  /** The same date of the month after `m`, which may be the next January. */
  lemma DateInNextMonth(y: int, m: int, date: int)
    requires 0 <= m < 12 && 1 <= date <= 28
    ensures DateOfDay(StartOfMonth(y, m + 1) + date - 1) == date
    ensures var first := StartOfMonth(y, m + 1);
            forall d :: first <= d < first + date - 1 ==> DateOfDay(d) != date
  {
    hide StartOfMonth, DateOfDay, DaysInMonth, YearOfDay, MonthOfDay;
    NextJanuary(y);
    var y', m' := if m == 11 then y + 1 else y, if m == 11 then 0 else m + 1;
    DateInMonth(y', m', date);
    forall d | StartOfMonth(y', m') <= d < StartOfMonth(y', m') + date - 1
      ensures DateOfDay(d) != date
    {
      DaysOfMonth(d, y', m');
    }
  }

  /** Within the month of `from`, only one day has a given date. */
  lemma OneDayOfDate(y: int, m: int, d: int, date: int)
    requires 0 <= m < 12 && StartOfMonth(y, m) <= d < StartOfMonth(y, m + 1)
    requires DateOfDay(d) == date
    ensures d == StartOfMonth(y, m) + date - 1
  {
    hide StartOfMonth, DateOfDay;
    DaysOfMonth(d, y, m);
  }

  /**
   The monthly branch finds the least occurrence: in the month of `from` if its occurrence is still to
   come, else in the next month, which after December is January of the next year.
   */
  lemma MonthlyIsNext(from: int, date: nat, hour: nat, minute: nat)
    requires InRange(Monthly(date, hour, minute))
    ensures IsNext(Monthly(date, hour, minute), from,
                   NextInYear(Monthly(date, hour, minute), from, UtcYear(from)))
  {
    hide OnDateOfMonth, TimeOfDay, StartOfMonth, DateOfDay, MonthOfDay, YearOfDay, UtcYear, Day,
         TimeInDay;
    var time, target := TimeOfDay(hour, minute), Min(date, 28);
    TimeOfDayInDay(hour, minute);
    OnDateOfMonthIs(from, target, time);
    var y, m := UtcYear(from), MonthOfDay(Day(from));
    MonthOf(from);
    DateInMonth(y, m, target);
    DateInNextMonth(y, m, target);
    DayAndTime(StartOfMonth(y, m) + target - 1, time);
    DayAndTime(StartOfMonth(y, m + 1) + target - 1, time);
    Instant(from);
    var r := NextInYear(Monthly(date, hour, minute), from, y);
    assert from < r && Occurs(Monthly(date, hour, minute), r);
    forall t | from < t < r ensures !Occurs(Monthly(date, hour, minute), t) {
      if Occurs(Monthly(date, hour, minute), t) {
        SameTimeOrder(t, r);
        Instant(t);
        DayOrder(from, t);
        if Day(t) < StartOfMonth(y, m + 1) {
          OneDayOfDate(y, m, Day(t), target);
        }
      }
    }
  }

  lemma MonthOf(t: int)
    ensures StartOfMonth(UtcYear(t), MonthOfDay(Day(t))) <= Day(t)
    ensures Day(t) < StartOfMonth(UtcYear(t), MonthOfDay(Day(t)) + 1)
  {
    MonthOfDayHolds(Day(t));
  }

  // ---- what the code promises, and for which years ----

  lemma CalendarIsNext(s: Spec, from: int)
    requires InRange(s) && !s.Every?
    ensures IsNext(s, from, NextInYear(s, from, UtcYear(from)))
  {
    hide *;
    match s
    case Daily(hour, minute) => DailyIsNext(from, hour, minute);
    case Weekly(day, hour, minute) => WeeklyIsNext(from, day, hour, minute);
    case Monthly(date, hour, minute) => MonthlyIsNext(from, date, hour, minute);
  }

  lemma DailyIsNext(from: int, hour: nat, minute: nat)
    requires InRange(Daily(hour, minute))
    ensures IsNext(Daily(hour, minute), from, NextInYear(Daily(hour, minute), from, UtcYear(from)))
  {
    hide AtTimeOfDay, TimeOfDay, UtcYear, TimeInDay;
    TimeOfDayInDay(hour, minute);
    TimeOfDayIsNext(from, TimeOfDay(hour, minute));
  }

  /** `Date.UTC` would read the year of `from` as one of the twentieth century. */
  predicate YearIsMisread(from: int) {
    0 <= UtcYear(from) <= 99
  }

  /** Some day between the first century and the years it is misread for. */
  const DAY_1900 := -25567

  lemma FirstCentury()
    ensures DayFromYear(1900) == DAY_1900 && DayFromYear(100) == -683003
  {
  }

  lemma MisreadDayIsLate(y: int, m: int, date: int)
    requires 0 <= y <= 99 && 0 <= m < 12 && date >= 1
    ensures MakeDay(1900 + y, m, date) >= DAY_1900
  {
    MakeDayInYear(1900 + y, m, date);
    MonthsIncrease(0, m, Leap(1900 + y));
    FirstCentury();
    hide MakeDay, DayFromYear, Leap;
    YearsIncrease(1900, 1900 + y);
  }

  lemma MisreadIsEarly(from: int)
    requires YearIsMisread(from)
    ensures Day(from) < -683003
    ensures StartOfMonth(UtcYear(from), MonthOfDay(Day(from)) + 1) <= -683003
  {
    hide MonthOfDay, Day, DayFromYear, Leap, YearOfDay;
    var y := UtcYear(from);
    YearOfDayHolds(Day(from));
    FirstCentury();
    YearsIncrease(y + 1, 100);
    YearLength(y);
    MonthsIncrease(MonthOfDay(Day(from)) + 1, 12, Leap(y));
  }

  lemma MisreadTimeOfDay(from: int, time: int)
    requires YearIsMisread(from) && InDay(time)
    ensures AtTimeOfDay(from, FullYear(UtcYear(from)), time) >= DAY_1900 * MS_PER_DAY
  {
    hide MakeDay, MonthOfDay, DateOfDay, Day, UtcYear, TimeInDay, YearOfDay, StartOfMonth, SetUtcDate,
         MonthStart, DaysInMonth, Leap;
    MisreadDayIsLate(UtcYear(from), MonthOfDay(Day(from)), DateOfDay(Day(from)));
    MisreadIsEarly(from);
    DayTimeBound(from);
  }

  lemma MisreadDateOfMonth(from: int, date: int, time: int)
    requires YearIsMisread(from) && InDay(time) && date >= 1
    ensures OnDateOfMonth(from, FullYear(UtcYear(from)), date, time) >= DAY_1900 * MS_PER_DAY
  {
    hide MakeDay, MonthOfDay, DateOfDay, Day, UtcYear, TimeInDay, YearOfDay, StartOfMonth,
         MonthStart, DaysInMonth, Leap;
    MisreadDayIsLate(UtcYear(from), MonthOfDay(Day(from)), date);
    MisreadIsEarly(from);
    DayTimeBound(from);
  }

  /** A misread year sends every calendar schedule to the twentieth century. */
  lemma MisreadRunIsLate(s: Spec, from: int)
    requires InRange(s) && !s.Every? && YearIsMisread(from)
    ensures NextRun(s, from) >= DAY_1900 * MS_PER_DAY
  {
    hide AtTimeOfDay, OnDateOfMonth, TimeOfDay, UtcYear, WeekDay, FullYear, InDay;
    match s
    case Daily(hour, minute) =>
      TimeOfDayInDay(hour, minute);
      MisreadTimeOfDay(from, TimeOfDay(hour, minute));
    case Weekly(day, hour, minute) =>
      TimeOfDayInDay(hour, minute);
      MisreadTimeOfDay(from, TimeOfDay(hour, minute));
    case Monthly(date, hour, minute) =>
      TimeOfDayInDay(hour, minute);
      MisreadDateOfMonth(from, Min(date, 28), TimeOfDay(hour, minute));
  }

  /** While there is an occurrence within two months of `from`. */
  lemma TrueRunIsEarly(s: Spec, from: int)
    requires InRange(s) && !s.Every? && YearIsMisread(from)
    ensures NextInYear(s, from, UtcYear(from)) < DAY_1900 * MS_PER_DAY
  {
    MisreadIsEarly(from);
    Instant(from);
    hide AtTimeOfDay, OnDateOfMonth, TimeOfDay, UtcYear, WeekDay, InDay, Day, TimeInDay, MonthOfDay,
         StartOfMonth;
    match s
    case Daily(hour, minute) =>
      TimeOfDayInDay(hour, minute);
      TimeOfDayIsNext(from, TimeOfDay(hour, minute));
      DayTimeBound(from);
    case Weekly(day, hour, minute) =>
      TimeOfDayInDay(hour, minute);
      TimeOfDayIsNext(from, TimeOfDay(hour, minute));
      DayTimeBound(from);
    case Monthly(date, hour, minute) =>
      TimeOfDayInDay(hour, minute);
      OnDateOfMonthIs(from, Min(date, 28), TimeOfDay(hour, minute));
      OnDateBound(from, Min(date, 28), TimeOfDay(hour, minute));
  }

  lemma DayTimeBound(t: int)
    ensures t < (Day(t) + 1) * MS_PER_DAY
  {
  }

  lemma OnDateBound(from: int, date: int, time: int)
    requires YearIsMisread(from) && InDay(time) && date <= 28
    ensures var y, m := UtcYear(from), MonthOfDay(Day(from));
            && OnDate(y, m, date, time) < DAY_1900 * MS_PER_DAY
            && OnDate(y, m + 1, date, time) < DAY_1900 * MS_PER_DAY
  {
    MisreadIsEarly(from);
    MonthOf(from);
    hide UtcYear, MonthOfDay, Day, StartOfMonth;
  }

  /**
   For a schedule in the documented ranges the run computed is the least occurrence strictly after
   `from` if and only if the year of `from` is not one `Date.UTC` misreads.
   */
  lemma NextRunIsNext(s: Spec, from: int)
    requires InRange(s) && !s.Every?
    ensures IsNext(s, from, NextRun(s, from)) <==> !YearIsMisread(from)
    ensures !YearIsMisread(from) ==> forall r :: IsNext(s, from, r) ==> r == NextRun(s, from)
  {
    hide NextInYear, Occurs;
    CalendarIsNext(s, from);
    forall r | IsNext(s, from, r) && !YearIsMisread(from) ensures r == NextRun(s, from) {
      NextIsUnique(s, from, r, NextRun(s, from));
    }
    if YearIsMisread(from) {
      MisreadRunIsLate(s, from);
      TrueRunIsEarly(s, from);
    }
  }

  lemma DailyRunIsNext(from: int, hour: nat, minute: nat)
    requires hour < 24 && minute < 60
    ensures IsNext(Daily(hour, minute), from, AtTimeOfDay(from, FullYear(UtcYear(from)), TimeOfDay(hour, minute)))
       <==> !YearIsMisread(from)
  {
    NextRunIsNext(Daily(hour, minute), from);
    hide AtTimeOfDay, FullYear, UtcYear, Occurs, YearIsMisread;
  }

  /** In every year the next run is later than `from`, so a recurring job never falls back. */
  lemma NextRunAdvances(s: Spec, from: int)
    requires InRange(s)
    ensures NextRun(s, from) > from
  {
    hide Occurs, UtcYear;
    if s.Every? {
      assert s.amount * UnitMs(s.unit) >= 1;
    } else if YearIsMisread(from) {
      hide NextInYear;
      MisreadRunIsLate(s, from);
      TrueRunIsEarly(s, from);
      CalendarIsNext(s, from);
    } else {
      hide NextInYear;
      NextRunIsNext(s, from);
    }
  }

  /** An interval schedule advances if and only if its amount is positive. */
  lemma EveryAdvances(amount: nat, unit: Unit, from: int)
    ensures NextRun(Every(amount, unit), from) > from <==> amount >= 1
  {
    hide UtcYear;
    if amount >= 1 {
      assert amount * UnitMs(unit) >= UnitMs(unit);
    }
  }

  lemma RunIsRight(s: Spec, from: int)
    requires s.Weekly? ==> s.day <= 6
    ensures NextRun(s, from) == NextInYear(s, from, FullYear(UtcYear(from)))
    ensures s.Every? ==>
      && (s.unit.Seconds? ==> NextRun(s, from) == from + 1_000 * s.amount)
      && (s.unit.Minutes? ==> NextRun(s, from) == from + 60_000 * s.amount)
      && (s.unit.Hours? ==> NextRun(s, from) == from + 60 * 60_000 * s.amount)
      && (s.unit.Days? ==> NextRun(s, from) == from + 24 * 60 * 60_000 * s.amount)
    ensures InRange(s) && !s.Every? ==> (IsNext(s, from, NextRun(s, from)) <==> !YearIsMisread(from))
    ensures InRange(s) ==> NextRun(s, from) > from
  {
    hide AtTimeOfDay, OnDateOfMonth, FullYear, UtcYear, WeekDay, IsNext, YearIsMisread, TimeOfDay;
    if InRange(s) {
      NextRunAdvances(s, from);
      if !s.Every? { NextRunIsNext(s, from); }
    }
  }

  // ---- what a clock and a calendar show ----

  /** The clock shows `hour`:`minute` exactly. */
  predicate ClockShows(t: int, hour: nat, minute: nat) {
    && TimeInDay(t) / 3_600_000 == hour
    && TimeInDay(t) % 3_600_000 / 60_000 == minute
    && TimeInDay(t) % 60_000 == 0
  }

  lemma TimeOfDayShows(time: int, hour: nat, minute: nat)
    requires InDay(time) && hour < 24 && minute < 60
    ensures time == TimeOfDay(hour, minute)
       <==> time / 3_600_000 == hour && time % 3_600_000 / 60_000 == minute && time % 60_000 == 0
  {
  }

  /** The epoch was a Thursday; the days of a week follow each other, and a day has one weekday throughout. */
  lemma WeekDaysFollow(t: int)
    ensures WeekDay(0) == 4 && 0 <= WeekDay(t) <= 6
    ensures WeekDay(t + 86_400_000) == if WeekDay(t) == 6 then 0 else WeekDay(t) + 1
    ensures Day(t) == Day(t + 1) || TimeInDay(t + 1) == 0
    ensures WeekDay(t) == WeekDay(t + 1) <==> TimeInDay(t + 1) != 0
  {
    assert Day(t + 86_400_000) == Day(t) + 1;
    Instant(t);
    Instant(t + 1);
  }

  /** An occurrence is an instant at which the clock, and the calendar where it matters, shows what is asked. */
  lemma OccurrencesShow(s: Spec, t: int)
    requires InRange(s) && !s.Every?
    ensures Occurs(s, t)
       <==> && ClockShows(t, s.hour, s.minute)
            && (s.Weekly? ==> WeekDay(t) == s.day)
            && (s.Monthly? ==> DateOfDay(Day(t)) == if s.date <= 28 then s.date else 28)
  {
    Instant(t);
    TimeOfDayShows(TimeInDay(t), s.hour, s.minute);
  }

  /** Sixty of one unit make the next, twenty-four hours a day; and whole days keep the time of day. */
  lemma UnitsAgree(n: nat, from: int)
    ensures NextRun(Every(1, Seconds), from) == from + 1_000
    ensures NextRun(Every(60 * n, Seconds), from) == NextRun(Every(n, Minutes), from)
    ensures NextRun(Every(60 * n, Minutes), from) == NextRun(Every(n, Hours), from)
    ensures NextRun(Every(24 * n, Hours), from) == NextRun(Every(n, Days), from)
    ensures NextRun(Every(n, Minutes), from) == from + TimeOfDay(0, n)
    ensures NextRun(Every(n, Hours), from) == from + TimeOfDay(n, 0)
    ensures var next := NextRun(Every(n, Days), from); Day(next) == Day(from) + n && TimeInDay(next) == TimeInDay(from)
  {
    Instant(from);
    DayAndTime(Day(from) + n, TimeInDay(from));
  }
}
