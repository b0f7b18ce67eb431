/** The schedule strings: which texts are recognized, and as what. */
module ScheduleText {
  import opened Common
  import opened Schedule

  predicate IsDigit(c: char) {
    '0' <= c <= '9'
  }

  predicate AllDigits(s: string) {
    forall i :: 0 <= i < |s| ==> IsDigit(s[i])
  }

  function Value(digits: string): nat
    requires AllDigits(digits)
  {
    if digits == "" then 0
    else 10 * Value(digits[..|digits| - 1]) + (digits[|digits| - 1] as int - '0' as int)
  }

  function UnitOf(c: char): Option<Unit> {
    match c
    case 's' => Some(Seconds)
    case 'm' => Some(Minutes)
    case 'h' => Some(Hours)
    case 'd' => Some(Days)
    case _ => None
  }

  function UnitChar(u: Unit): char {
    match u
    case Seconds => 's'
    case Minutes => 'm'
    case Hours => 'h'
    case Days => 'd'
  }

  /** `\d{1,2}:\d{2}` */
  function ParseTime(s: string): Option<(nat, nat)> {
    if 4 <= |s| <= 5 && s[|s| - 3] == ':' && AllDigits(s[..|s| - 3]) && AllDigits(s[|s| - 2..])
    then Some((Value(s[..|s| - 3]), Value(s[|s| - 2..])))
    else None
  }

  /** `\d{1,max}:` and what follows it. */
  function ParseNumber(s: string, max: nat): Option<(nat, string)> {
    if |s| > 1 && s[1] == ':' && AllDigits(s[..1]) then Some((Value(s[..1]), s[2..]))
    else if max >= 2 && |s| > 2 && s[2] == ':' && AllDigits(s[..2]) then Some((Value(s[..2]), s[3..]))
    else None
  }

  function After(prefix: string, s: string): Option<string> {
    if prefix <= s then Some(s[|prefix|..]) else None
  }

  function ParseEvery(body: string): Option<Spec> {
    if |body| >= 2 && AllDigits(body[..|body| - 1]) && UnitOf(body[|body| - 1]).Some?
    then Some(Every(Value(body[..|body| - 1]), UnitOf(body[|body| - 1]).value))
    else None
  }

  function ParseDaily(body: string): Option<Spec> {
    var time := ParseTime(body);
    if time.Some? then Some(Daily(time.value.0, time.value.1)) else None
  }

  function ParseWeekly(body: string): Option<Spec> {
    var day := ParseNumber(body, 1);
    if day.None? then None
    else
      var time := ParseTime(day.value.1);
      if time.Some? then Some(Weekly(day.value.0, time.value.0, time.value.1)) else None
  }

  function ParseMonthly(body: string): Option<Spec> {
    var date := ParseNumber(body, 2);
    if date.None? then None
    else
      var time := ParseTime(date.value.1);
      if time.Some? then Some(Monthly(date.value.0, time.value.0, time.value.1)) else None
  }

  /** The four patterns, tried in turn; `None` stands for the error. */
  function Parse(s: string): Option<Spec> {
    if After("every:", s).Some? && ParseEvery(s[6..]).Some? then ParseEvery(s[6..])
    else if After("daily:", s).Some? && ParseDaily(s[6..]).Some? then ParseDaily(s[6..])
    else if After("weekly:", s).Some? && ParseWeekly(s[7..]).Some? then ParseWeekly(s[7..])
    else if After("monthly:", s).Some? then ParseMonthly(s[8..])
    else None
  }

  // ---- the vocabulary, as its documentation writes it ----

  /** `s` is written with at least one digit and at most `max`. */
  ghost predicate Writes(s: string, n: nat, max: nat) {
    1 <= |s| <= max && AllDigits(s) && Value(s) == n
  }

  ghost predicate WritesTime(s: string, hour: nat, minute: nat) {
    exists h, m :: Writes(h, hour, 2) && Writes(m, minute, 2) && |m| == 2 && s == h + ":" + m
  }

  ghost predicate Describes(s: string, spec: Spec) {
    match spec
    case Every(amount, unit) =>
      exists n :: Writes(n, amount, |s|) && s == "every:" + n + [UnitChar(unit)]
    case Daily(hour, minute) => exists t :: WritesTime(t, hour, minute) && s == "daily:" + t
    case Weekly(day, hour, minute) =>
      exists d, t :: Writes(d, day, 1) && WritesTime(t, hour, minute) && s == "weekly:" + d + ":" + t
    case Monthly(date, hour, minute) =>
      exists d, t :: Writes(d, date, 2) && WritesTime(t, hour, minute) && s == "monthly:" + d + ":" + t
  }

  lemma ParsedTimeIsWritten(s: string)
    requires ParseTime(s).Some?
    ensures WritesTime(s, ParseTime(s).value.0, ParseTime(s).value.1)
  {
    var (h, m) := (s[..|s| - 3], s[|s| - 2..]);
    assert s == h + ":" + m;
    assert Writes(h, Value(h), 2) && Writes(m, Value(m), 2);
  }

  lemma WrittenTimeParses(s: string, hour: nat, minute: nat)
    requires WritesTime(s, hour, minute)
    ensures ParseTime(s) == Some((hour, minute))
  {
    var h, m :| Writes(h, hour, 2) && Writes(m, minute, 2) && |m| == 2 && s == h + ":" + m;
    assert s[..|s| - 3] == h && s[|s| - 2..] == m;
  }

  lemma ParsedNumberIsWritten(s: string, max: nat) returns (d: string)
    requires ParseNumber(s, max).Some? && 1 <= max <= 2
    ensures Writes(d, ParseNumber(s, max).value.0, max) && s == d + ":" + ParseNumber(s, max).value.1
  {
    d := if s[1] == ':' && AllDigits(s[..1]) then s[..1] else s[..2];
  }

  lemma WrittenNumberParses(d: string, rest: string, n: nat, max: nat)
    requires Writes(d, n, max) && max <= 2
    ensures ParseNumber(d + ":" + rest, max) == Some((n, rest))
  {
    var s := d + ":" + rest;
    if |d| == 1 {
      assert s[..1] == d && s[2..] == rest;
    } else {
      assert s[1] == d[1] && IsDigit(d[1]);
      assert s[..2] == d && s[3..] == rest;
    }
  }

  lemma ParsedIsDescribed(s: string)
    requires Parse(s).Some?
    ensures Describes(s, Parse(s).value)
  {
    hide ParseTime, ParseNumber, WritesTime, Writes, Value, UnitOf;
    if After("every:", s).Some? && ParseEvery(s[6..]).Some? {
      EveryIsDescribed(s);
    } else if After("daily:", s).Some? && ParseDaily(s[6..]).Some? {
      ParsedTimeIsWritten(s[6..]);
      assert s == "daily:" + s[6..];
    } else if After("weekly:", s).Some? && ParseWeekly(s[7..]).Some? {
      var d := ParsedNumberIsWritten(s[7..], 1);
      var t := ParseNumber(s[7..], 1).value.1;
      ParsedTimeIsWritten(t);
      assert s == "weekly:" + d + ":" + t;
    } else {
      var d := ParsedNumberIsWritten(s[8..], 2);
      var t := ParseNumber(s[8..], 2).value.1;
      ParsedTimeIsWritten(t);
      assert s == "monthly:" + d + ":" + t;
    }
  }

  lemma EveryIsDescribed(s: string)
    requires "every:" <= s && ParseEvery(s[6..]).Some?
    ensures Describes(s, ParseEvery(s[6..]).value)
  {
    var body := s[6..];
    var n := body[..|body| - 1];
    var unit := UnitOf(body[|body| - 1]).value;
    assert Writes(n, Value(n), |s|);
    assert s == "every:" + n + [UnitChar(unit)];
  }

  const Words := {"every:", "daily:", "weekly:", "monthly:"}

  /** A text begins with one of the four words at most. */
  lemma PatternsDiffer(word: string, body: string)
    requires word in Words
    ensures forall other :: other in Words && other != word ==> After(other, word + body).None?
    ensures After(word, word + body) == Some((word + body)[|word|..]) && (word + body)[|word|..] == body
  {
    forall other | other in Words && other != word ensures After(other, word + body).None? {
      assert other[0] != (word + body)[0];
    }
  }

  lemma DescribedEveryParses(s: string, amount: nat, unit: Unit)
    requires Describes(s, Every(amount, unit))
    ensures Parse(s) == Some(Every(amount, unit))
  {
    var n :| Writes(n, amount, |s|) && s == "every:" + n + [UnitChar(unit)];
    var body := s[6..];
    assert body[..|body| - 1] == n && body[|body| - 1] == UnitChar(unit);
    hide Value, AllDigits;
  }

  lemma DescribedDailyParses(s: string, hour: nat, minute: nat)
    requires Describes(s, Daily(hour, minute))
    ensures Parse(s) == Some(Daily(hour, minute))
  {
    var t :| WritesTime(t, hour, minute) && s == "daily:" + t;
    assert s[6..] == t;
    WrittenTimeParses(t, hour, minute);
    hide ParseTime, ParseEvery, ParseWeekly, ParseMonthly;
  }

  lemma DescribedWeeklyParses(s: string, day: nat, hour: nat, minute: nat)
    requires Describes(s, Weekly(day, hour, minute))
    ensures Parse(s) == Some(Weekly(day, hour, minute))
  {
    var d, t :| Writes(d, day, 1) && WritesTime(t, hour, minute) && s == "weekly:" + d + ":" + t;
    hide Writes, WritesTime, ParseTime, ParseNumber, ParseEvery, ParseDaily, ParseMonthly, After;
    PatternsDiffer("weekly:", d + ":" + t);
    assert s == "weekly:" + (d + ":" + t);
    WrittenNumberParses(d, t, day, 1);
    WrittenTimeParses(t, hour, minute);
  }

  lemma DescribedMonthlyParses(s: string, date: nat, hour: nat, minute: nat)
    requires Describes(s, Monthly(date, hour, minute))
    ensures Parse(s) == Some(Monthly(date, hour, minute))
  {
    var d, t :| Writes(d, date, 2) && WritesTime(t, hour, minute) && s == "monthly:" + d + ":" + t;
    hide Writes, WritesTime, ParseTime, ParseNumber, ParseEvery, ParseDaily, ParseWeekly, After;
    PatternsDiffer("monthly:", d + ":" + t);
    assert s == "monthly:" + (d + ":" + t);
    WrittenNumberParses(d, t, date, 2);
    WrittenTimeParses(t, hour, minute);
  }

  /** A text is read as a schedule exactly when it is one of the four documented forms of it. */
  lemma ParseReadsTheVocabulary(s: string, spec: Spec)
    ensures Parse(s) == Some(spec) <==> Describes(s, spec)
  {
    hide *;
    if Parse(s).Some? {
      ParsedIsDescribed(s);
    }
    if Describes(s, spec) {
      match spec
      case Every(amount, unit) => DescribedEveryParses(s, amount, unit);
      case Daily(hour, minute) => DescribedDailyParses(s, hour, minute);
      case Weekly(day, hour, minute) => DescribedWeeklyParses(s, day, hour, minute);
      case Monthly(date, hour, minute) => DescribedMonthlyParses(s, date, hour, minute);
    }
  }

  // ---- every schedule can be written ----

  function Digit(n: nat): char
    requires n < 10
  {
    n as char + '0'
  }

  function Decimal(n: nat): string {
    if n < 10 then [Digit(n)] else Decimal(n / 10) + [Digit(n % 10)]
  }

  function TwoDigits(n: nat): string
    requires n < 100
  {
    [Digit(n / 10), Digit(n % 10)]
  }

  function Print(spec: Spec): string
    requires Printable(spec)
  {
    match spec
    case Every(amount, unit) => "every:" + Decimal(amount) + [UnitChar(unit)]
    case Daily(hour, minute) => "daily:" + PrintTime(hour, minute)
    case Weekly(day, hour, minute) => "weekly:" + [Digit(day)] + ":" + PrintTime(hour, minute)
    case Monthly(date, hour, minute) => "monthly:" + TwoDigits(date) + ":" + PrintTime(hour, minute)
  }

  function PrintTime(hour: nat, minute: nat): string
    requires hour < 100 && minute < 100
  {
    TwoDigits(hour) + ":" + TwoDigits(minute)
  }

  /** What the patterns have room for, which the documented ranges are within. */
  predicate Printable(spec: Spec) {
    match spec
    case Every(_, _) => true
    case Daily(hour, minute) => hour < 100 && minute < 100
    case Weekly(day, hour, minute) => day < 10 && hour < 100 && minute < 100
    case Monthly(date, hour, minute) => date < 100 && hour < 100 && minute < 100
  }

  lemma {:induction false} DecimalWrites(n: nat)
    ensures Writes(Decimal(n), n, |Decimal(n)|)
  {
    if n >= 10 {
      DecimalWrites(n / 10);
      var s := Decimal(n);
      assert s[..|s| - 1] == Decimal(n / 10);
    } else {
      assert Decimal(n)[..0] == "" && Value("") == 0;
    }
  }

  lemma TwoDigitsWrite(n: nat)
    requires n < 100
    ensures Writes(TwoDigits(n), n, 2)
  {
    var s := TwoDigits(n);
    assert s[..1] == [Digit(n / 10)] && s[..1][..0] == "";
    assert Value(s[..1]) == n / 10;
  }

  lemma OneDigitWrites(n: nat)
    requires n < 10
    ensures Writes([Digit(n)], n, 1)
  {
    assert [Digit(n)][..0] == "";
    assert Value("") == 0;
  }

  /** What is printed is read back, for every schedule that the patterns have room for. */
  lemma PrintedIsRead(spec: Spec)
    requires Printable(spec)
    ensures Parse(Print(spec)) == Some(spec)
  {
    hide Parse, Value, Decimal, TwoDigits;
    var s := Print(spec);
    match spec {
      case Every(amount, unit) =>
        DecimalWrites(amount);
        assert Writes(Decimal(amount), amount, |s|);
      case Daily(hour, minute) =>
        TimeIsWritten(hour, minute);
      case Weekly(day, hour, minute) =>
        OneDigitWrites(day);
        TimeIsWritten(hour, minute);
      case Monthly(date, hour, minute) =>
        TwoDigitsWrite(date);
        TimeIsWritten(hour, minute);
    }
    assert Describes(s, spec);
    ParseReadsTheVocabulary(s, spec);
  }

  lemma TimeIsWritten(hour: nat, minute: nat)
    requires hour < 100 && minute < 100
    ensures WritesTime(PrintTime(hour, minute), hour, minute)
  {
    TwoDigitsWrite(hour);
    TwoDigitsWrite(minute);
    assert |TwoDigits(minute)| == 2;
  }

  // ---- what a text comes to ----

  /** `every:<n>s`, `m`, `h` and `d` run after so many seconds, minutes, hours and days. */
  lemma IntervalTextRuns(n: string, from: int)
    requires n != "" && AllDigits(n)
    ensures var (s, m) := (Parse("every:" + n + "s"), Parse("every:" + n + "m"));
            && s.Some? && s.value.Every? && NextRun(s.value, from) == from + Value(n) * 1_000
            && m.Some? && m.value.Every? && NextRun(m.value, from) == from + Value(n) * 60_000
    ensures var (h, d) := (Parse("every:" + n + "h"), Parse("every:" + n + "d"));
            && h.Some? && h.value.Every? && NextRun(h.value, from) == from + Value(n) * 3_600_000
            && d.Some? && d.value.Every? && NextRun(d.value, from) == from + Value(n) * 86_400_000
  {
    IntervalTextParses(n, 's');
    IntervalTextParses(n, 'm');
    IntervalTextParses(n, 'h');
    IntervalTextParses(n, 'd');
  }

  lemma IntervalTextParses(n: string, c: char)
    requires n != "" && AllDigits(n) && UnitOf(c).Some?
    ensures Parse("every:" + n + [c]) == Some(Every(Value(n), UnitOf(c).value))
  {
    hide Value;
    var s := "every:" + n + [c];
    assert s[6..] == n + [c];
    assert s[6..][..|n|] == n;
  }

  lemma NumberReads(tens: char, ones: char)
    requires IsDigit(tens) && IsDigit(ones)
    ensures Value([ones]) == ones as int - 48
    ensures Value([tens, ones]) == 10 * (tens as int - 48) + (ones as int - 48)
  {
    assert [ones][..0] == "" && [tens, ones][..1] == [tens] && [tens][..0] == "";
    assert Value("") == 0;
    assert Value([tens]) == tens as int - 48;
  }

  /** The hour comes before the minute, behind the weekday or the date. */
  lemma FieldsComeInOrder(h: string, m: string, d: string)
    requires 1 <= |h| <= 2 && |m| == 2 && 1 <= |d| <= 2 && AllDigits(h) && AllDigits(m) && AllDigits(d)
    ensures Parse("daily:" + (h + ":" + m)) == Some(Daily(Value(h), Value(m)))
    ensures |d| == 1 ==> Parse("weekly:" + d + ":" + (h + ":" + m)) == Some(Weekly(Value(d), Value(h), Value(m)))
    ensures Parse("monthly:" + d + ":" + (h + ":" + m)) == Some(Monthly(Value(d), Value(h), Value(m)))
  {
    var t := h + ":" + m;
    assert Writes(h, Value(h), 2) && Writes(m, Value(m), 2) && WritesTime(t, Value(h), Value(m));
    hide Parse, Value, AllDigits, WritesTime;
    DailyTextReads(t, Value(h), Value(m));
    if |d| == 1 {
      WeeklyTextReads(d, t, Value(d), Value(h), Value(m));
    }
    MonthlyTextReads(d, t, Value(d), Value(h), Value(m));
  }

  lemma DailyTextReads(t: string, hour: nat, minute: nat)
    requires WritesTime(t, hour, minute)
    ensures Parse("daily:" + t) == Some(Daily(hour, minute))
  {
    hide Parse, WritesTime;
    ParseReadsTheVocabulary("daily:" + t, Daily(hour, minute));
  }

  lemma WeeklyTextReads(d: string, t: string, day: nat, hour: nat, minute: nat)
    requires Writes(d, day, 1) && WritesTime(t, hour, minute)
    ensures Parse("weekly:" + d + ":" + t) == Some(Weekly(day, hour, minute))
  {
    hide Parse, Writes, WritesTime;
    ParseReadsTheVocabulary("weekly:" + d + ":" + t, Weekly(day, hour, minute));
  }

  lemma MonthlyTextReads(d: string, t: string, date: nat, hour: nat, minute: nat)
    requires Writes(d, date, 2) && WritesTime(t, hour, minute)
    ensures Parse("monthly:" + d + ":" + t) == Some(Monthly(date, hour, minute))
  {
    hide Parse, Writes, WritesTime;
    ParseReadsTheVocabulary("monthly:" + d + ":" + t, Monthly(date, hour, minute));
  }
}
