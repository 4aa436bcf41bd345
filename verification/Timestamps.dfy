/** The persisted form of timestamps (internal/store/scan.go).  Every SQL test on
    time compares these texts, whose fractional zeros are trimmed.  The grammar
    is that of sections 5.1 and 5.6 of RFC 3339, always in UTC. */
module Timestamps {
  import opened TextOrder

  datatype Option<+T> = None | Some(value: T)

  const SECOND: nat := 1_000_000_000
  const DAY: nat := 86_400

  /** Nanoseconds since 0000-01-01T00:00:00Z in the proleptic Gregorian calendar. */
  type Instant = nat

  // --------------------------------------------------------------- calendar

  predicate Leap(year: nat) {
    year % 4 == 0 && (year % 100 != 0 || year % 400 == 0)
  }

  function YearDays(year: nat): nat {
    if Leap(year) then 366 else 365
  }

  function MonthDays(year: nat, month: nat): nat {
    if month == 2 then (if Leap(year) then 29 else 28)
    else if month in {4, 6, 9, 11} then 30 else 31
  }

  /** The year holding day number `day` counted from the start of year `from`,
      and the day's number within that year. */
  function YearOf(day: nat, from: nat): (nat, nat)
    decreases day
  {
    if day < YearDays(from) then (from, day) else YearOf(day - YearDays(from), from + 1)
  }

  function MonthOf(day: nat, year: nat, from: nat): (nat, nat)
    requires 1 <= from <= 12
    decreases 12 - from
  {
    if from == 12 || day < MonthDays(year, from) then (from, day)
    else MonthOf(day - MonthDays(year, from), year, from + 1)
  }

  function DaysBeforeYear(from: nat, year: nat): nat
    requires from <= year
    decreases year - from
  {
    if from == year then 0 else YearDays(from) + DaysBeforeYear(from + 1, year)
  }

  function DaysBeforeMonth(year: nat, from: nat, month: nat): nat
    requires 1 <= from <= month <= 12
    decreases month - from
  {
    if from == month then 0 else MonthDays(year, from) + DaysBeforeMonth(year, from + 1, month)
  }

  lemma {:induction false} YearOfInverse(day: nat, from: nat)
    ensures YearOf(day, from).0 >= from
    ensures DaysBeforeYear(from, YearOf(day, from).0) + YearOf(day, from).1 == day
    ensures YearOf(day, from).1 < YearDays(YearOf(day, from).0)
    decreases day
  {
    if day >= YearDays(from) { YearOfInverse(day - YearDays(from), from + 1); }
  }

  lemma {:induction false} MonthOfInverse(day: nat, year: nat, from: nat)
    requires 1 <= from <= 12 && day < DaysBeforeMonth(year, from, 12) + 31
    ensures from <= MonthOf(day, year, from).0 <= 12
    ensures DaysBeforeMonth(year, from, MonthOf(day, year, from).0) + MonthOf(day, year, from).1 == day
    ensures MonthOf(day, year, from).1 < MonthDays(year, MonthOf(day, year, from).0)
    decreases 12 - from
  {
    if from < 12 && day >= MonthDays(year, from) {
      MonthOfInverse(day - MonthDays(year, from), year, from + 1);
    }
  }

  lemma TwelveMonths(year: nat)
    ensures DaysBeforeMonth(year, 1, 12) + 31 == YearDays(year)
  {}

  /** Later days never fall in earlier years. */
  lemma {:induction false} YearOfMonotone(a: nat, b: nat, from: nat)
    requires a <= b
    ensures YearOf(a, from).0 <= YearOf(b, from).0
    ensures YearOf(a, from).0 == YearOf(b, from).0 ==> YearOf(b, from).1 - YearOf(a, from).1 == b - a
    decreases a
  {
    if a >= YearDays(from) {
      YearOfMonotone(a - YearDays(from), b - YearDays(from), from + 1);
    } else if b >= YearDays(from) {
      YearOfInverse(b - YearDays(from), from + 1);
    }
  }

  lemma {:induction false} MonthOfMonotone(a: nat, b: nat, year: nat, from: nat)
    requires 1 <= from <= 12 && a <= b < DaysBeforeMonth(year, from, 12) + 31
    ensures MonthOf(a, year, from).0 <= MonthOf(b, year, from).0
    ensures MonthOf(a, year, from).0 == MonthOf(b, year, from).0
            ==> MonthOf(b, year, from).1 - MonthOf(a, year, from).1 == b - a
    decreases 12 - from
  {
    if from < 12 {
      var n := MonthDays(year, from);
      if a >= n {
        MonthOfMonotone(a - n, b - n, year, from + 1);
      } else if b >= n {
        MonthOfInverse(b - n, year, from + 1);
      }
    }
  }

  datatype Date = Date(year: nat, month: nat, day: nat)

  function DateOf(day: nat): Date {
    var (year, dayOfYear) := YearOf(day, 0);
    var (month, dayOfMonth) := MonthOf(dayOfYear, year, 1);
    Date(year, month, dayOfMonth + 1)
  }

  predicate ValidDate(d: Date) {
    1 <= d.month <= 12 && 1 <= d.day <= MonthDays(d.year, d.month)
  }

  function DayNumber(d: Date): nat
    requires ValidDate(d)
  {
    DaysBeforeYear(0, d.year) + DaysBeforeMonth(d.year, 1, d.month) + d.day - 1
  }

  lemma DateInverse(day: nat)
    ensures ValidDate(DateOf(day)) && DayNumber(DateOf(day)) == day
  {
    var (year, dayOfYear) := YearOf(day, 0);
    YearOfInverse(day, 0);
    TwelveMonths(year);
    MonthOfInverse(dayOfYear, year, 1);
  }

  /** The number of leap years before `year`, as the calendar's rule counts them. */
  function LeapYearsBefore(year: nat): nat { (year + 3) / 4 - (year + 99) / 100 + (year + 399) / 400 }

  lemma Fourths(y: nat)
    ensures (y + 4) / 4 == (y + 3) / 4 + if y % 4 == 0 then 1 else 0
  {}

  lemma Hundredths(y: nat)
    ensures (y + 100) / 100 == (y + 99) / 100 + if y % 100 == 0 then 1 else 0
    ensures y % 100 == 0 ==> y % 4 == 0
  {
    var k, r := y / 100, y % 100;
    assert y == 100 * k + r;
    assert y == 4 * (25 * k) + r;
  }

  lemma FourHundredths(y: nat)
    ensures (y + 400) / 400 == (y + 399) / 400 + if y % 400 == 0 then 1 else 0
    ensures y % 400 == 0 ==> y % 100 == 0
  {
    var k, r := y / 400, y % 400;
    assert y == 400 * k + r;
    assert y == 100 * (4 * k) + r;
  }

  lemma LeapYearCounted(year: nat)
    ensures LeapYearsBefore(year + 1) == LeapYearsBefore(year) + if Leap(year) then 1 else 0
  {
    Fourths(year);
    Hundredths(year);
    FourHundredths(year);
  }

  lemma {:induction false} YearAdded(from: nat, year: nat)
    requires from <= year
    ensures DaysBeforeYear(from, year + 1) == DaysBeforeYear(from, year) + YearDays(year)
    decreases year - from
  {
    if from < year { YearAdded(from + 1, year); }
  }

  /** The calendar in closed form. */
  lemma {:induction false} DaysOfYears(year: nat)
    ensures DaysBeforeYear(0, year) == 365 * year + LeapYearsBefore(year)
  {
    if year > 0 {
      DaysOfYears(year - 1);
      YearAdded(0, year - 1);
      LeapYearCounted(year - 1);
    }
  }

  lemma {:induction false} YearFound(from: nat, year: nat, day: nat)
    requires from <= year && day < YearDays(year)
    ensures YearOf(DaysBeforeYear(from, year) + day, from) == (year, day)
    decreases year - from
  {
    if from < year { YearFound(from + 1, year, day); }
  }

  lemma {:induction false} MonthFound(year: nat, from: nat, month: nat, day: nat)
    requires 1 <= from <= month <= 12 && day < MonthDays(year, month)
    ensures MonthOf(DaysBeforeMonth(year, from, month) + day, year, from) == (month, day)
    decreases month - from
  {
    hide MonthDays;
    if from < month { MonthFound(year, from + 1, month, day); }
  }

  lemma {:induction false} MonthInYear(year: nat, month: nat)
    requires 1 <= month <= 12
    ensures DaysBeforeMonth(year, 1, month) + MonthDays(year, month) <= YearDays(year)
  {
    assert month in {1, 2, 3, 4, 5, 6, 7, 8, 9, 10, 11, 12};
    TwelveMonths(year);
  }

  lemma DateFound(day: nat, year: nat, dayOfYear: nat, month: nat, dayOfMonth: nat)
    requires YearOf(day, 0) == (year, dayOfYear) && MonthOf(dayOfYear, year, 1) == (month, dayOfMonth)
    ensures DateOf(day) == Date(year, month, dayOfMonth + 1)
  {
    hide YearOf, MonthOf;
  }

  /** Every date is the date of its own day, counted by the calendar's rule. */
  lemma CalendarDay(d: Date)
    requires ValidDate(d)
    ensures DateOf(365 * d.year + LeapYearsBefore(d.year) + DaysBeforeMonth(d.year, 1, d.month) + d.day - 1) == d
  {
    hide Leap, LeapYearsBefore, YearDays, MonthDays, DaysBeforeMonth, DaysBeforeYear, YearOf, MonthOf, DateOf;
    var dayOfYear := DaysBeforeMonth(d.year, 1, d.month) + d.day - 1;
    MonthInYear(d.year, d.month);
    YearFound(0, d.year, dayOfYear);
    MonthFound(d.year, 1, d.month, d.day - 1);
    DaysOfYears(d.year);
    DateFound(DaysBeforeYear(0, d.year) + dayOfYear, d.year, dayOfYear, d.month, d.day - 1);
  }

  predicate Earlier(d: Date, e: Date) {
    d.year < e.year || (d.year == e.year && (d.month < e.month || (d.month == e.month && d.day < e.day)))
  }

  lemma DateOrder(a: nat, b: nat)
    requires a < b
    ensures Earlier(DateOf(a), DateOf(b))
  {
    var (year, dayA) := YearOf(a, 0);
    var (yearB, dayB) := YearOf(b, 0);
    YearOfMonotone(a, b, 0);
    if year == yearB {
      YearOfInverse(b, 0);
      TwelveMonths(year);
      MonthOfMonotone(dayA, dayB, year, 1);
    }
  }

  // -------------------------------------------------------------- rendering

  /** One clock field: a number, its printed width, and the text after it. */
  datatype Field = Field(number: nat, width: nat, after: string)

  /** Years beyond 9999 print with more digits, as Go does. */
  function YearWidth(year: nat): nat {
    if year < 10_000 then 4 else 1 + YearWidth(year / 10)
  }

  /** The fields of the `clock`-th second of day `date`. */
  function ClockFields(date: Date, clock: nat): (r: seq<Field>) {
    [ Field(date.year, YearWidth(date.year), "-"), Field(date.month, 2, "-"), Field(date.day, 2, "T"),
      Field(clock / 3600, 2, ":"), Field(clock / 60 % 60, 2, ":"), Field(clock % 60, 2, "") ]
  }

  function Digit(n: nat): (c: char)
    requires n < 10
    ensures '0' <= c <= '9'
  {
    '0' + n as char
  }

  predicate AllDigits(s: string) {
    forall i | 0 <= i < |s| :: '0' <= s[i] <= '9'
  }

  /** The `width` low decimal digits of `n`. */
  function Digits(n: nat, width: nat): (r: string)
    ensures |r| == width && AllDigits(r)
  {
    if width == 0 then "" else Digits(n / 10, width - 1) + [Digit(n % 10)]
  }

  function Render(fields: seq<Field>): string {
    if fields == [] then "" else
      Digits(fields[0].number, fields[0].width) + fields[0].after + Render(fields[1..])
  }

  /** The text up to and including the seconds. */
  function ClockText(seconds: nat): string {
    Render(ClockFields(DateOf(seconds / DAY), seconds % DAY))
  }

  /** Drops trailing zeros. */
  function Trim(s: string): (r: string)
    ensures r <= s
    ensures forall i | |r| <= i < |s| :: s[i] == '0'
    ensures r != "" ==> r[|r| - 1] != '0'
  {
    if s != "" && s[|s| - 1] == '0' then Trim(s[..|s| - 1]) else s
  }

  /** The trimmed fractional digits. */
  function Fraction(t: Instant): string {
    Trim(Digits(t % SECOND, 9))
  }

  function FractionText(fraction: string): string {
    if fraction == "" then "Z" else "." + fraction + "Z"
  }

  function FormatTime(t: Instant): string {
    ClockText(t / SECOND) + FractionText(Fraction(t))
  }

  predicate FourDigitYear(t: Instant) {
    DateOf(t / SECOND / DAY).year < 10_000
  }

  predicate SameSecond(a: Instant, b: Instant) {
    a / SECOND == b / SECOND
  }

  // ------------------------------------------- clock fields order like time

  function Pow10(n: nat): nat {
    if n == 0 then 1 else 10 * Pow10(n - 1)
  }

  predicate Fits(f: Field) {
    f.number < Pow10(f.width)
  }

  predicate SameLayout(fs: seq<Field>, gs: seq<Field>) {
    |fs| == |gs| && forall i | 0 <= i < |fs| :: fs[i].width == gs[i].width && fs[i].after == gs[i].after
  }

  /** The first differing number decides. */
  predicate Precedes(fs: seq<Field>, gs: seq<Field>)
    requires |fs| == |gs|
  {
    fs != [] && (fs[0].number < gs[0].number || (fs[0].number == gs[0].number && Precedes(fs[1..], gs[1..])))
  }

  lemma EqualLengthDiverging(a: string, b: string, x: string, y: string)
    requires |a| == |b| && Less(a, b)
    ensures Less(a + x, b + y)
  {
    Irreflexive(a);
    Diverging(a, b, x, y);
  }

  lemma {:induction false} DigitsOrder(m: nat, n: nat, width: nat)
    requires m < n < Pow10(width)
    ensures Less(Digits(m, width), Digits(n, width))
  {
    var a, b := Digits(m / 10, width - 1), Digits(n / 10, width - 1);
    if m / 10 < n / 10 {
      DigitsOrder(m / 10, n / 10, width - 1);
      EqualLengthDiverging(a, b, [Digit(m % 10)], [Digit(n % 10)]);
    } else {
      assert m / 10 == n / 10 && m % 10 < n % 10;
      CommonPrefix(a, [Digit(m % 10)], [Digit(n % 10)]);
    }
  }

  lemma Regroup(digits: string, after: string, rest: string, x: string)
    ensures digits + after + rest + x == digits + (after + (rest + x))
  {}

  lemma {:induction false} RenderOrder(fs: seq<Field>, gs: seq<Field>, x: string, y: string)
    requires SameLayout(fs, gs) && Precedes(fs, gs)
    requires forall i | 0 <= i < |gs| :: Fits(gs[i])
    ensures Less(Render(fs) + x, Render(gs) + y)
  {
    var f, g := fs[0], gs[0];
    var df, dg := Digits(f.number, f.width), Digits(g.number, g.width);
    var restF, restG := Render(fs[1..]), Render(gs[1..]);
    Regroup(df, f.after, restF, x);
    Regroup(dg, g.after, restG, y);
    if f.number < g.number {
      DigitsOrder(f.number, g.number, f.width);
      EqualLengthDiverging(df, dg, f.after + (restF + x), g.after + (restG + y));
    } else {
      RenderOrder(fs[1..], gs[1..], x, y);
      CommonPrefix(f.after, restF + x, restG + y);
      CommonPrefix(df, f.after + (restF + x), g.after + (restG + y));
    }
  }

  lemma Powers()
    ensures Pow10(2) == 100 && Pow10(4) == 10_000 && Pow10(9) == SECOND
  {}

  lemma FieldsFit(date: Date, clock: nat)
    requires ValidDate(date) && date.year < 10_000 && clock < DAY
    ensures forall i | 0 <= i < 6 :: Fits(ClockFields(date, clock)[i])
  {}

  lemma TimeOfDayOrder(a: nat, b: nat)
    requires a < b < DAY
    ensures a / 3600 < b / 3600
            || (a / 3600 == b / 3600 && a / 60 % 60 < b / 60 % 60)
            || (a / 3600 == b / 3600 && a / 60 % 60 == b / 60 % 60 && a % 60 < b % 60)
  {}

  lemma {:induction false} PrecedesAt(f: seq<Field>, g: seq<Field>, k: nat)
    requires |f| == |g| && k < |f|
    requires (forall i | 0 <= i < k :: f[i].number == g[i].number) && f[k].number < g[k].number
    ensures Precedes(f, g)
  {
    if k > 0 { PrecedesAt(f[1..], g[1..], k - 1); }
  }

  lemma ClockOrder(d: Date, x: nat, e: Date, y: nat)
    requires x < DAY && y < DAY && (Earlier(d, e) || (d == e && x < y))
    ensures Precedes(ClockFields(d, x), ClockFields(e, y))
  {
    var f, g := ClockFields(d, x), ClockFields(e, y);
    if d == e { TimeOfDayOrder(x, y); }
    var k := if d.year < e.year then 0 else if d.month < e.month then 1 else if d.day < e.day then 2
             else if x / 3600 < y / 3600 then 3 else if x / 60 % 60 < y / 60 % 60 then 4 else 5;
    PrecedesAt(f, g, k);
  }

  /** Clock texts of different seconds order like time, whatever follows them. */
  lemma SecondsOrder(a: nat, b: nat, x: string, y: string)
    requires a < b && DateOf(a / DAY).year < 10_000 && DateOf(b / DAY).year < 10_000
    ensures Less(ClockText(a) + x, ClockText(b) + y)
  {
    if a / DAY < b / DAY { DateOrder(a / DAY, b / DAY); }
    DateInverse(b / DAY);
    FieldsFit(DateOf(b / DAY), b % DAY);
    ClockOrder(DateOf(a / DAY), a % DAY, DateOf(b / DAY), b % DAY);
    RenderOrder(ClockFields(DateOf(a / DAY), a % DAY), ClockFields(DateOf(b / DAY), b % DAY), x, y);
  }

  // ------------------------------------------------ fractions order by text

  /** Nothing of the same length orders before all zeros. */
  lemma {:induction false} ZerosLeast(d: string, zeros: string)
    requires |d| == |zeros| && AllDigits(d) && forall i | 0 <= i < |zeros| :: zeros[i] == '0'
    ensures !Less(d, zeros)
  {
    if d != "" {
      ZerosLeast(d[1..], zeros[1..]);
    }
  }

  lemma ZeroTailLeast(v: string, da: string, db: string)
    requires |da| == |db| && AllDigits(da) && v <= da && v <= db
    requires forall i | |v| <= i < |db| :: db[i] == '0'
    ensures !Less(da, db)
  {
    var d, zeros := da[|v|..], db[|v|..];
    assert da == v + d && db == v + zeros;
    ZerosLeast(d, zeros);
    CommonPrefix(v, d, zeros);
  }

  /** Cutting zeros off both ends of a comparison either keeps the order or
      turns the smaller text into a prefix. */
  lemma TrimmedOrder(da: string, u: string, db: string, v: string)
    requires |da| == |db| && AllDigits(da) && u <= da && v <= db
    requires forall i | |v| <= i < |db| :: db[i] == '0'
    requires Less(da, db)
    ensures ProperPrefix(u, v) || (Less(u, v) && u != v && !ProperPrefix(v, u))
  {
    if v <= u {
      assert v <= da;
      ZeroTailLeast(v, da, db);
    } else if !(u <= v) {
      assert da == u + da[|u|..] && db == v + db[|v|..];
      Diverging(u, v, da[|u|..], db[|v|..]);
    }
  }

  lemma SplitPrefix(u: string, rest: string)
    requires rest != "" && rest[0] < 'Z'
    ensures Less("." + (u + rest), "." + (u + "Z"))
  {
    CommonPrefix(u, rest, "Z");
    CommonPrefix(".", u + rest, u + "Z");
  }

  lemma PrefixOrdersLast(u: string, v: string)
    requires ProperPrefix(u, v) && AllDigits(v)
    ensures Less(FractionText(v), FractionText(u))
  {
    if u != "" {
      var w := v[|u|..];
      assert FractionText(u) == "." + (u + "Z");
      assert FractionText(v) == "." + (u + (w + "Z")) by {
        assert v == u + w;
        assert v + "Z" == u + (w + "Z");
        assert "." + v + "Z" == "." + (v + "Z");
      }
      SplitPrefix(u, w + "Z");
    }
  }

  lemma FractionOrder(a: Instant, b: Instant)
    requires a < b && SameSecond(a, b)
    ensures Less(FractionText(Fraction(a)), FractionText(Fraction(b))) == !ProperPrefix(Fraction(a), Fraction(b))
    ensures ProperPrefix(Fraction(a), Fraction(b)) ==> Less(FractionText(Fraction(b)), FractionText(Fraction(a)))
  {
    var da, db := Digits(a % SECOND, 9), Digits(b % SECOND, 9);
    var u, v := Trim(da), Trim(db);
    Powers();
    DigitsOrder(a % SECOND, b % SECOND, 9);
    TrimmedOrder(da, u, db, v);
    if ProperPrefix(u, v) {
      PrefixOrdersLast(u, v);
      Asymmetric(FractionText(v), FractionText(u));
    } else {
      Diverging(u, v, "Z", "Z");
      CommonPrefix(".", u + "Z", v + "Z");
      assert u != "" by { assert v[..0] == ""; }
      assert v != "" by { assert u[..0] == ""; }
      assert FractionText(u) == "." + (u + "Z") && FractionText(v) == "." + (v + "Z");
    }
  }

  // ---------------------------------------------------------- main theorems

  lemma SamePrefix(p: string, a: string, b: string)
    ensures Less(p + a, p + b) == Less(a, b) && Less(p + b, p + a) == Less(b, a)
  {
    CommonPrefix(p, a, b);
    CommonPrefix(p, b, a);
  }

  /** For instants up to year 9999 the order of the persisted texts is the
      order in time, except exactly when both lie in the same second and the
      earlier one's trimmed fraction is a proper prefix of the later one's. */
  lemma TextOrderVersusTimeOrder(a: Instant, b: Instant)
    requires a < b && FourDigitYear(a) && FourDigitYear(b)
    ensures Less(FormatTime(a), FormatTime(b)) <==> !(SameSecond(a, b) && ProperPrefix(Fraction(a), Fraction(b)))
    ensures Less(FormatTime(b), FormatTime(a)) <==> SameSecond(a, b) && ProperPrefix(Fraction(a), Fraction(b))
  {
    if SameSecond(a, b) {
      FractionOrder(a, b);
      SamePrefix(ClockText(a / SECOND), FractionText(Fraction(a)), FractionText(Fraction(b)));
    } else {
      SecondsOrder(a / SECOND, b / SECOND, FractionText(Fraction(a)), FractionText(Fraction(b)));
    }
    if Less(FormatTime(a), FormatTime(b)) { Asymmetric(FormatTime(a), FormatTime(b)); }
  }

  /** A test `text(a) <= text(b)`, as the SQL statements make it. */
  predicate TextLessEq(a: Instant, b: Instant) {
    LessEq(FormatTime(a), FormatTime(b))
  }

  /** Such a test errs by strictly less than one second, in both directions. */
  lemma TextTestErrsBelowOneSecond(a: Instant, b: Instant)
    requires FourDigitYear(a) && FourDigitYear(b)
    ensures TextLessEq(a, b) ==> a < b + SECOND
    ensures !TextLessEq(a, b) ==> b < a + SECOND
  {
    if b < a {
      TextOrderVersusTimeOrder(b, a);
      if TextLessEq(a, b) { Irreflexive(FormatTime(a)); }
    }
    if a < b {
      TextOrderVersusTimeOrder(a, b);
    }
  }

  predicate FractionShape(s: string) {
    s == "" || (2 <= |s| <= 10 && s[0] == '.' && AllDigits(s[1..]))
  }

  function Value(s: string): nat
    requires AllDigits(s)
  {
    if s == "" then 0 else 10 * Value(s[..|s| - 1]) + (s[|s| - 1] - '0') as nat
  }

  function Nanos(s: string): nat
    requires FractionShape(s)
  {
    if s == "" then 0 else Value(s[1..]) * Pow10(10 - |s|)
  }

  lemma {:induction false} ValueOfDigits(n: nat, width: nat)
    requires n < Pow10(width)
    ensures Value(Digits(n, width)) == n
  {
    if width > 0 {
      ValueOfDigits(n / 10, width - 1);
      assert Digits(n, width)[..width - 1] == Digits(n / 10, width - 1);
    }
  }

  /** The fraction as it stands in the text, with its point. */
  function PointFraction(fraction: string): string {
    if fraction == "" then "" else "." + fraction
  }

  lemma ScaleByTen(v: nat, k: nat)
    ensures v * Pow10(k + 1) == 10 * (v * Pow10(k))
  {}

  /** Trimmed zeros are recovered by scaling. */
  lemma {:induction false} ValueOfTrimmed(s: string)
    requires AllDigits(s)
    ensures AllDigits(Trim(s))
    ensures Value(Trim(s)) * Pow10(|s| - |Trim(s)|) == Value(s)
  {
    if s != "" && s[|s| - 1] == '0' {
      var t := s[..|s| - 1];
      ValueOfTrimmed(t);
      ScaleByTen(Value(Trim(t)), |t| - |Trim(t)|);
    }
  }

  lemma {:induction false} PowPositive(n: nat)
    ensures Pow10(n) > 0
  {
    if n > 0 { PowPositive(n - 1); }
  }

  lemma {:induction false} ValuePositive(s: string)
    requires s != "" && AllDigits(s) && s[|s| - 1] != '0'
    ensures Value(s) > 0
  {}

  lemma NanosOfTrimmed(d: string)
    requires |d| == 9 && AllDigits(d)
    ensures FractionShape(PointFraction(Trim(d))) && Nanos(PointFraction(Trim(d))) == Value(d)
    ensures Trim(d) == "" <==> Value(d) == 0
  {
    ValueOfTrimmed(d);
    if Trim(d) != "" {
      assert ("." + Trim(d))[1..] == Trim(d);
      ValuePositive(Trim(d));
      PowPositive(9 - |Trim(d)|);
    }
  }

  lemma FractionValue(t: Instant)
    ensures FractionShape(PointFraction(Fraction(t))) && Nanos(PointFraction(Fraction(t))) == t % SECOND
    ensures Fraction(t) == "" <==> t % SECOND == 0
  {
    Powers();
    ValueOfDigits(t % SECOND, 9);
    NanosOfTrimmed(Digits(t % SECOND, 9));
  }

  /** Whole-second instants are compared exactly. */
  lemma WholeSecondsCompareExactly(a: Instant, b: Instant)
    requires FourDigitYear(a) && FourDigitYear(b) && a % SECOND == b % SECOND == 0
    ensures TextLessEq(a, b) <==> a <= b
  {
    FractionValue(a);
    FractionValue(b);
    if a < b { TextOrderVersusTimeOrder(a, b); }
    if b < a {
      TextOrderVersusTimeOrder(b, a);
      Asymmetric(FormatTime(b), FormatTime(a));
    }
  }

  // ------------------------------------------------------------ round trip

  function FromFields(date: Date, hour: nat, minute: nat, second: nat): Option<nat> {
    if !ValidDate(date) || hour > 23 || minute > 59 || second > 59 then None
    else Some(DAY * DayNumber(date) + 3600 * hour + 60 * minute + second)
  }

  predicate ClockShape(s: string) {
    && |s| == 19 && s[4] == '-' && s[7] == '-' && s[10] == 'T' && s[13] == ':' && s[16] == ':'
    && AllDigits(s[0..4]) && AllDigits(s[5..7]) && AllDigits(s[8..10])
    && AllDigits(s[11..13]) && AllDigits(s[14..16]) && AllDigits(s[17..19])
  }

  function ParseClock(c: string): Option<nat> {
    if !ClockShape(c) then None
    else FromFields(Date(Value(c[0..4]), Value(c[5..7]), Value(c[8..10])),
                    Value(c[11..13]), Value(c[14..16]), Value(c[17..19]))
  }

  /** Reading a persisted text back: fixed columns, then the optional fraction. */
  function ParseTime(s: string): Option<Instant> {
    if |s| < 20 || s[|s| - 1] != 'Z' || !FractionShape(s[19..|s| - 1]) then None
    else match ParseClock(s[..19])
      case None => None
      case Some(seconds) => Some(SECOND * seconds + Nanos(s[19..|s| - 1]))
  }

  lemma Columns(y: string, mo: string, d: string, h: string, mi: string, sec: string)
    requires |y| == 4 && |mo| == |d| == |h| == |mi| == |sec| == 2
    requires AllDigits(y) && AllDigits(mo) && AllDigits(d) && AllDigits(h) && AllDigits(mi) && AllDigits(sec)
    ensures var c := y + "-" + (mo + "-" + (d + "T" + (h + ":" + (mi + ":" + sec))));
            && ClockShape(c) && c[0..4] == y && c[5..7] == mo && c[8..10] == d
            && c[11..13] == h && c[14..16] == mi && c[17..19] == sec
  {}

  lemma RenderTail(f: seq<Field>)
    requires |f| == 3 && f[2].after == ""
    ensures Render(f) == Digits(f[0].number, f[0].width) + f[0].after
                         + (Digits(f[1].number, f[1].width) + f[1].after + Digits(f[2].number, f[2].width))
  {
    assert f[1..][1..] == f[2..] && f[2..][1..] == [];
    assert Render(f[2..]) == Digits(f[2].number, f[2].width) + "" + Render([]);
    assert Render(f[1..]) == Digits(f[1].number, f[1].width) + f[1].after + Render(f[2..]);
  }

  lemma RenderSix(f: seq<Field>)
    requires |f| == 6
    ensures Render(f) == Digits(f[0].number, f[0].width) + f[0].after
                         + (Digits(f[1].number, f[1].width) + f[1].after
                            + (Digits(f[2].number, f[2].width) + f[2].after + Render(f[3..])))
  {
    assert f[1..][1..] == f[2..] && f[2..][1..] == f[3..];
    assert Render(f[2..]) == Digits(f[2].number, f[2].width) + f[2].after + Render(f[3..]);
    assert Render(f[1..]) == Digits(f[1].number, f[1].width) + f[1].after + Render(f[2..]);
  }

  /** The printed clock, read column by column. */
  lemma ClockValues(f: seq<Field>)
    requires |f| == 6 && f[0].width == 4 && forall i | 1 <= i < 6 :: f[i].width == 2
    requires f[0].after == f[1].after == "-" && f[2].after == "T" && f[3].after == f[4].after == ":" && f[5].after == ""
    requires forall i | 0 <= i < 6 :: Fits(f[i])
    ensures var c := Render(f);
            && ClockShape(c)
            && Value(c[0..4]) == f[0].number && Value(c[5..7]) == f[1].number
            && Value(c[8..10]) == f[2].number && Value(c[11..13]) == f[3].number
            && Value(c[14..16]) == f[4].number && Value(c[17..19]) == f[5].number
  {
    RenderSix(f);
    RenderTail(f[3..]);
    forall i | 0 <= i < 6 ensures Value(Digits(f[i].number, f[i].width)) == f[i].number {
      ValueOfDigits(f[i].number, f[i].width);
    }
    Columns(Digits(f[0].number, 4), Digits(f[1].number, 2), Digits(f[2].number, 2),
            Digits(f[3].number, 2), Digits(f[4].number, 2), Digits(f[5].number, 2));
  }

  lemma TimeOfDayInverse(clock: nat)
    requires clock < DAY
    ensures clock / 3600 <= 23 && clock == 3600 * (clock / 3600) + 60 * (clock / 60 % 60) + clock % 60
  {}

  lemma ParseFields(date: Date, clock: nat)
    requires ValidDate(date) && date.year < 10_000 && clock < DAY
    ensures ParseClock(Render(ClockFields(date, clock))) == Some(DAY * DayNumber(date) + clock)
  {
    hide Render, Digits, Value, DayNumber, MonthDays, ClockShape;
    TimeOfDayInverse(clock);
    FieldsFit(date, clock);
    ClockValues(ClockFields(date, clock));
  }

  lemma ClockRoundTrip(seconds: nat)
    requires DateOf(seconds / DAY).year < 10_000
    ensures ParseClock(ClockText(seconds)) == Some(seconds)
  {
    hide YearOf, MonthOf, Leap, YearDays, MonthDays, Digits, Render, ParseClock;
    DateInverse(seconds / DAY);
    ParseFields(DateOf(seconds / DAY), seconds % DAY);
  }

  lemma ParseJoined(clock: string, seconds: nat, fraction: string)
    requires ParseClock(clock) == Some(seconds)
    requires FractionShape(PointFraction(fraction))
    ensures ParseTime(clock + FractionText(fraction))
            == Some(SECOND * seconds + Nanos(PointFraction(fraction)))
  {
    var s := clock + FractionText(fraction);
    assert s[..19] == clock;
    assert s[19..|s| - 1] == PointFraction(fraction);
  }

  /** Formatting loses nothing: every representable instant is read back. */
  lemma FormatParseRoundTrip(t: Instant)
    requires FourDigitYear(t)
    ensures ParseTime(FormatTime(t)) == Some(t)
  {
    hide YearOf, MonthOf, Leap, YearDays, MonthDays, Digits, Trim, Render;
    ClockRoundTrip(t / SECOND);
    FractionValue(t);
    ParseJoined(ClockText(t / SECOND), t / SECOND, Fraction(t));
  }

  /** Hence no two instants share a text. */
  lemma FormatInjective(a: Instant, b: Instant)
    requires FourDigitYear(a) && FourDigitYear(b) && FormatTime(a) == FormatTime(b)
    ensures a == b
  {
    FormatParseRoundTrip(a);
    FormatParseRoundTrip(b);
  }

  lemma LeapYear(year: nat)
    requires year == 2024
    ensures Leap(year) && LeapYearsBefore(year) == 491 && DaysBeforeMonth(year, 1, 2) == 31
  {}

  lemma LeapDay(date: Date)
    requires date == Date(2024, 2, 29)
    ensures DateOf(739_310) == date
  {
    hide LeapYearsBefore, DateOf, DaysBeforeMonth, Leap;
    LeapYear(date.year);
    CalendarDay(date);
  }

  lemma LastDigit(n: nat, width: nat)
    ensures Digits(n, width + 1) == Digits(n / 10, width) + [Digit(n % 10)]
  {}

  lemma TwoDigits(n: nat)
    requires n < 100
    ensures Digits(n, 2) == [Digit(n / 10), Digit(n % 10)]
  {
    hide Digits;
    LastDigit(n, 1);
    LastDigit(n / 10, 0);
  }

  lemma LeapYearDigits(n: nat)
    requires n == 2024
    ensures Digits(n, 4) == "2024"
  {
    hide Digits;
    LastDigit(n, 3);
    LastDigit(n / 10, 2);
    TwoDigits(n / 100);
    assert n % 10 == 4 && n / 10 % 10 == 2 && n / 10 / 10 == n / 100 == 20;
  }

  lemma ColumnsJoined()
    ensures "2024" + "-" + ("02" + "-" + ("29" + "T" + ("13" + ":" + ("07" + ":" + ("09" + ""))))) == "2024-02-29T13:07:09"
  {}

  lemma LeapDayFields(date: Date, clock: nat)
    requires date == Date(2024, 2, 29) && clock == 47_229
    ensures ClockFields(date, clock)
            == [Field(2024, 4, "-"), Field(2, 2, "-"), Field(29, 2, "T"), Field(13, 2, ":"), Field(7, 2, ":"), Field(9, 2, "")]
  {
    assert clock / 3600 == 13 && clock / 60 % 60 == 7 && clock % 60 == 9 && YearWidth(date.year) == 4;
  }

  lemma LeapDayClock(date: Date, clock: nat)
    requires date == Date(2024, 2, 29) && clock == 47_229
    ensures Render(ClockFields(date, clock)) == "2024-02-29T13:07:09"
  {
    hide Digits, ClockFields, Render;
    var f := ClockFields(date, clock);
    LeapDayFields(date, clock);
    LeapYearDigits(f[0].number);
    TwoDigits(f[1].number);
    TwoDigits(f[2].number);
    TwoDigits(f[3].number);
    TwoDigits(f[4].number);
    TwoDigits(f[5].number);
    RenderSix(f);
    RenderTail(f[3..]);
    ColumnsJoined();
  }

  lemma {:induction false} Shifted(n: nat, width: nat, by_: nat)
    ensures Digits(n * Pow10(by_), width + by_) == Digits(n, width) + seq(by_, i => '0')
  {
    if by_ == 0 {
      assert n * Pow10(0) == n;
    } else {
      hide Digits, Pow10;
      Shifted(n, width, by_ - 1);
      ScaleByTen(n, by_ - 1);
      var m, k := n * Pow10(by_ - 1), width + by_ - 1;
      LastDigit(10 * m, k);
      assert seq(by_, i => '0') == seq(by_ - 1, i => '0') + ['0'];
    }
  }

  lemma TwentiethFraction()
    ensures Trim(Digits(50_000_000, 9)) == "05"
  {
    assert Pow10(7) == 10_000_000;
    Shifted(5, 2, 7);
    TwoDigits(5);
    var s := Digits(50_000_000, 9);
    hide Digits, Pow10;
    assert s[0] == '0' && s[1] == '5' && forall i | 2 <= i < 9 :: s[i] == '0';
    var r := Trim(s);
    hide Trim;
    assert |r| == 2;
  }

  lemma LeapDayParts(t: Instant)
    requires t == (739_310 * 86_400 + 47_229) * SECOND + 50_000_000
    ensures t / SECOND / DAY == 739_310 && t / SECOND % DAY == 47_229 && t % SECOND == 50_000_000
  {
    assert t / SECOND == 739_310 * 86_400 + 47_229;
  }

  /** One text in full: 50 milliseconds past 13:07:09 on a leap day. */
  lemma LeapDayText(t: Instant)
    requires t == (739_310 * 86_400 + 47_229) * SECOND + 50_000_000
    ensures FormatTime(t) == "2024-02-29T13:07:09.05Z"
  {
    hide DateOf, Render, ClockFields, Digits, Trim;
    LeapDayParts(t);
    LeapDay(Date(2024, 2, 29));
    LeapDayClock(DateOf(t / SECOND / DAY), t / SECOND % DAY);
    TwentiethFraction();
  }

  /** The disagreement is real: half a second past midnight of 0000-01-01 has
      the smaller text than the whole second before it. */
  lemma HalfSecondOrdersFirst()
    ensures Less(FormatTime(SECOND / 2), FormatTime(0))
  {
    FractionValue(0);
    FractionValue(SECOND / 2);
    TextOrderVersusTimeOrder(0, SECOND / 2);
  }
}
