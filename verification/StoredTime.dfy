/**
 * Timestamps as the store keeps them: RFC 3339 text in UTC with trailing fractional zeros
 * dropped (section 5.6 of RFC 3339, Go's RFC3339Nano). SQL compares that text, so the text
 * order stands in for the order of instants. This module says exactly when it may.
 */
module StoredTime {
  import opened Basics
  import opened Order

  // ----- The calendar -----

  predicate Leap(y: int) {
    y % 4 == 0 && (y % 100 != 0 || y % 400 == 0)
  }

  function YearLen(y: int): nat {
    if Leap(y) then 366 else 365
  }

  /** Days from 0001-01-01 to the first day of year `y`. */
  function DaysBefore(y: nat): nat
    requires y >= 1
  {
    if y == 1 then 0 else DaysBefore(y - 1) + YearLen(y - 1)
  }

  function MonthLen(y: int, m: nat): nat {
    if m == 2 then (if Leap(y) then 29 else 28)
    else if m in {4, 6, 9, 11} then 30 else 31
  }

  function DaysBeforeMonth(y: int, m: nat): nat
    requires m >= 1
  {
    if m == 1 then 0 else DaysBeforeMonth(y, m - 1) + MonthLen(y, m - 1)
  }

  function YearOf(days: nat, from: nat): (y: nat)
    requires from >= 1 && DaysBefore(from) <= days
    ensures y >= from && DaysBefore(y) <= days < DaysBefore(y + 1)
    decreases days - DaysBefore(from)
  {
    if days < DaysBefore(from + 1) then from else YearOf(days, from + 1)
  }

  lemma MonthsFillYear(y: int)
    ensures DaysBeforeMonth(y, 13) == YearLen(y)
  {
    var feb := MonthLen(y, 2);
    assert DaysBeforeMonth(y, 2) == 31 && DaysBeforeMonth(y, 3) == 31 + feb;
    assert DaysBeforeMonth(y, 4) == 62 + feb && DaysBeforeMonth(y, 5) == 92 + feb;
    assert DaysBeforeMonth(y, 6) == 123 + feb && DaysBeforeMonth(y, 7) == 153 + feb;
    assert DaysBeforeMonth(y, 8) == 184 + feb && DaysBeforeMonth(y, 9) == 215 + feb;
    assert DaysBeforeMonth(y, 10) == 245 + feb && DaysBeforeMonth(y, 11) == 276 + feb;
    assert DaysBeforeMonth(y, 12) == 306 + feb;
  }

  function MonthOf(y: int, day: nat, from: nat): (m: nat)
    requires 1 <= from <= 12 && DaysBeforeMonth(y, from) <= day < YearLen(y)
    ensures from <= m <= 12 && DaysBeforeMonth(y, m) <= day < DaysBeforeMonth(y, m + 1)
    decreases 12 - from
  {
    MonthsFillYear(y);
    if day < DaysBeforeMonth(y, from + 1) then from else MonthOf(y, day, from + 1)
  }

  lemma {:induction false} YearsAscend(a: nat, b: nat)
    requires 1 <= a <= b
    ensures DaysBefore(a) <= DaysBefore(b)
  {
    if a < b { YearsAscend(a, b - 1); }
  }

  lemma {:induction false} MonthsAscend(y: int, a: nat, b: nat)
    requires 1 <= a <= b
    ensures DaysBeforeMonth(y, a) <= DaysBeforeMonth(y, b)
  {
    if a < b { MonthsAscend(y, a, b - 1); }
  }

  // ----- Fixed-width decimals -----

  function Digit(d: int): char
    requires 0 <= d < 10
  {
    '0' + d as char
  }

  function Pow10(w: nat): nat {
    if w == 0 then 1 else 10 * Pow10(w - 1)
  }

  /** The last `w` decimal digits of `n`. */
  function Pad(n: nat, w: nat): (s: string)
    ensures |s| == w
    ensures forall i | 0 <= i < w :: '0' <= s[i] <= '9'
  {
    if w == 0 then "" else Pad(n / 10, w - 1) + [Digit(n % 10)]
  }

  lemma {:induction false} PadAscends(a: nat, b: nat, w: nat)
    requires a < b < Pow10(w)
    ensures Less(Pad(a, w), Pad(b, w))
  {
    var p, q := Pad(a / 10, w - 1), Pad(b / 10, w - 1);
    if a / 10 == b / 10 {
      LessPrefix(p, [Digit(a % 10)], [Digit(b % 10)]);
    } else {
      PadAscends(a / 10, b / 10, w - 1);
      LessDecides(p, q, [Digit(a % 10)], [Digit(b % 10)]);
    }
  }

  // ----- The text of an instant -----

  const DAY := 86_400

  function Year(secs: nat): nat {
    YearOf(secs / DAY, 1)
  }

  /** Instants whose year has at most four digits, which is what RFC 3339 text can hold. */
  predicate InRange(t: Instant) {
    t >= 0 && Year(t / SECOND) <= 9999
  }

  function MonthDayText(y: int, day: nat): (s: string)
    requires day < YearLen(y)
    ensures |s| == 5
  {
    var m := MonthOf(y, day, 1);
    Pad(m, 2) + ("-" + Pad(day - DaysBeforeMonth(y, m) + 1, 2))
  }

  function DateText(days: nat): (s: string)
    ensures |s| == 10
  {
    var y := YearOf(days, 1);
    Pad(y, 4) + ("-" + MonthDayText(y, days - DaysBefore(y)))
  }

  function ClockText(sod: nat): (s: string)
    ensures |s| == 9
  {
    "T" + (Pad(sod / 3600, 2) + (":" + (Pad(sod % 3600 / 60, 2) + (":" + Pad(sod % 60, 2)))))
  }

  function SecondText(secs: nat): (s: string)
    ensures |s| == 19
  {
    DateText(secs / DAY) + ClockText(secs % DAY)
  }

  function DropZeros(s: string): (r: string)
    ensures r <= s
    ensures r != "" ==> r[|r| - 1] != '0'
    ensures forall i | |r| <= i < |s| :: s[i] == '0'
  {
    if s != "" && s[|s| - 1] == '0' then DropZeros(s[..|s| - 1]) else s
  }

  /** The fraction's digits, trailing zeros dropped; "" for a whole second. */
  function Fraction(t: Instant): string
    requires t >= 0
  {
    DropZeros(Pad(t % SECOND, 9))
  }

  function Tail(fraction: string): string {
    if fraction == "" then "Z" else "." + fraction + "Z"
  }

  function Text(t: Instant): string
    requires t >= 0
  {
    SecondText(t / SECOND) + Tail(Fraction(t))
  }

  // ----- Different seconds -----

  lemma Tens()
    ensures Pow10(2) == 100 && Pow10(4) == 10_000 && Pow10(9) == 1_000_000_000
  {
    assert Pow10(3) == 1_000 && Pow10(5) == 100_000;
    assert Pow10(6) == 1_000_000;
    assert Pow10(7) == 10_000_000 && Pow10(8) == 100_000_000;
  }

  /** A field followed by the rest: smaller field, or equal field and smaller rest. */
  lemma FieldDecides(a: nat, b: nat, w: nat, x: string, y: string)
    requires a < Pow10(w) && b < Pow10(w)
    requires a < b || (a == b && Less(x, y))
    ensures Less(Pad(a, w) + x, Pad(b, w) + y)
  {
    if a < b {
      PadAscends(a, b, w);
      LessDecides(Pad(a, w), Pad(b, w), x, y);
    } else {
      LessPrefix(Pad(a, w), x, y);
    }
  }

  lemma CalendarStarts(y: int)
    ensures DaysBefore(1) == 0 && DaysBeforeMonth(y, 1) == 0
  {
  }

  lemma MonthFits(y: int, m: nat)
    requires 1 <= m <= 12
    ensures DaysBeforeMonth(y, m + 1) - DaysBeforeMonth(y, m) <= 31
  {
  }

  lemma DayAscends(y: nat, a: nat, b: nat)
    requires a < b < YearLen(y)
    ensures Less(MonthDayText(y, a), MonthDayText(y, b))
  {
    hide Less, Pad, Pow10, DaysBeforeMonth, MonthOf;
    Tens();
    CalendarStarts(y);
    var m, n := MonthOf(y, a, 1), MonthOf(y, b, 1);
    MonthFits(y, m);
    MonthFits(y, n);
    if m > n { MonthsAscend(y, n + 1, m); }
    var d, e := a - DaysBeforeMonth(y, m) + 1, b - DaysBeforeMonth(y, n) + 1;
    if m == n {
      PadAscends(d, e, 2);
      LessPrefix("-", Pad(d, 2), Pad(e, 2));
    }
    FieldDecides(m, n, 2, "-" + Pad(d, 2), "-" + Pad(e, 2));
  }

  lemma YearSpan(y: nat)
    requires y >= 1
    ensures DaysBefore(y + 1) == DaysBefore(y) + YearLen(y)
  {
  }

  lemma DateAscends(a: nat, b: nat)
    requires a < b && YearOf(b, 1) <= 9999
    ensures Less(DateText(a), DateText(b))
  {
    hide Less, Pad, Pow10, DaysBefore, MonthDayText, YearOf, YearLen;
    Tens();
    CalendarStarts(1);
    var y, z := YearOf(a, 1), YearOf(b, 1);
    YearSpan(y);
    YearSpan(z);
    if y > z { YearsAscend(z + 1, y); }
    var u, v := MonthDayText(y, a - DaysBefore(y)), MonthDayText(z, b - DaysBefore(z));
    if y == z {
      DayAscends(y, a - DaysBefore(y), b - DaysBefore(z));
      LessPrefix("-", u, v);
    }
    FieldDecides(y, z, 4, "-" + u, "-" + v);
  }

  lemma ClockAscends(a: nat, b: nat)
    requires a < b < DAY
    ensures Less(ClockText(a), ClockText(b))
  {
    hide Less, Pad, Pow10;
    Tens();
    var s, t := Pad(a % 60, 2), Pad(b % 60, 2);
    var m, n := Pad(a % 3600 / 60, 2) + (":" + s), Pad(b % 3600 / 60, 2) + (":" + t);
    if a / 3600 == b / 3600 {
      if a % 3600 / 60 == b % 3600 / 60 {
        PadAscends(a % 60, b % 60, 2);
        LessPrefix(":", s, t);
      }
      FieldDecides(a % 3600 / 60, b % 3600 / 60, 2, ":" + s, ":" + t);
      LessPrefix(":", m, n);
    }
    FieldDecides(a / 3600, b / 3600, 2, ":" + m, ":" + n);
    LessPrefix("T", Pad(a / 3600, 2) + (":" + m), Pad(b / 3600, 2) + (":" + n));
  }

  lemma SecondAscends(a: nat, b: nat)
    requires a < b && Year(b) <= 9999
    ensures Less(SecondText(a), SecondText(b))
  {
    if a / DAY == b / DAY {
      ClockAscends(a % DAY, b % DAY);
      LessPrefix(DateText(a / DAY), ClockText(a % DAY), ClockText(b % DAY));
    } else {
      DateAscends(a / DAY, b / DAY);
      LessDecides(DateText(a / DAY), DateText(b / DAY), ClockText(a % DAY), ClockText(b % DAY));
    }
  }

  // ----- The same second -----

  ghost predicate ProperPrefix(a: string, b: string) {
    a < b
  }

  /** Within a second the later instant reads as later text, unless the earlier fraction is a prefix of its own. */
  lemma TailOrder(m: nat, n: nat)
    requires m < n < SECOND
    ensures var d, e := DropZeros(Pad(m, 9)), DropZeros(Pad(n, 9));
            Less(Tail(d), Tail(e)) <==> !ProperPrefix(d, e)
  {
    hide Less, Pad, DropZeros, Tail;
    Tens();
    PadAscends(m, n, 9);
    var p, q := Pad(m, 9), Pad(n, 9);
    var d, e := DropZeros(p), DropZeros(q);
    var k := FirstDifference(p, q);
    if |d| > k {
      DigitsDecide(d, e, k);
    } else {
      assert d == p[..k][..|d|] && e[..|d|] == q[..k][..|d|];
      PrefixReadsLater(d, e);
    }
  }

  lemma DigitsDecide(d: string, e: string, k: nat)
    requires k < |d| && k < |e| && d[..k] == e[..k] && d[k] < e[k]
    ensures Less(Tail(d), Tail(e)) && !ProperPrefix(d, e)
  {
    hide Less;
    var x, y := Tail(d), Tail(e);
    assert x[..k + 1] == "." + d[..k] && y[..k + 1] == "." + e[..k] && x[k + 1] == d[k] && y[k + 1] == e[k];
    LessAt(x, y, k + 1);
  }

  lemma PrefixReadsLater(d: string, e: string)
    requires ProperPrefix(d, e) && forall i | 0 <= i < |e| :: '0' <= e[i] <= '9'
    ensures Less(Tail(e), Tail(d)) && !Less(Tail(d), Tail(e))
  {
    hide Less;
    var x, y := Tail(d), Tail(e);
    if d == "" {
      LessAt(y, x, 0);
    } else {
      var k := |d|;
      assert x[..k + 1] == "." + d && y[..k + 1] == "." + e[..k] && x[k + 1] == 'Z' && y[k + 1] == e[k];
      LessAt(y, x, k + 1);
    }
    LessAsymmetric(y, x);
  }

  // ----- Exactly when text order is time order -----

  /**
   * For instants of different seconds text order always agrees with time; within one second it agrees
   * exactly when the earlier one's fraction is not a proper prefix of the later one's.
   */
  lemma TextOrder(a: Instant, b: Instant)
    requires 0 <= a < b && InRange(b)
    ensures Less(Text(a), Text(b)) <==> a / SECOND < b / SECOND || !ProperPrefix(Fraction(a), Fraction(b))
  {
    hide Less, SecondText, Tail, Pad, DropZeros;
    var s, t := a / SECOND, b / SECOND;
    if s < t {
      SecondAscends(s, t);
      LessDecides(SecondText(s), SecondText(t), Tail(Fraction(a)), Tail(Fraction(b)));
    } else {
      TailOrder(a % SECOND, b % SECOND);
      LessPrefix(SecondText(s), Tail(Fraction(a)), Tail(Fraction(b)));
    }
  }

  /** Fractions of equal width never mislead, so the texts of one fixed precision sort by time. */
  lemma EqualWidthOrder(a: Instant, b: Instant)
    requires 0 <= a < b && InRange(b) && |Fraction(a)| == |Fraction(b)|
    ensures Less(Text(a), Text(b))
  {
    TextOrder(a, b);
  }

  lemma WholeSecondFraction(b: Instant)
    requires b >= 0
    ensures Fraction(b) == "" <==> b % SECOND == 0
  {
    Tens();
    ZeroPad(9);
    if b % SECOND != 0 {
      PadAscends(0, b % SECOND, 9);
      LessAsymmetric(Pad(0, 9), Pad(b % SECOND, 9));
    }
  }

  lemma {:induction false} ZeroPad(w: nat)
    ensures forall i | 0 <= i < w :: Pad(0, w)[i] == '0'
  {
    if w > 0 { ZeroPad(w - 1); }
  }

  /**
   * A whole-second boundary compared as text (`started_at >= midnight`): it keeps exactly the boundary
   * itself and everything from one second after it. The open second in between is lost.
   */
  lemma BoundaryAsText(t: Instant, b: Instant)
    requires InRange(t) && InRange(b) && b % SECOND == 0
    ensures !Less(Text(t), Text(b)) <==> t == b || t >= b + SECOND
  {
    hide Less, Text, Fraction;
    WholeSecondFraction(t);
    WholeSecondFraction(b);
    if t == b {
      LessIrreflexive(Text(t));
    } else if t < b {
      TextOrder(t, b);
    } else {
      TextOrder(b, t);
      if t < b + SECOND {
        PrefixReadsLaterText(b, t);
      } else {
        LessAsymmetric(Text(b), Text(t));
      }
    }
  }

  lemma PrefixReadsLaterText(b: Instant, t: Instant)
    requires 0 <= b < t < b + SECOND && b % SECOND == 0 && Fraction(b) == "" && Fraction(t) != ""
    ensures Less(Text(t), Text(b))
  {
    hide Less, SecondText, Tail, Pad;
    assert b / SECOND == t / SECOND;
    PrefixReadsLater(Fraction(b), Fraction(t));
    LessPrefix(SecondText(b / SECOND), Tail(Fraction(t)), Tail(Fraction(b)));
  }

  /** `countRunsSince`: how many of these starts the SQL text comparison counts. */
  function CountByText(starts: seq<Instant>, since: Instant): nat
    requires since >= 0 && forall t | t in starts :: t >= 0
  {
    if starts == [] then 0
    else
      assert starts[0] in starts && forall t | t in starts[1..] :: t in starts;
      CountByText(starts[1..], since) + if Less(Text(starts[0]), Text(since)) then 0 else 1
  }

  function CountByTime(starts: seq<Instant>, since: Instant): nat {
    if starts == [] then 0 else CountByTime(starts[1..], since) + if starts[0] < since then 0 else 1
  }

  /** The runs counted since midnight are the runs started since midnight iff none started within its first second. */
  lemma {:induction false} RunCountExact(starts: seq<Instant>, since: Instant)
    requires InRange(since) && since % SECOND == 0 && forall t | t in starts :: t >= 0 && InRange(t)
    ensures CountByText(starts, since) <= CountByTime(starts, since)
    ensures CountByText(starts, since) == CountByTime(starts, since)
            <==> forall t | t in starts :: !(since < t < since + SECOND)
  {
    hide Less, Text, InRange;
    if starts != [] {
      assert starts[0] in starts && forall t | t in starts[1..] :: t in starts;
      assert forall t | t in starts :: t == starts[0] || t in starts[1..];
      RunCountExact(starts[1..], since);
      BoundaryAsText(starts[0], since);
    }
  }

  // ----- The text names the right instant -----

  lemma FourStep(n: nat)
    requires n > 0
    ensures n / 4 == (n - 1) / 4 + if n % 4 == 0 then 1 else 0
  {
  }

  lemma HundredStep(n: nat)
    requires n > 0
    ensures n / 100 == (n - 1) / 100 + if n % 100 == 0 then 1 else 0
  {
  }

  lemma FourHundredStep(n: nat)
    requires n > 0
    ensures n / 400 == (n - 1) / 400 + if n % 400 == 0 then 1 else 0
  {
  }

  lemma Multiples(n: nat)
    ensures n % 400 == 0 ==> n % 100 == 0
    ensures n % 100 == 0 ==> n % 4 == 0
  {
    if n % 100 == 0 { assert n == 4 * (25 * (n / 100)); }
    if n % 400 == 0 { assert n == 100 * (4 * (n / 400)); }
  }

  /** The leap days up to a year. */
  function LeapDays(n: nat): int { n / 4 - n / 100 + n / 400 }

  lemma LeapStep(n: nat)
    requires n > 0
    ensures LeapDays(n) == LeapDays(n - 1) + if Leap(n) then 1 else 0
  {
    FourStep(n);
    HundredStep(n);
    FourHundredStep(n);
    Multiples(n);
  }

  /** The Gregorian calendar in closed form: a leap day every four years, not every hundred, but every four hundred. */
  lemma {:induction false} DaysBeforeClosed(y: nat)
    requires y >= 1
    ensures DaysBefore(y) == 365 * (y - 1) + ((y - 1) / 4 - (y - 1) / 100 + (y - 1) / 400)
  {
    LeapTotal(y);
  }

  lemma {:induction false} LeapTotal(y: nat)
    requires y >= 1
    ensures DaysBefore(y) == 365 * (y - 1) + LeapDays(y - 1)
  {
    hide LeapDays, Leap;
    if y > 1 {
      LeapTotal(y - 1);
      LeapStep(y - 1);
    } else {
      NoLeapDays();
    }
  }

  lemma NoLeapDays()
    ensures LeapDays(0) == 0
  {
  }

  const CUMULATIVE := [0, 31, 59, 90, 120, 151, 181, 212, 243, 273, 304, 334]

  /** Days before a month, by the table every almanac prints. */
  lemma MonthTable(y: int, m: nat)
    requires 1 <= m <= 12
    ensures DaysBeforeMonth(y, m) == CUMULATIVE[m - 1]
              + if m > 2 && ((y % 4 == 0 && y % 100 != 0) || y % 400 == 0) then 1 else 0
  {
    var feb := MonthLen(y, 2);
    assert DaysBeforeMonth(y, 2) == 31 && DaysBeforeMonth(y, 3) == 31 + feb;
    assert DaysBeforeMonth(y, 4) == 62 + feb && DaysBeforeMonth(y, 5) == 92 + feb;
    assert DaysBeforeMonth(y, 6) == 123 + feb && DaysBeforeMonth(y, 7) == 153 + feb;
    assert DaysBeforeMonth(y, 8) == 184 + feb && DaysBeforeMonth(y, 9) == 215 + feb;
    assert DaysBeforeMonth(y, 10) == 245 + feb && DaysBeforeMonth(y, 11) == 276 + feb;
    assert DaysBeforeMonth(y, 12) == 306 + feb;
    assert y % 400 == 0 ==> y % 4 == 0;
  }

  /** The number of a civil date, counted from 0001-01-01. */
  function DayNumber(y: int, m: int, d: int): int {
    365 * (y - 1) + ((y - 1) / 4 - (y - 1) / 100 + (y - 1) / 400)
    + (if 1 <= m <= 12 then CUMULATIVE[m - 1] else 0)
    + (if m > 2 && ((y % 4 == 0 && y % 100 != 0) || y % 400 == 0) then 1 else 0) + d - 1
  }

  /** The value of a run of digits. */
  function Num(s: string): int {
    if s == "" then 0 else 10 * Num(s[..|s| - 1]) + (s[|s| - 1] as int - '0' as int)
  }

  /** The nanoseconds of what follows the seconds: nothing, or a point and up to nine digits. */
  function ReadFraction(tail: string): int {
    if 2 < |tail| <= 11 && tail[0] == '.' then Num(tail[1..|tail| - 1]) * Pow10(11 - |tail|) else 0
  }

  /** `time.Parse` of a stored timestamp, read by position. */
  function ReadTime(s: string): Instant {
    if |s| < 20 then 0
    else
      (DayNumber(Num(s[..4]), Num(s[5..7]), Num(s[8..10])) * 86_400
       + Num(s[11..13]) * 3600 + Num(s[14..16]) * 60 + Num(s[17..19])) * 1_000_000_000
      + ReadFraction(s[19..])
  }

  lemma {:induction false} NumOfPad(n: nat, w: nat)
    requires n < Pow10(w)
    ensures Num(Pad(n, w)) == n
  {
    if w > 0 {
      NumOfPad(n / 10, w - 1);
      var s := Pad(n, w);
      assert s[..|s| - 1] == Pad(n / 10, w - 1) && s[|s| - 1] == Digit(n % 10);
    }
  }

  lemma {:induction false} DroppedValue(s: string)
    ensures Num(DropZeros(s)) * Pow10(|s| - |DropZeros(s)|) == Num(s)
  {
    if s != "" && s[|s| - 1] == '0' {
      var init := s[..|s| - 1];
      DroppedValue(init);
      var n, k := Num(DropZeros(init)), |init| - |DropZeros(init)|;
      assert Pow10(k + 1) == 10 * Pow10(k);
      assert n * (10 * Pow10(k)) == 10 * (n * Pow10(k));
    }
  }

  lemma FractionReads(t: Instant)
    requires t >= 0
    ensures ReadFraction(Tail(Fraction(t))) == t % SECOND
  {
    hide DropZeros, Pad;
    Tens();
    var p, f := Pad(t % SECOND, 9), Fraction(t);
    NumOfPad(t % SECOND, 9);
    DroppedValue(p);
    assert |f| <= 9;
    if f != "" {
      var tail := Tail(f);
      assert tail[1..|tail| - 1] == f;
    }
  }

  lemma ClockReads(sod: nat)
    requires sod < DAY
    ensures var s := ClockText(sod);
            && s[0] == 'T' && s[3] == ':' && s[6] == ':'
            && Num(s[1..3]) * 3600 + Num(s[4..6]) * 60 + Num(s[7..9]) == sod
  {
    hide Pad, Num;
    Tens();
    var h, m, c := sod / 3600, sod % 3600 / 60, sod % 60;
    NumOfPad(h, 2);
    NumOfPad(m, 2);
    NumOfPad(c, 2);
    var s := ClockText(sod);
    assert s[1..3] == Pad(h, 2) && s[4..6] == Pad(m, 2) && s[7..9] == Pad(c, 2);
    assert sod % 3600 % 60 == sod % 60;
  }

  lemma DateReads(days: nat)
    requires YearOf(days, 1) <= 9999
    ensures var s := DateText(days);
            && s[4] == '-' && s[7] == '-'
            && DayNumber(Num(s[..4]), Num(s[5..7]), Num(s[8..10])) == days
  {
    hide Pad, Num, YearOf, MonthOf, DaysBefore, DaysBeforeMonth;
    Tens();
    CalendarStarts(1);
    var y := YearOf(days, 1);
    YearSpan(y);
    CalendarStarts(y);
    var doy := days - DaysBefore(y);
    var m := MonthOf(y, doy, 1);
    MonthFits(y, m);
    var d := doy - DaysBeforeMonth(y, m) + 1;
    NumOfPad(y, 4);
    NumOfPad(m, 2);
    NumOfPad(d, 2);
    var s := DateText(days);
    assert s[..4] == Pad(y, 4) && s[5..7] == Pad(m, 2) && s[8..10] == Pad(d, 2);
    DaysBeforeClosed(y);
    MonthTable(y, m);
  }

  /** A stored timestamp, read back by position, is the instant it was written for; its separators are RFC 3339's. */
  lemma TextReadsBack(t: Instant)
    requires InRange(t)
    ensures ReadTime(Text(t)) == t
    ensures var s := Text(t);
            && |s| >= 20 && s[4] == s[7] == '-' && s[10] == 'T' && s[13] == s[16] == ':' && s[|s| - 1] == 'Z'
  {
    hide DateText, ClockText, Fraction, Num, DayNumber, ReadFraction;
    var secs := t / SECOND;
    var days, sod := secs / DAY, secs % DAY;
    DateReads(days);
    ClockReads(sod);
    FractionReads(t);
    var date, clock, tail, s := DateText(days), ClockText(sod), Tail(Fraction(t)), Text(t);
    assert s == date + clock + tail;
    assert s[..4] == date[..4] && s[5..7] == date[5..7] && s[8..10] == date[8..10];
    assert s[11..13] == clock[1..3] && s[14..16] == clock[4..6] && s[17..19] == clock[7..9] && s[19..] == tail;
    assert s[10] == clock[0] && s[13] == clock[3] && s[16] == clock[6];
  }
}
