/** ISO 8601 timestamps as the host writes them for the years 0000 to 9999, and why comparing them
    as strings compares them as times (section 5.1 of RFC 3339). */
module Timestamps {
  import opened Decimal

  const MS_PER_DAY := 86400000

  // ---------------------------------------------------------------- the calendar

  datatype Date = Date(year: nat, month: nat, day: nat)

  predicate IsLeap(year: nat) {
    year % 4 == 0 && (year % 100 != 0 || year % 400 == 0)
  }

  function DaysInMonth(year: nat, month: nat): nat {
    if month == 2 then (if IsLeap(year) then 29 else 28)
    else if month == 4 || month == 6 || month == 9 || month == 11 then 30
    else 31
  }

  predicate IsDate(d: Date) {
    1 <= d.month <= 12 && 1 <= d.day <= DaysInMonth(d.year, d.month)
  }

  function NextDay(d: Date): Date {
    if d.day < DaysInMonth(d.year, d.month) then d.(day := d.day + 1)
    else if d.month < 12 then Date(d.year, d.month + 1, 1)
    else Date(d.year + 1, 1, 1)
  }

  /** The date n days after the first of January of the year 0. */
  function DateOf(n: nat): (d: Date)
    ensures IsDate(d)
  {
    if n == 0 then Date(0, 1, 1) else NextDay(DateOf(n - 1))
  }

  function DaysInYear(year: nat): nat { if IsLeap(year) then 366 else 365 }

  /** How many days the years before `year` have. */
  function YearStart(year: nat): nat {
    365 * year + (year + 3) / 4 - (year + 99) / 100 + (year + 399) / 400
  }

  lemma Multiples(k: int, d: nat)
    requires d > 0
    ensures k >= 1 ==> k * d >= d
    ensures k <= -1 ==> k * d <= -(d as int)
  {
  }

  lemma Euclid(n: nat, d: nat, q: nat, r: nat)
    requires d > 0 && r < d && n == q * d + r
    ensures n / d == q && n % d == r
  {
    assert n == n / d * d + n % d;
    assert (q - n / d) * d == n % d - r;
    Multiples(q - n / d, d);
  }

  lemma NextQuotient(n: nat, d: nat)
    requires d > 0
    ensures (n + d) / d == (n + d - 1) / d + if n % d == 0 then 1 else 0
  {
    var q, r := n / d, n % d;
    assert n == q * d + r && (q + 1) * d == q * d + d;
    Euclid(n + d, d, q + 1, r);
    if r == 0 {
      Euclid(n + d - 1, d, q, d - 1);
    } else {
      Euclid(n + d - 1, d, q + 1, r - 1);
    }
  }

  lemma LeapNests(year: nat)
    ensures year % 400 == 0 ==> year % 100 == 0
    ensures year % 100 == 0 ==> year % 4 == 0
  {
    if year % 400 == 0 {
      Euclid(year, 100, 4 * (year / 400), 0);
    }
    if year % 100 == 0 {
      Euclid(year, 4, 25 * (year / 100), 0);
    }
  }

  lemma NextYearStart(year: nat)
    ensures YearStart(year + 1) == YearStart(year) + DaysInYear(year)
  {
    NextQuotient(year, 4);
    NextQuotient(year, 100);
    NextQuotient(year, 400);
    LeapNests(year);
  }

  lemma {:induction false} WithinMonth(n: nat, d: Date, k: nat)
    requires DateOf(n) == d && d.day == 1 && k < DaysInMonth(d.year, d.month)
    ensures DateOf(n + k) == d.(day := 1 + k)
  {
    if k > 0 {
      WithinMonth(n, d, k - 1);
    }
  }

  lemma NextMonth(n: nat, d: Date)
    requires DateOf(n) == d && d.day == 1
    ensures var next := n + DaysInMonth(d.year, d.month);
            DateOf(next) == if d.month < 12 then Date(d.year, d.month + 1, 1) else Date(d.year + 1, 1, 1)
  {
    WithinMonth(n, d, DaysInMonth(d.year, d.month) - 1);
  }

  /** The days of a year from the first of a month on. */
  function DaysFrom(year: nat, month: nat): nat
    decreases 12 - month
  {
    DaysInMonth(year, month) + if month < 12 then DaysFrom(year, month + 1) else 0
  }

  lemma {:induction false} RestOfYear(n: nat, year: nat, month: nat)
    requires DateOf(n) == Date(year, month, 1) && 1 <= month <= 12
    ensures DateOf(n + DaysFrom(year, month)) == Date(year + 1, 1, 1)
    decreases 12 - month
  {
    NextMonth(n, Date(year, month, 1));
    if month < 12 {
      RestOfYear(n + DaysInMonth(year, month), year, month + 1);
    }
  }

  lemma MonthsMakeYear(year: nat)
    ensures DaysFrom(year, 1) == DaysInYear(year)
  {
    assert DaysFrom(year, 10) == 92;
    assert DaysFrom(year, 7) == 184;
    assert DaysFrom(year, 4) == 275;
  }

  lemma YearAfter(year: nat)
    requires DateOf(YearStart(year)) == Date(year, 1, 1)
    ensures DateOf(YearStart(year + 1)) == Date(year + 1, 1, 1)
  {
    hide *;
    NextYearStart(year);
    MonthsMakeYear(year);
    RestOfYear(YearStart(year), year, 1);
  }

  /** The first of January of every year is where the count says. */
  lemma {:induction false} YearStartsThere(year: nat)
    ensures DateOf(YearStart(year)) == Date(year, 1, 1)
  {
    if year == 0 {
      assert YearStart(0) == 0;
    } else {
      hide *;
      YearStartsThere(year - 1);
      YearAfter(year - 1);
    }
  }

  predicate DateBefore(a: Date, b: Date) {
    if a.year != b.year then a.year < b.year
    else if a.month != b.month then a.month < b.month
    else a.day < b.day
  }

  lemma {:induction false} LaterDayIsLaterDate(m: nat, n: nat)
    requires m < n
    ensures DateBefore(DateOf(m), DateOf(n))
  {
    if m < n - 1 {
      LaterDayIsLaterDate(m, n - 1);
    }
  }

  /** The epoch, and the last day of the year 9999. */
  const EPOCH_DAY := 719528
  const DAYS := 3652425

  lemma EpochIs1970()
    ensures DateOf(EPOCH_DAY) == Date(1970, 1, 1)
  {
    assert YearStart(1970) == EPOCH_DAY;
    hide DateOf, YearStart;
    YearStartsThere(1970);
  }

  lemma FourDigitYears(n: nat)
    requires n < DAYS
    ensures DateOf(n).year <= 9999
  {
    assert YearStart(10000) == DAYS;
    hide DateOf, YearStart;
    YearStartsThere(10000);
    LaterDayIsLaterDate(n, DAYS);
  }

  // ---------------------------------------------------------------- fixed-width numbers

  /** Lexicographic order of strings by character, as the host's `<`. */
  predicate Precedes(a: string, b: string) {
    b != [] && (a == [] || a[0] < b[0] || (a[0] == b[0] && Precedes(a[1..], b[1..])))
  }

  function Pow10(w: nat): nat { if w == 0 then 1 else 10 * Pow10(w - 1) }

  function Padded(n: nat, w: nat): (s: string)
    ensures |s| == w
  {
    if w == 0 then "" else Padded(n / 10, w - 1) + [Digit(n % 10)]
  }

  lemma {:induction false} ConcatOrder(a: string, b: string, c: string, d: string)
    requires |a| == |b|
    ensures Precedes(a + c, b + d) <==> Precedes(a, b) || (a == b && Precedes(c, d))
  {
    if a == [] {
      assert a + c == c && b + d == d;
    } else {
      assert (a + c)[1..] == a[1..] + c && (b + d)[1..] == b[1..] + d;
      ConcatOrder(a[1..], b[1..], c, d);
      assert a == b <==> a[0] == b[0] && a[1..] == b[1..];
    }
  }

  lemma {:induction false} PaddedOrder(m: nat, n: nat, w: nat)
    requires m < Pow10(w) && n < Pow10(w)
    ensures Precedes(Padded(m, w), Padded(n, w)) <==> m < n
    ensures Padded(m, w) == Padded(n, w) <==> m == n
  {
    if w > 0 {
      PaddedOrder(m / 10, n / 10, w - 1);
      var a, b := Padded(m / 10, w - 1), Padded(n / 10, w - 1);
      var x, y := [Digit(m % 10)], [Digit(n % 10)];
      ConcatOrder(a, b, x, y);
      assert Precedes(x, y) <==> m % 10 < n % 10;
      assert (a + x)[..w - 1] == a && (b + y)[..w - 1] == b && (a + x)[w - 1] == x[0] && (b + y)[w - 1] == y[0];
    }
  }

  // ---------------------------------------------------------------- layouts

  /** One field: its width, and the character after it. */
  datatype Field = Field(width: nat, mark: char)

  const ISO := [Field(4, '-'), Field(2, '-'), Field(2, 'T'), Field(2, ':'), Field(2, ':'), Field(2, '.'), Field(3, 'Z')]

  predicate Fits(values: seq<nat>, layout: seq<Field>) {
    |values| == |layout| && forall i :: 0 <= i < |values| ==> values[i] < Pow10(layout[i].width)
  }

  function Write(values: seq<nat>, layout: seq<Field>): string
    requires |values| == |layout|
  {
    if values == [] then ""
    else Padded(values[0], layout[0].width) + [layout[0].mark] + Write(values[1..], layout[1..])
  }

  predicate FieldsBefore(a: seq<nat>, b: seq<nat>)
    requires |a| == |b|
  {
    a != [] && (a[0] < b[0] || (a[0] == b[0] && FieldsBefore(a[1..], b[1..])))
  }

  /** In one layout, the order of the texts is the order of the values. */
  lemma {:induction false} WriteOrder(a: seq<nat>, b: seq<nat>, layout: seq<Field>)
    requires Fits(a, layout) && Fits(b, layout)
    ensures Precedes(Write(a, layout), Write(b, layout)) <==> FieldsBefore(a, b)
  {
    if a != [] {
      var f := layout[0];
      PaddedOrder(a[0], b[0], f.width);
      WriteOrder(a[1..], b[1..], layout[1..]);
      var x, y := Padded(a[0], f.width), Padded(b[0], f.width);
      var s, t := Write(a[1..], layout[1..]), Write(b[1..], layout[1..]);
      hide Padded, Write, FieldsBefore;
      ConcatOrder(x, y, [f.mark] + s, [f.mark] + t);
      ConcatOrder([f.mark], [f.mark], s, t);
      assert x + [f.mark] + s == x + ([f.mark] + s) && y + [f.mark] + t == y + ([f.mark] + t);
    }
  }

  // ---------------------------------------------------------------- timestamps

  /** Milliseconds since the epoch, within the years 0000 to 9999. */
  predicate InRange(ms: int) {
    -EPOCH_DAY * MS_PER_DAY <= ms < (DAYS - EPOCH_DAY) * MS_PER_DAY
  }

  function DayOf(ms: int): nat
    requires InRange(ms)
  {
    ms / MS_PER_DAY + EPOCH_DAY
  }

  function ClockFields(t: nat): seq<nat> {
    var inHour := t % 3600000;
    var inMinute := inHour % 60000;
    [t / 3600000, inHour / 60000, inMinute / 1000, inMinute % 1000]
  }

  function FieldsOf(ms: int): seq<nat>
    requires InRange(ms)
  {
    var d := DateOf(DayOf(ms));
    [d.year, d.month, d.day] + ClockFields(ms % MS_PER_DAY)
  }

  /** `toISOString`. */
  function Iso(ms: int): string
    requires InRange(ms)
  {
    Write(FieldsOf(ms), ISO)
  }

  lemma IsoFits(ms: int)
    requires InRange(ms)
    ensures Fits(FieldsOf(ms), ISO)
  {
    FourDigitYears(DayOf(ms));
    assert Pow10(2) == 100 && Pow10(3) == 1000 && Pow10(4) == 10000;
  }

  lemma {:induction false} FieldsPrefix(a: seq<nat>, b: seq<nat>, c: seq<nat>, d: seq<nat>)
    requires |a| == |b| && |c| == |d|
    ensures FieldsBefore(a + c, b + d) <==> FieldsBefore(a, b) || (a == b && FieldsBefore(c, d))
  {
    if a == [] {
      assert a + c == c && b + d == d;
    } else {
      assert (a + c)[1..] == a[1..] + c && (b + d)[1..] == b[1..] + d;
      FieldsPrefix(a[1..], b[1..], c, d);
      assert a == b <==> a[0] == b[0] && a[1..] == b[1..];
    }
  }

  lemma FirstField(a: seq<nat>, b: seq<nat>)
    requires |a| == |b| > 0
    ensures FieldsBefore(a, b) <==> a[0] < b[0] || (a[0] == b[0] && FieldsBefore(a[1..], b[1..]))
  {
  }

  lemma ThreeFields(a: Date, b: Date)
    ensures FieldsBefore([a.year, a.month, a.day], [b.year, b.month, b.day]) <==> DateBefore(a, b)
  {
    FirstField([a.day], [b.day]);
    FirstField([a.month, a.day], [b.month, b.day]);
    FirstField([a.year, a.month, a.day], [b.year, b.month, b.day]);
    assert FieldsBefore([], []) == false;
    hide FieldsBefore;
    assert [a.year, a.month, a.day][1..] == [a.month, a.day] && [b.year, b.month, b.day][1..] == [b.month, b.day];
    assert [a.month, a.day][1..] == [a.day] && [b.month, b.day][1..] == [b.day];
    assert [a.day][1..] == [] && [b.day][1..] == [];
  }

  lemma FourFields(a: seq<nat>, b: seq<nat>)
    requires |a| == 4 && |b| == 4
    ensures FieldsBefore(a, b) <==>
      if a[0] != b[0] then a[0] < b[0] else if a[1] != b[1] then a[1] < b[1]
      else if a[2] != b[2] then a[2] < b[2] else a[3] < b[3]
  {
    FirstField(a, b);
    FirstField(a[1..], b[1..]);
    FirstField(a[2..], b[2..]);
    FirstField(a[3..], b[3..]);
    assert !FieldsBefore([], []);
    hide FieldsBefore;
    assert a[1..][1..] == a[2..] && b[1..][1..] == b[2..];
    assert a[2..][1..] == a[3..] && b[2..][1..] == b[3..];
    assert a[3..][1..] == [] && b[3..][1..] == [];
  }

  lemma ClockParts(t: nat)
    ensures var f := ClockFields(t);
            t == f[0] * 3600000 + f[1] * 60000 + f[2] * 1000 + f[3] && f[1] < 60 && f[2] < 60 && f[3] < 1000
  {
  }

  lemma ClockOrder(s: nat, t: nat)
    ensures FieldsBefore(ClockFields(s), ClockFields(t)) <==> s < t
  {
    ClockParts(s);
    ClockParts(t);
    FourFields(ClockFields(s), ClockFields(t));
    hide FieldsBefore;
  }

  /** String order is time order: for all times in the years 0000 to 9999, one timestamp precedes
      another as a string if and only if it denotes an earlier millisecond. */
  lemma StringOrderIsTimeOrder(a: int, b: int)
    requires InRange(a) && InRange(b)
    ensures Precedes(Iso(a), Iso(b)) <==> a < b
  {
    IsoFits(a);
    IsoFits(b);
    WriteOrder(FieldsOf(a), FieldsOf(b), ISO);
    var d, e := DateOf(DayOf(a)), DateOf(DayOf(b));
    FieldsPrefix([d.year, d.month, d.day], [e.year, e.month, e.day],
                 ClockFields(a % MS_PER_DAY), ClockFields(b % MS_PER_DAY));
    ThreeFields(d, e);
    ClockOrder(a % MS_PER_DAY, b % MS_PER_DAY);
    if DayOf(a) < DayOf(b) {
      LaterDayIsLaterDate(DayOf(a), DayOf(b));
    } else if DayOf(b) < DayOf(a) {
      LaterDayIsLaterDate(DayOf(b), DayOf(a));
    }
  }

  /** One field and its mark. */
  function FieldText(v: seq<nat>, i: nat): string
    requires |v| == |ISO| && i < |ISO|
  {
    Padded(v[i], ISO[i].width) + [ISO[i].mark]
  }

  lemma WriteFrom(v: seq<nat>, i: nat)
    requires |v| == |ISO| && i < |ISO|
    ensures Write(v[i..], ISO[i..]) == FieldText(v, i) + Write(v[i + 1..], ISO[i + 1..])
  {
    assert v[i..][1..] == v[i + 1..] && ISO[i..][1..] == ISO[i + 1..];
  }

  lemma WriteFields(v: seq<nat>)
    requires |v| == |ISO|
    ensures Write(v, ISO) == FieldText(v, 0) + (FieldText(v, 1) + (FieldText(v, 2) + (FieldText(v, 3)
                             + (FieldText(v, 4) + (FieldText(v, 5) + (FieldText(v, 6) + ""))))))
  {
    WriteFrom(v, 6);
    WriteFrom(v, 5);
    WriteFrom(v, 4);
    WriteFrom(v, 3);
    WriteFrom(v, 2);
    WriteFrom(v, 1);
    WriteFrom(v, 0);
    assert v[0..] == v && ISO[0..] == ISO && Write(v[7..], ISO[7..]) == "";
    hide FieldText, Write;
  }

  /** Year, month and day with dashes, T, hours, minutes and seconds with colons, a dot, milliseconds, Z. */
  lemma IsoLayout(ms: int)
    requires InRange(ms)
    ensures var d, t := DateOf(DayOf(ms)), ClockFields(ms % MS_PER_DAY);
            Iso(ms) == (Padded(d.year, 4) + "-") + ((Padded(d.month, 2) + "-") + ((Padded(d.day, 2) + "T")
                       + ((Padded(t[0], 2) + ":") + ((Padded(t[1], 2) + ":") + ((Padded(t[2], 2) + ".") + ((Padded(t[3], 3) + "Z") + ""))))))
  {
    WriteFields(FieldsOf(ms));
    hide Write, Padded, DateOf, ClockFields, DayOf;
  }
}
