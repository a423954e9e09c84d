/** Calendar arithmetic of `src/utils/dateUtils.js`: date keys, day comparison, day stepping and
    the month grid the calendar screens draw. A JavaScript `Date` is modelled as a local calendar
    date plus a time of day; time zones and daylight-saving shifts are not modelled. */
module DateUtils {
  import opened Common
  import opened Text

  /** A proleptic Gregorian calendar date; `month` is 0-based, as `Date.prototype.getMonth`. */
  datatype CalDate = CalDate(year: int, month: int, day: int)

  predicate IsLeapYear(y: int) {
    y % 4 == 0 && (y % 100 != 0 || y % 400 == 0)
  }

  function DaysInMonth(y: int, m: int): (n: int)
    requires 0 <= m < 12
    ensures 28 <= n <= 31
    ensures m == 1 ==> (n == 29 <==> IsLeapYear(y))
  {
    if m == 1 then (if IsLeapYear(y) then 29 else 28)
    else if m == 3 || m == 5 || m == 8 || m == 10 then 30
    else 31
  }

  predicate ValidDate(d: CalDate) {
    0 <= d.month < 12 && 1 <= d.day <= DaysInMonth(d.year, d.month)
  }

  /** A calendar date that exists. */
  type Date = d: CalDate | ValidDate(d) witness CalDate(1970, 0, 1)

  /** Milliseconds since local midnight. */
  type TimeOfDay = t: int | 0 <= t < 86400000

  /** What a JavaScript `Date` denotes here: a local calendar date and a time on it. */
  datatype Moment = Moment(date: Date, millis: TimeOfDay)

  // ---------------------------------------------------------------- day numbers

  /** Days from the start of year 0 to the start of year `y`, counting every leap day between. */
  function YearStart(y: int): int {
    365 * y + (y + 3) / 4 - (y + 99) / 100 + (y + 399) / 400
  }

  lemma {:induction false} YearLength(y: int)
    ensures YearStart(y + 1) - YearStart(y) == if IsLeapYear(y) then 366 else 365
  {
    assert (y + 4) / 4 - (y + 3) / 4 == if y % 4 == 0 then 1 else 0;
    assert (y + 100) / 100 - (y + 99) / 100 == if y % 100 == 0 then 1 else 0;
    assert (y + 400) / 400 - (y + 399) / 400 == if y % 400 == 0 then 1 else 0;
  }

  /** Days of year `y` before the first of month `m`. */
  function DaysBeforeMonth(y: int, m: int): int
    requires 0 <= m < 12
  {
    var leap := if IsLeapYear(y) then 1 else 0;
    if m == 0 then 0 else if m == 1 then 31 else if m == 2 then 59 + leap
    else if m == 3 then 90 + leap else if m == 4 then 120 + leap else if m == 5 then 151 + leap
    else if m == 6 then 181 + leap else if m == 7 then 212 + leap else if m == 8 then 243 + leap
    else if m == 9 then 273 + leap else if m == 10 then 304 + leap else 334 + leap
  }

  /** Days since 1970-01-01, negative before it. */
  function DayNumber(d: Date): int {
    YearStart(d.year) - YearStart(1970) + DaysBeforeMonth(d.year, d.month) + d.day - 1
  }

  /** `Date.prototype.getDay`: 0 for Sunday; 1970-01-01 was a Thursday. */
  function Weekday(d: Date): (w: int)
    ensures 0 <= w < 7
  {
    (DayNumber(d) + 4) % 7
  }

  // ---------------------------------------------------------------- stepping by days

  /** The calendar day after `d`. */
  function NextDate(d: Date): (r: Date)
    ensures DayNumber(r) == DayNumber(d) + 1
  {
    YearLength(d.year);
    if d.day < DaysInMonth(d.year, d.month) then CalDate(d.year, d.month, d.day + 1)
    else if d.month < 11 then CalDate(d.year, d.month + 1, 1)
    else CalDate(d.year + 1, 0, 1)
  }

  /** The calendar day before `d`. */
  function PrevDate(d: Date): (r: Date)
    ensures DayNumber(r) == DayNumber(d) - 1
  {
    YearLength(d.year - 1);
    if d.day > 1 then CalDate(d.year, d.month, d.day - 1)
    else if d.month > 0 then CalDate(d.year, d.month - 1, DaysInMonth(d.year, d.month - 1))
    else CalDate(d.year - 1, 11, 31)
  }

  /** Stepping forward then back, or back then forward, returns to the same day. */
  lemma PrevNextInverse(d: Date)
    ensures PrevDate(NextDate(d)) == d
    ensures NextDate(PrevDate(d)) == d
  {
  }

  /** `d` moved by `n` days, one day at a time, as `setDate(getDate() + n)` normalises it. */
  function ShiftDate(d: Date, n: int): (r: Date)
    decreases if n < 0 then -n else n
  {
    if n == 0 then d
    else if n > 0 then ShiftDate(NextDate(d), n - 1)
    else ShiftDate(PrevDate(d), n + 1)
  }

  /** Shifting by `n` days moves the day number by exactly `n`. */
  lemma {:induction false} ShiftDayNumber(d: Date, n: int)
    ensures DayNumber(ShiftDate(d, n)) == DayNumber(d) + n
    decreases if n < 0 then -n else n
  {
    if n > 0 {
      ShiftDayNumber(NextDate(d), n - 1);
    } else if n < 0 {
      ShiftDayNumber(PrevDate(d), n + 1);
    }
  }

  lemma {:induction false} ShiftFromNext(d: Date, n: int)
    ensures ShiftDate(NextDate(d), n - 1) == ShiftDate(d, n)
  {
    if n <= 0 {
      PrevNextInverse(d);
      assert ShiftDate(NextDate(d), n - 1) == ShiftDate(PrevDate(NextDate(d)), n);
    }
  }

  lemma {:induction false} ShiftFromPrev(d: Date, n: int)
    ensures ShiftDate(PrevDate(d), n + 1) == ShiftDate(d, n)
  {
    if n >= 0 {
      PrevNextInverse(d);
      assert ShiftDate(PrevDate(d), n + 1) == ShiftDate(NextDate(PrevDate(d)), n);
    }
  }

  /** Two shifts compose into one: `addDays(addDays(d, a), b)` is `addDays(d, a + b)`. */
  lemma {:induction false} ShiftCompose(d: Date, a: int, b: int)
    ensures ShiftDate(ShiftDate(d, a), b) == ShiftDate(d, a + b)
    decreases if a < 0 then -a else a
  {
    if a > 0 {
      ShiftCompose(NextDate(d), a - 1, b);
      ShiftFromNext(d, a + b);
    } else if a < 0 {
      ShiftCompose(PrevDate(d), a + 1, b);
      ShiftFromPrev(d, a + b);
    }
  }

  /** `getNextDay`: the same time of day on the next calendar day. */
  function NextDay(m: Moment): (r: Moment)
    ensures r.millis == m.millis && DayNumber(r.date) == DayNumber(m.date) + 1
  {
    Moment(NextDate(m.date), m.millis)
  }

  /** `getPreviousDay`: the same time of day on the previous calendar day. */
  function PreviousDay(m: Moment): (r: Moment)
    ensures r.millis == m.millis && DayNumber(r.date) == DayNumber(m.date) - 1
  {
    Moment(PrevDate(m.date), m.millis)
  }

  /** `addDays`: the same time of day `n` calendar days later (earlier when `n` is negative). */
  function AddDays(m: Moment, n: int): (r: Moment)
    ensures r.millis == m.millis && DayNumber(r.date) == DayNumber(m.date) + n
  {
    ShiftDayNumber(m.date, n);
    Moment(ShiftDate(m.date, n), m.millis)
  }

  /** `addDays` by one or minus one is `getNextDay` or `getPreviousDay`, and going forward
      then back gives the same moment. */
  lemma {:induction false} DayStepping(m: Moment)
    ensures AddDays(m, 1) == NextDay(m)
    ensures AddDays(m, -1) == PreviousDay(m)
    ensures PreviousDay(NextDay(m)) == m && NextDay(PreviousDay(m)) == m
  {
    assert ShiftDate(m.date, 1) == ShiftDate(NextDate(m.date), 0);
    assert ShiftDate(m.date, -1) == ShiftDate(PrevDate(m.date), 0);
    PrevNextInverse(m.date);
  }

  /** Adding days twice adds the sum. */
  lemma AddDaysCompose(m: Moment, a: int, b: int)
    ensures AddDays(AddDays(m, a), b) == AddDays(m, a + b)
  {
    ShiftCompose(m.date, a, b);
  }

  // ---------------------------------------------------------------- comparison and keys

  /** `isSameDay`: same year, month and day of month; the time of day is ignored. */
  predicate IsSameDay(a: Moment, b: Moment) {
    a.date.year == b.date.year && a.date.month == b.date.month && a.date.day == b.date.day
  }

  lemma IsSameDayEquivalence(a: Moment, b: Moment, c: Moment)
    ensures IsSameDay(a, a)
    ensures IsSameDay(a, b) ==> IsSameDay(b, a)
    ensures IsSameDay(a, b) && IsSameDay(b, c) ==> IsSameDay(a, c)
    ensures IsSameDay(a, b) <==> a.date == b.date
  {
  }

  function TwoDigits(n: nat): string {
    PadStart(NatToString(n), 2, '0')
  }

  /** `formatDateKey`: `YYYY-MM-DD` from the local year, the 1-based month and the day. */
  function FormatDateKey(m: Moment): string {
    IntToString(m.date.year) + "-" + TwoDigits(m.date.month + 1) + "-" + TwoDigits(m.date.day)
  }

  /** A four-digit year gives the ten-character key with dashes at positions 4 and 7. */
  lemma {:induction false} DateKeyShape(m: Moment)
    requires 1000 <= m.date.year <= 9999
    ensures var key := FormatDateKey(m);
            |key| == 10 && key[4] == '-' && key[7] == '-'
            && AllDigits(key[..4]) && AllDigits(key[5..7]) && AllDigits(key[8..])
  {
    NatToStringLength(m.date.year);
    TwoDigitPad(m.date.month + 1);
    TwoDigitPad(m.date.day);
    var y := IntToString(m.date.year);
    var mm := TwoDigits(m.date.month + 1);
    var dd := TwoDigits(m.date.day);
    assert |y| == 4 && AllDigits(y);
    KeyLayout(y, mm, dd);
  }

  lemma {:induction false} KeyLayout(y: string, mm: string, dd: string)
    requires |y| == 4 && |mm| == 2 && |dd| == 2
    ensures var key := y + "-" + mm + "-" + dd;
            |key| == 10 && key[4] == '-' && key[7] == '-' && key[..4] == y && key[5..7] == mm && key[8..] == dd
  {
  }

  /** Two moments share a date key exactly when they fall on the same day, so the key can stand
      for the day in the task map. */
  lemma DateKeySameDay(a: Moment, b: Moment)
    ensures FormatDateKey(a) == FormatDateKey(b) <==> IsSameDay(a, b)
  {
    if FormatDateKey(a) == FormatDateKey(b) {
      var ka, kb := FormatDateKey(a), FormatDateKey(b);
      var n := |ka|;
      TwoDigitPad(a.date.month + 1);
      TwoDigitPad(a.date.day);
      TwoDigitPad(b.date.month + 1);
      TwoDigitPad(b.date.day);
      KeyParts(a);
      KeyParts(b);
      assert ka[n - 2..] == kb[n - 2..];
      assert ka[n - 5..n - 3] == kb[n - 5..n - 3];
      assert ka[..n - 6] == kb[..n - 6];
      IntToStringInjective(a.date.year, b.date.year);
    }
  }

  lemma {:induction false} KeyParts(m: Moment)
    ensures var key := FormatDateKey(m);
            var n := |key|;
            n >= 7 && key[n - 2..] == TwoDigits(m.date.day)
            && key[n - 5..n - 3] == TwoDigits(m.date.month + 1)
            && key[..n - 6] == IntToString(m.date.year)
  {
    var key := FormatDateKey(m);
    var y := IntToString(m.date.year);
    TwoDigitPad(m.date.month + 1);
    TwoDigitPad(m.date.day);
    KeySlices(y, TwoDigits(m.date.month + 1), TwoDigits(m.date.day));
  }

  /** Where the three fields sit in `y-mm-dd` when both padded fields have two characters. */
  lemma KeySlices(y: string, mm: string, dd: string)
    requires |y| >= 1 && |mm| == 2 && |dd| == 2
    ensures var key := y + "-" + mm + "-" + dd;
            var n := |key|;
            n >= 7 && key[n - 2..] == dd && key[n - 5..n - 3] == mm && key[..n - 6] == y
  {
    var key := y + "-" + mm + "-" + dd;
    var n := |key|;
    assert key[n - 2..] == dd;
    assert key[n - 5..n - 3] == mm;
    assert key[..n - 6] == y;
  }

  // ---------------------------------------------------------------- the month grid

  /** `new Date(year, month, 1)`: JavaScript normalises a month outside 0..11 into the
      neighbouring years. */
  function FirstOfMonth(year: int, month: int): (d: Date)
    ensures d.day == 1 && 0 <= d.month < 12
  {
    CalDate(year + month / 12, month % 12, 1)
  }

  /** What `getCalendarGrid` reads off the month: its first day, the weekday of that day, the
      month's length, the last day of the month before and the first day of the month after. */
  datatype Layout = Layout(first: Date, start: int, length: int, prev: Date, next: Date)

  /** The bounds every layout satisfies, enough to build its cells. */
  predicate Shape(l: Layout) {
    0 <= l.start < 7 && l.length == DaysInMonth(l.first.year, l.first.month)
    && l.prev.day >= 28 && l.next.day == 1
  }

  /** A layout whose dates are the month's neighbours in the calendar. */
  predicate WellFormed(l: Layout) {
    Shape(l) && l.first.day == 1 && l.prev == PrevDate(l.first)
    && l.next == NextDate(CalDate(l.first.year, l.first.month, l.length))
  }

  /** Day 0 of the next month is the last day of this one, as `new Date(year, month + 1, 0)`. */
  lemma {:induction false} NextMonthFirst(year: int, month: int)
    ensures var f := FirstOfMonth(year, month);
            FirstOfMonth(year, month + 1) == NextDate(CalDate(f.year, f.month, DaysInMonth(f.year, f.month)))
  {
    if month % 12 == 11 {
      assert (month + 1) % 12 == 0 && (month + 1) / 12 == month / 12 + 1;
    } else {
      assert (month + 1) % 12 == month % 12 + 1 && (month + 1) / 12 == month / 12;
    }
  }

  function LayoutOf(year: int, month: int): (l: Layout)
    ensures WellFormed(l) && l.start == Weekday(l.first)
  {
    var first := FirstOfMonth(year, month);
    NextMonthFirst(year, month);
    Layout(first, Weekday(first), DaysInMonth(first.year, first.month), PrevDate(first), FirstOfMonth(year, month + 1))
  }

  /** One square of the grid; `date` is local midnight. */
  datatype Cell = Cell(date: Moment, isCurrentMonth: bool, day: int)

  function Midnight(d: Date): Moment { Moment(d, 0) }

  /** The cell at flat position `i` (row-major, seven to a row). */
  function CellAt(l: Layout, i: int): (c: Cell)
    requires Shape(l) && 0 <= i < 42
  {
    if i < l.start then
      var d := l.prev.day - l.start + 1 + i;
      Cell(Midnight(CalDate(l.prev.year, l.prev.month, d)), false, d)
    else if i < l.start + l.length then
      var d := i - l.start + 1;
      Cell(Midnight(CalDate(l.first.year, l.first.month, d)), true, d)
    else
      var d := i - l.start - l.length + 1;
      Cell(Midnight(CalDate(l.next.year, l.next.month, d)), false, d)
  }

  /** Five weeks when the month fits in 35 squares, else six. */
  function WeekCount(l: Layout): (n: int)
    ensures n == 5 || n == 6
  {
    if l.start + l.length <= 35 then 5 else 6
  }

  /** `getCalendarGrid(year, month)`: weeks of seven cells, the previous month's tail first,
      then every day of the month, then the next month's days numbered on from 1, padded to at
      least five weeks. */
  method GetCalendarGrid(year: int, month: int) returns (grid: seq<seq<Cell>>)
    ensures var l := LayoutOf(year, month);
            |grid| == WeekCount(l)
            && (forall w :: 0 <= w < |grid| ==> |grid[w]| == 7)
            && (forall w, c :: 0 <= w < |grid| && 0 <= c < 7 ==> grid[w][c] == CellAt(l, 7 * w + c))
  {
    var firstDay := FirstOfMonth(year, month);
    var daysInMonth := DaysInMonth(firstDay.year, firstDay.month);
    var startDayOfWeek := Weekday(firstDay);
    grid := [];
    var currentWeek: seq<Cell>;
    var prevMonth := PrevDate(firstDay);
    var daysInPrevMonth := prevMonth.day;
    ghost var l := LayoutOf(year, month);
    assert l.first == firstDay && l.prev == prevMonth && l.start == startDayOfWeek && l.length == daysInMonth;

    currentWeek := PrevMonthDays(l, prevMonth, daysInPrevMonth, startDayOfWeek);

    var day := 1;
    while day <= daysInMonth
      invariant 1 <= day <= daysInMonth + 1
      invariant |currentWeek| <= 7 && (day > 1 ==> |currentWeek| >= 1)
      invariant 7 * |grid| + |currentWeek| == startDayOfWeek + day - 1
      invariant forall w :: 0 <= w < |grid| ==> |grid[w]| == 7
      invariant forall w, c :: 0 <= w < |grid| && 0 <= c < 7 ==> grid[w][c] == CellAt(l, 7 * w + c)
      invariant forall c :: 0 <= c < |currentWeek| ==> currentWeek[c] == CellAt(l, 7 * |grid| + c)
    {
      grid, currentWeek := PushCell(l, grid, currentWeek, Cell(Midnight(CalDate(firstDay.year, firstDay.month, day)), true, day));
      day := day + 1;
    }

    var nextMonth := FirstOfMonth(year, month + 1);
    grid := AddNextMonthDays(l, grid, currentWeek, nextMonth);
  }

  /** One step of the month loop of `getCalendarGrid`: a full week is closed first, then `cell`,
      the next square in row order, is added. */
  method PushCell(ghost l: Layout, grid0: seq<seq<Cell>>, week0: seq<Cell>, cell: Cell)
    returns (grid: seq<seq<Cell>>, week: seq<Cell>)
    requires Shape(l) && |week0| <= 7 && 7 * |grid0| + |week0| < 42
    requires forall w :: 0 <= w < |grid0| ==> |grid0[w]| == 7
    requires forall w, c :: 0 <= w < |grid0| && 0 <= c < 7 ==> grid0[w][c] == CellAt(l, 7 * w + c)
    requires forall c :: 0 <= c < |week0| ==> week0[c] == CellAt(l, 7 * |grid0| + c)
    requires cell == CellAt(l, 7 * |grid0| + |week0|)
    ensures 1 <= |week| <= 7 && 7 * |grid| + |week| == 7 * |grid0| + |week0| + 1
    ensures forall w :: 0 <= w < |grid| ==> |grid[w]| == 7
    ensures forall w, c :: 0 <= w < |grid| && 0 <= c < 7 ==> grid[w][c] == CellAt(l, 7 * w + c)
    ensures forall c :: 0 <= c < |week| ==> week[c] == CellAt(l, 7 * |grid| + c)
  {
    grid, week := grid0, week0;
    if |week| == 7 {
      grid := grid + [week];
      week := [];
    }
    week := week + [cell];
  }

  /** The head of `getCalendarGrid`: the previous month's last `startDayOfWeek` days, ascending. */
  method PrevMonthDays(ghost l: Layout, prevMonth: Date, daysInPrevMonth: int, startDayOfWeek: int)
    returns (currentWeek: seq<Cell>)
    requires Shape(l) && prevMonth == l.prev && daysInPrevMonth == l.prev.day && startDayOfWeek == l.start
    ensures |currentWeek| == startDayOfWeek
    ensures forall c :: 0 <= c < |currentWeek| ==> currentWeek[c] == CellAt(l, c)
  {
    currentWeek := [];
    var i := startDayOfWeek - 1;
    while i >= 0
      invariant -1 <= i < startDayOfWeek
      invariant |currentWeek| == startDayOfWeek - 1 - i
      invariant forall c :: 0 <= c < |currentWeek| ==> currentWeek[c] == CellAt(l, c)
    {
      var d := daysInPrevMonth - i;
      currentWeek := currentWeek + [Cell(Midnight(CalDate(prevMonth.year, prevMonth.month, d)), false, d)];
      i := i - 1;
    }
  }

  /** The tail of `getCalendarGrid`: completes the last week with the next month's days, numbered
      from 1, then adds whole weeks of them until there are five. */
  method AddNextMonthDays(ghost l: Layout, grid0: seq<seq<Cell>>, week0: seq<Cell>, nextMonth: Date)
    returns (grid: seq<seq<Cell>>)
    requires Shape(l) && nextMonth == l.next
    requires 1 <= |week0| <= 7 && 7 * |grid0| + |week0| == l.start + l.length
    requires forall w :: 0 <= w < |grid0| ==> |grid0[w]| == 7
    requires forall w, c :: 0 <= w < |grid0| && 0 <= c < 7 ==> grid0[w][c] == CellAt(l, 7 * w + c)
    requires forall c :: 0 <= c < |week0| ==> week0[c] == CellAt(l, 7 * |grid0| + c)
    ensures |grid| == WeekCount(l)
    ensures forall w :: 0 <= w < |grid| ==> |grid[w]| == 7
    ensures forall w, c :: 0 <= w < |grid| && 0 <= c < 7 ==> grid[w][c] == CellAt(l, 7 * w + c)
  {
    grid := grid0;
    var currentWeek := week0;
    var nextMonthDay := 1;
    while |currentWeek| < 7
      invariant 1 <= |currentWeek| <= 7
      invariant 7 * |grid| + |currentWeek| == l.start + l.length + nextMonthDay - 1
      invariant forall c :: 0 <= c < |currentWeek| ==> currentWeek[c] == CellAt(l, 7 * |grid| + c)
    {
      currentWeek := currentWeek + [Cell(Midnight(CalDate(nextMonth.year, nextMonth.month, nextMonthDay)), false, nextMonthDay)];
      nextMonthDay := nextMonthDay + 1;
    }
    grid := grid + [currentWeek];

    while |grid| < 5
      invariant 1 <= |grid| <= 6
      invariant 7 * |grid| == l.start + l.length + nextMonthDay - 1
      invariant |grid| <= 5 || nextMonthDay <= 7
      invariant forall w :: 0 <= w < |grid| ==> |grid[w]| == 7
      invariant forall w, c :: 0 <= w < |grid| && 0 <= c < 7 ==> grid[w][c] == CellAt(l, 7 * w + c)
    {
      var nextWeek: seq<Cell> := [];
      var k := 0;
      while k < 7
        invariant 0 <= k <= 7 && |nextWeek| == k
        invariant 7 * |grid| + k == l.start + l.length + nextMonthDay - 1
        invariant forall c :: 0 <= c < k ==> nextWeek[c] == CellAt(l, 7 * |grid| + c)
      {
        nextWeek := nextWeek + [Cell(Midnight(CalDate(nextMonth.year, nextMonth.month, nextMonthDay)), false, nextMonthDay)];
        nextMonthDay := nextMonthDay + 1;
        k := k + 1;
      }
      grid := grid + [nextWeek];
    }
  }

  /** Reading the grid in row order walks the calendar one day at a time. */
  lemma {:induction false} CellsConsecutive(l: Layout, i: int)
    requires WellFormed(l) && 0 <= i < 41
    ensures NextDate(CellAt(l, i).date.date) == CellAt(l, i + 1).date.date
  {
    PrevNextInverse(l.first);
    if i + 1 == l.start {
      assert CellAt(l, i).date.date == l.prev;
    }
  }

  /** The column of every cell is its weekday, Sunday first. */
  lemma {:induction false} CellWeekday(l: Layout, i: int)
    requires WellFormed(l) && l.start == Weekday(l.first) && 0 <= i < 42
    ensures Weekday(CellAt(l, i).date.date) == i % 7
  {
    CellDayNumber(l, i);
    var x := DayNumber(l.first) + 4;
    var q := x / 7;
    assert x == 7 * q + l.start;
    var n := DayNumber(CellAt(l, i).date.date) + 4;
    assert n == 7 * q + i;
    ModMultiple(q, i);
  }

  lemma ModMultiple(q: int, i: int)
    requires 0 <= i < 42
    ensures (7 * q + i) % 7 == i % 7
  {
  }

  lemma {:induction false} CellDayNumber(l: Layout, i: int)
    requires WellFormed(l) && 0 <= i < 42
    ensures DayNumber(CellAt(l, i).date.date) == DayNumber(l.first) + i - l.start
    decreases if i < l.start then l.start - i else i - l.start
  {
    if i > l.start {
      CellDayNumber(l, i - 1);
      CellsConsecutive(l, i - 1);
    } else if i < l.start {
      CellDayNumber(l, i + 1);
      CellsConsecutive(l, i);
    }
  }

  /** The squares marked as the current month are exactly days 1..length, in order, from
      flat position `start`; the squares before are the previous month's last `start` days and
      the squares after are numbered 1, 2, 3, ... on into the padding weeks. */
  lemma CellRegions(l: Layout, i: int)
    requires Shape(l) && 0 <= i < 7 * WeekCount(l)
    ensures CellAt(l, i).isCurrentMonth <==> l.start <= i < l.start + l.length
    ensures i < l.start ==> CellAt(l, i).day == l.prev.day - l.start + 1 + i
    ensures l.start <= i < l.start + l.length ==> CellAt(l, i).day == i - l.start + 1
    ensures l.start + l.length <= i ==> CellAt(l, i).day == i - l.start - l.length + 1
  {
  }

  /** Every day of the month appears in the grid, and the grid has no all-padding week beyond
      the fifth. */
  lemma GridCoversMonth(l: Layout)
    requires Shape(l)
    ensures l.start + l.length <= 7 * WeekCount(l)
    ensures WeekCount(l) == 6 ==> l.start + l.length > 35
  {
    assert l.length <= 31;
  }

  /** `getWeekdayNames(short)`: seven names from Sunday, three-letter forms by default. */
  function GetWeekdayNames(short: bool): (names: seq<string>)
    ensures |names| == 7
    ensures names[0] == (if short then "Sun" else "Sunday")
  {
    if short then ["Sun", "Mon", "Tue", "Wed", "Thu", "Fri", "Sat"]
    else ["Sunday", "Monday", "Tuesday", "Wednesday", "Thursday", "Friday", "Saturday"]
  }

  /** Each short name is the first three letters of the matching long name. */
  lemma ShortNamesArePrefixes(i: int)
    requires 0 <= i < 7
    ensures GetWeekdayNames(true)[i] == GetWeekdayNames(false)[i][..3]
  {
  }
}
