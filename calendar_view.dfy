/** The month calendar of one project, `src/components/CalendarView.jsx`: the status counts, the
    tasks of a day, what a day cell shows, the month navigation and the day route a click
    opens. */
module CalendarView {
  import opened Common
  import opened Text
  import opened DateUtils
  import opened AppState
  import Header

  // ---------------------------------------------------------------- status counts

  const Ongoing := "ongoing"
  const Done := "done"

  function HasStatus(status: string): Task -> bool { (t: Task) => t.status == status }

  /** Tasks with `status` over every date of the project, in bucket order. */
  function StatusTotal(b: DateBuckets, status: string): nat {
    if b == [] then 0 else StatusTotal(b[..|b| - 1], status) + CountWhere(b[|b| - 1].tasks, HasStatus(status))
  }

  /** All tasks over every date of the project. */
  function TaskTotal(b: DateBuckets): nat {
    if b == [] then 0 else TaskTotal(b[..|b| - 1]) + |b[|b| - 1].tasks|
  }

  /** `stats`: the ongoing and done tasks of the project, counted over all its dates. */
  method Stats(projectTasks: DateBuckets) returns (ongoing: nat, done: nat)
    ensures ongoing == StatusTotal(projectTasks, Ongoing) && done == StatusTotal(projectTasks, Done)
  {
    ongoing, done := 0, 0;
    var i := 0;
    while i < |projectTasks|
      invariant 0 <= i <= |projectTasks|
      invariant ongoing == StatusTotal(projectTasks[..i], Ongoing) && done == StatusTotal(projectTasks[..i], Done)
    {
      ongoing, done := CountDay(projectTasks[i].tasks, ongoing, done);
      assert projectTasks[..i + 1][..i] == projectTasks[..i];
      i := i + 1;
    }
    assert projectTasks[..i] == projectTasks;
  }

  /** The inner `forEach` of `stats`: one date's tasks added to the running counts. */
  method CountDay(dateTasks: seq<Task>, ongoing0: nat, done0: nat) returns (ongoing: nat, done: nat)
    ensures ongoing == ongoing0 + CountWhere(dateTasks, HasStatus(Ongoing))
    ensures done == done0 + CountWhere(dateTasks, HasStatus(Done))
  {
    ongoing, done := ongoing0, done0;
    var j := 0;
    while j < |dateTasks|
      invariant 0 <= j <= |dateTasks|
      invariant ongoing == ongoing0 + CountWhere(dateTasks[..j], HasStatus(Ongoing))
      invariant done == done0 + CountWhere(dateTasks[..j], HasStatus(Done))
    {
      assert dateTasks[..j + 1] == dateTasks[..j] + [dateTasks[j]];
      CountSnoc(dateTasks[..j], dateTasks[j], HasStatus(Ongoing));
      CountSnoc(dateTasks[..j], dateTasks[j], HasStatus(Done));
      ongoing, done := CountTask(dateTasks[j], ongoing, done);
      j := j + 1;
    }
    assert dateTasks[..j] == dateTasks;
  }

  /** The body of the inner `forEach`: each of the two statuses bumps its own count. */
  method CountTask(task: Task, ongoing0: nat, done0: nat) returns (ongoing: nat, done: nat)
    ensures ongoing == ongoing0 + (if HasStatus(Ongoing)(task) then 1 else 0)
    ensures done == done0 + (if HasStatus(Done)(task) then 1 else 0)
  {
    ongoing, done := ongoing0, done0;
    if task.status == Ongoing {
      ongoing := ongoing + 1;
    }
    if task.status == Done {
      done := done + 1;
    }
  }

  lemma {:induction false} CountSnoc<T>(s: seq<T>, x: T, p: T -> bool)
    ensures CountWhere(s + [x], p) == CountWhere(s, p) + (if p(x) then 1 else 0)
  {
    CountWhereConcat(s, [x], p);
    assert [x][1..] == [];
  }

  /** A task is never both ongoing and done, and other statuses count as neither, so the two
      counts never exceed the number of tasks. */
  lemma {:induction false} StatsWithinTotal(b: DateBuckets)
    ensures StatusTotal(b, Ongoing) + StatusTotal(b, Done) <= TaskTotal(b)
  {
    if b != [] {
      StatsWithinTotal(b[..|b| - 1]);
      CountDisjoint(b[|b| - 1].tasks, HasStatus(Ongoing), HasStatus(Done));
    }
  }

  /** A project with no tasks, or one missing from the map, counts zero of each. */
  lemma {:induction false} NoTasksNoStats(tasks: map<string, DateBuckets>, projectId: string)
    requires projectId !in tasks
    ensures StatusTotal(ProjectBuckets(tasks, projectId), Ongoing) == 0
    ensures StatusTotal(ProjectBuckets(tasks, projectId), Done) == 0
  {
  }

  // ---------------------------------------------------------------- one day

  /** `getTasksForDay(date)`: the project's list under the date's key, or `[]`. */
  function GetTasksForDay(projectTasks: DateBuckets, date: Moment): (r: seq<Task>)
    ensures FormatDateKey(date) !in Keys(projectTasks) ==> r == []
    ensures FormatDateKey(date) in Keys(projectTasks) ==> Some(r) == Lookup(projectTasks, FormatDateKey(date))
  {
    Lookup(projectTasks, FormatDateKey(date)).GetOr([])
  }

  /** The calendar reads the same list as the context's `getTasksForDate`. */
  lemma {:induction false} DayMatchesContext(s: State, projectId: string, date: Moment)
    ensures GetTasksForDay(ProjectBuckets(s.tasks, projectId), date) == GetTasksForDate(s, projectId, date)
  {
  }

  const MaxDots := 5

  /** One status dot per task, for the first five tasks. */
  function Dots(ts: seq<Task>): (r: seq<string>)
    ensures |r| == Min(MaxDots, |ts|)
    ensures forall i :: 0 <= i < |r| ==> r[i] == ts[i].status
  {
    seq(Min(MaxDots, |ts|), i requires 0 <= i < Min(MaxDots, |ts|) => ts[i].status)
  }

  /** `+N` for the tasks beyond the fifth. */
  function ExtraDots(count: nat): (r: Option<string>)
    ensures r.Some? <==> count > MaxDots
  {
    if count > MaxDots then Some("+" + NatToString(count - MaxDots)) else None
  }

  /** What a day square shows. */
  datatype CellView = CellView(day: int, otherMonth: bool, showAdd: bool, dots: seq<string>, extra: Option<string>)

  function ViewOf(cell: Cell, ts: seq<Task>): CellView {
    CellView(cell.day, !cell.isCurrentMonth, cell.isCurrentMonth, Dots(ts), ExtraDots(|ts|))
  }

  /** The dots and the `+N` label account for every task of the day. */
  lemma {:induction false} DotsAccountForAll(cell: Cell, ts: seq<Task>)
    ensures var v := ViewOf(cell, ts);
            |v.dots| + (if v.extra.Some? then |ts| - MaxDots else 0) == |ts|
    ensures ViewOf(cell, ts).extra.Some? ==> ViewOf(cell, ts).extra.value == "+" + NatToString(|ts| - |Dots(ts)|)
  {
  }

  predicate InMonth(d: Date, first: Date) { d.year == first.year && d.month == first.month }

  /** The add button is on exactly the squares whose date lies in the month shown. */
  lemma {:induction false} AddButtonOnlyInMonth(year: int, month: int, i: int, ts: seq<Task>)
    requires 0 <= i < 7 * WeekCount(LayoutOf(year, month))
    ensures var l := LayoutOf(year, month);
            var cell := CellAt(l, i);
            ViewOf(cell, ts).showAdd <==> InMonth(cell.date.date, l.first)
  {
    var l := LayoutOf(year, month);
    CellRegions(l, i);
  }

  // ---------------------------------------------------------------- navigation

  /** The month on screen: `currentDate` and its handlers. */
  class CalendarNav {
    var currentDate: Moment

    constructor (now: Moment)
      ensures currentDate == now
    {
      currentDate := now;
    }

    /** `handlePrevMonth`: the 1st of the month before. */
    method HandlePrevMonth()
      modifies this
      ensures currentDate == Midnight(FirstOfMonth(old(currentDate).date.year, old(currentDate).date.month - 1))
    {
      currentDate := Midnight(FirstOfMonth(currentDate.date.year, currentDate.date.month - 1));
    }

    /** `handleNextMonth`: the 1st of the month after. */
    method HandleNextMonth()
      modifies this
      ensures currentDate == Midnight(FirstOfMonth(old(currentDate).date.year, old(currentDate).date.month + 1))
    {
      currentDate := Midnight(FirstOfMonth(currentDate.date.year, currentDate.date.month + 1));
    }

    /** `handleToday`, with the clock reading passed in. */
    method HandleToday(now: Moment)
      modifies this
      ensures currentDate == now
    {
      currentDate := now;
    }
  }

  /** Stepping a month forward rolls December over into January of the next year, stepping
      back rolls January into December of the year before, and the two steps undo each other. */
  lemma {:induction false} MonthSteps(d: Date)
    ensures var next := FirstOfMonth(d.year, d.month + 1);
            next == (if d.month == 11 then CalDate(d.year + 1, 0, 1) else CalDate(d.year, d.month + 1, 1))
    ensures var prev := FirstOfMonth(d.year, d.month - 1);
            prev == (if d.month == 0 then CalDate(d.year - 1, 11, 1) else CalDate(d.year, d.month - 1, 1))
    ensures var next := FirstOfMonth(d.year, d.month + 1);
            FirstOfMonth(next.year, next.month - 1) == CalDate(d.year, d.month, 1)
  {
    if d.month == 11 {
      assert (d.month + 1) / 12 == 1 && (d.month + 1) % 12 == 0;
    } else {
      assert (d.month + 1) / 12 == 0 && (d.month + 1) % 12 == d.month + 1;
    }
    if d.month == 0 {
      assert (d.month - 1) / 12 == -1 && (d.month - 1) % 12 == 11;
    } else {
      assert (d.month - 1) / 12 == 0 && (d.month - 1) % 12 == d.month - 1;
    }
    var next := FirstOfMonth(d.year, d.month + 1);
    if next.month == 0 {
      assert (next.month - 1) / 12 == -1 && (next.month - 1) % 12 == 11;
    } else {
      assert (next.month - 1) / 12 == 0 && (next.month - 1) % 12 == next.month - 1;
    }
  }

  // ---------------------------------------------------------------- the route's project

  /** The effect that keeps the route's project selected: with a (non-empty) `projectId` in the
      route that is not the selected project, it dispatches `selectProject(projectId)`. */
  function EnsureSelected(routeId: Option<string>, selected: Option<string>): (a: Option<Action>)
    ensures a.Some? <==> routeId.Some? && routeId.value != "" && selected != routeId
    ensures a.Some? ==> a.value == SelectProject(routeId)
  {
    if routeId.Some? && routeId.value != "" && selected != routeId then Some(SelectProject(routeId)) else None
  }

  /** Once its action is reduced, the effect re-runs with the route's project selected and
      dispatches nothing more; the selected task is cleared along the way. */
  lemma {:induction false} EnsureSelectedSettles(s: State, routeId: Option<string>, freshId: string, now: string)
    requires EnsureSelected(routeId, s.selectedProject).Some?
    ensures var r := Reduce(s, EnsureSelected(routeId, s.selectedProject).value, freshId, now);
            r.selectedProject == routeId && r.selectedTask.None?
            && EnsureSelected(routeId, r.selectedProject).None?
            && r.(selectedProject := s.selectedProject, selectedTask := s.selectedTask) == s
  {
  }

  // ---------------------------------------------------------------- opening a day

  /** An unknown project id renders the not-found state instead of the calendar. */
  function ProjectView(projects: seq<Project>, projectId: string): (r: Option<Project>)
    ensures r.None? <==> forall p :: p in projects ==> p.id != projectId
    ensures r.Some? ==> r.value in projects && r.value.id == projectId
  {
    FindProject(projects, projectId)
  }

  /** `handleDayClick(date)`: select the date, then open the day's route. */
  function DayClick(projectId: string, date: Moment): (Action, string) {
    (SetSelectedDate(date), Header.ProjectPrefix + DayTail(projectId, FormatDateKey(date)))
  }

  /** What follows `/project/` in a day route. */
  function DayTail(projectId: string, key: string): string {
    projectId + "/day/" + key
  }

  /** A date key is digits and dashes, so it holds no `/`. */
  lemma {:induction false} DateKeyNoSlash(m: Moment)
    ensures '/' !in FormatDateKey(m)
  {
    PaddedNoSlash(NatToString(m.date.month + 1));
    PaddedNoSlash(NatToString(m.date.day));
    YearNoSlash(m.date.year);
    JoinNoSlash(IntToString(m.date.year), TwoDigits(m.date.month + 1), TwoDigits(m.date.day), '-');
  }

  lemma {:induction false} JoinNoSlash(y: string, mm: string, dd: string, dash: char)
    requires '/' !in y && '/' !in mm && '/' !in dd && dash != '/'
    ensures '/' !in y + [dash] + mm + [dash] + dd
  {
  }

  lemma {:induction false} YearNoSlash(year: int)
    ensures '/' !in IntToString(year)
  {
    var digits := NatToString(if year < 0 then -year else year);
    assert forall k :: 0 <= k < |digits| ==> IsDigit(digits[k]);
    if year < 0 {
      assert IntToString(year) == ['-'] + digits;
    }
  }

  lemma {:induction false} PaddedNoSlash(digits: string)
    requires AllDigits(digits)
    ensures '/' !in PadStart(digits, 2, '0')
  {
    var r := PadStart(digits, 2, '0');
    var pad := |r| - |digits|;
    forall k | 0 <= k < |r| ensures r[k] != '/' {
      if k >= pad {
        assert r[k] == r[pad..][k - pad] == digits[k - pad];
      }
    }
  }

  /** The only slashes after `/project/` in a day route are the two around `day`. */
  lemma {:induction false} RouteSlashes(projectId: string, key: string)
    requires '/' !in projectId && '/' !in key
    ensures var rest := DayTail(projectId, key);
            forall j :: 0 <= j < |rest| && rest[j] == '/' ==> j == |projectId| || j == |projectId| + 4
  {
  }

  /** A separator starting with `/` first occurs at `n` when it occurs there and no `/` comes
      before. */
  lemma {:induction false} FirstSlashOccurrence(t: string, sep: string, n: nat)
    requires sep != [] && sep[0] == '/' && OccursAt(t, sep, n)
    requires forall j :: 0 <= j < n ==> t[j] != '/'
    ensures IndexOf(t, sep) == Some(n)
  {
    forall j | 0 <= j < n ensures !OccursAt(t, sep, j) { }
  }

  /** A separator opening and closing with `/` cannot occur where the only slashes are closer
      together than its ends. */
  lemma {:induction false} SlashesTooClose(t: string, sep: string, a: nat, b: nat)
    requires |sep| >= 2 && sep[0] == '/' && sep[|sep| - 1] == '/'
    requires a <= b < a + |sep| - 1
    requires forall j :: 0 <= j < |t| && t[j] == '/' ==> j == a || j == b
    ensures IndexOf(t, sep).None?
  {
    forall j | 0 <= j ensures !OccursAt(t, sep, j) { }
  }

  /** The first occurrence of a non-empty `prefix` in `prefix + rest` is at 0. */
  lemma {:induction false} LeadingOccurrence(rest: string, prefix: string)
    requires prefix != []
    ensures Contains(prefix + rest, prefix) && IndexOf(prefix + rest, prefix) == Some(0)
    ensures Header.After(prefix + rest, prefix) == rest
  {
    assert (prefix + rest)[..|prefix|] == prefix;
    OccursContains(prefix + rest, prefix, 0);
  }

  /** A day route holds both markers the back button looks for. */
  lemma {:induction false} RouteMarkers(projectId: string, key: string)
    ensures var path := Header.ProjectPrefix + DayTail(projectId, key);
            Contains(path, Header.ProjectPrefix) && Contains(path, Header.DayMarker)
            && Header.After(path, Header.ProjectPrefix) == DayTail(projectId, key)
  {
    var prefix := Header.ProjectPrefix;
    var rest := DayTail(projectId, key);
    var path := prefix + rest;
    var n := |projectId|;
    LeadingOccurrence(rest, prefix);
    assert OccursAt(path, Header.DayMarker, |prefix| + n) by {
      assert path[|prefix| + n..|prefix| + n + 5] == rest[n..n + 5];
    }
    OccursContains(path, Header.DayMarker, |prefix| + n);
  }

  /** The back button reads the project id back out of a day route, for ids and keys without
      a `/`. */
  lemma {:induction false} RouteProjectId(projectId: string, key: string)
    requires '/' !in projectId && '/' !in key
    requires Contains(Header.ProjectPrefix + DayTail(projectId, key), Header.ProjectPrefix)
    requires Header.After(Header.ProjectPrefix + DayTail(projectId, key), Header.ProjectPrefix) == DayTail(projectId, key)
    ensures Header.ProjectIdOf(Header.ProjectPrefix + DayTail(projectId, key)) == projectId
  {
    var prefix := Header.ProjectPrefix;
    var rest := DayTail(projectId, key);
    var n := |projectId|;
    RouteSlashes(projectId, key);
    SlashesTooClose(rest, prefix, n, n + 4);
    assert OccursAt(rest, "/day", n) by { assert rest[n..n + 4] == "/day"; }
    FirstSlashOccurrence(rest, "/day", n);
    assert rest[..n] == projectId;
    Header.ProjectIdBetween(prefix + rest);
  }

  /** Clicking a day, then the back button, returns to the project's calendar, for ids without
      a `/`. */
  lemma {:induction false} DayRouteGoesBack(projectId: string, date: Moment)
    requires '/' !in projectId
    ensures var path := DayClick(projectId, date).1;
            Header.BackAction(path) == Header.GoTo(Header.ProjectPrefix + projectId)
  {
    var key := FormatDateKey(date);
    DateKeyNoSlash(date);
    RouteMarkers(projectId, key);
    RouteProjectId(projectId, key);
  }
}
