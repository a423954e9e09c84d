/** The project dashboard of `src/components/Dashboard.jsx`: the work and personal groups, the
    colour of each project, the tasks a calendar cell shows, and the sidebar's drag, touch,
    menu and create handlers. Each handler returns the action it dispatches to the reducer of
    `AppState` (or none); the component's own fields are the fields of `DashboardUi`. */
module Dashboard {
  import opened Common
  import opened Text
  import opened DateUtils
  import opened AppState
  import CalendarView

  /** `PROJECT_COLORS`. */
  const ProjectColors: seq<string> :=
    ["#7c3aed", "#3b82f6", "#10b981", "#f59e0b", "#ef4444", "#ec4899", "#06b6d4", "#8b5cf6"]

  // ---------------------------------------------------------------- groups

  /** `p.type === 'work'`. */
  predicate IsWork(p: Project) { p.projectType == Some("work") }

  /** `p.type === 'personal' || !p.type`: a missing or empty type counts as personal. */
  predicate IsPersonal(p: Project) {
    p.projectType.None? || p.projectType.value == "" || p.projectType.value == "personal"
  }

  /** `p.visible !== false`. */
  predicate IsShown(p: Project) { p.visible != Some(false) }

  function WorkProjects(ps: seq<Project>): seq<Project> { Filter(ps, IsWorkFn()) }
  function PersonalProjects(ps: seq<Project>): seq<Project> { Filter(ps, IsPersonalFn()) }
  function VisibleProjects(ps: seq<Project>): seq<Project> { Filter(ps, IsShownFn()) }

  function IsWorkFn(): Project -> bool { (p: Project) => IsWork(p) }
  function IsPersonalFn(): Project -> bool { (p: Project) => IsPersonal(p) }
  function IsShownFn(): Project -> bool { (p: Project) => IsShown(p) }

  /** No project is in both groups, and a project with any other type is in neither; the two
      group sizes therefore never add up to more than the number of projects. */
  lemma {:induction false} GroupsDisjoint(ps: seq<Project>)
    ensures forall p :: p in WorkProjects(ps) ==> p !in PersonalProjects(ps)
    ensures forall p :: p in ps && p.projectType.Some? && p.projectType.value !in {"", "work", "personal"}
              ==> p !in WorkProjects(ps) && p !in PersonalProjects(ps)
    ensures |WorkProjects(ps)| + |PersonalProjects(ps)| <= |ps|
  {
    CountDisjoint(ps, IsWorkFn(), IsPersonalFn());
  }

  // ---------------------------------------------------------------- colours

  /** No later project in `ps` shares the id of the one at `i`: its colour is the one that
      stays in the map. */
  predicate LastWithId(ps: seq<Project>, i: int, upTo: int)
    requires 0 <= i < upTo <= |ps|
  {
    forall j :: i < j < upTo ==> ps[j].id != ps[i].id
  }

  /** `projectColorMap`: every project gets an entry, the colour of its position modulo 8 (a
      repeated id keeps the colour of its last position). */
  method ProjectColorMap(projects: seq<Project>) returns (colors: map<string, string>)
    ensures forall p :: p in projects ==> p.id in colors
    ensures forall id :: id in colors ==> exists i :: 0 <= i < |projects| && projects[i].id == id
    ensures forall i :: 0 <= i < |projects| && LastWithId(projects, i, |projects|)
              ==> colors[projects[i].id] == ProjectColors[i % |ProjectColors|]
  {
    colors := map[];
    var index := 0;
    while index < |projects|
      invariant 0 <= index <= |projects|
      invariant forall k :: 0 <= k < index ==> projects[k].id in colors
      invariant forall id :: id in colors ==> exists k :: 0 <= k < index && projects[k].id == id
      invariant forall k :: 0 <= k < index && LastWithId(projects, k, index)
                  ==> colors[projects[k].id] == ProjectColors[k % |ProjectColors|]
    {
      colors := colors[projects[index].id := ProjectColors[index % |ProjectColors|]];
      index := index + 1;
    }
  }

  /** With distinct ids, as fresh ids give, every project's colour is the one of its position. */
  lemma {:induction false} DistinctIdsColor(projects: seq<Project>, colors: map<string, string>, i: nat)
    requires forall a, b :: 0 <= a < b < |projects| ==> projects[a].id != projects[b].id
    requires forall k :: 0 <= k < |projects| && LastWithId(projects, k, |projects|)
               ==> projects[k].id in colors && colors[projects[k].id] == ProjectColors[k % |ProjectColors|]
    requires i < |projects|
    ensures projects[i].id in colors && colors[projects[i].id] == ProjectColors[i % 8]
  {
    assert LastWithId(projects, i, |projects|);
  }

  // ---------------------------------------------------------------- tasks of a calendar cell

  /** A task as a calendar cell shows it, tagged with its project's name and colour. */
  datatype Chip = Chip(task: Task, projectName: string, projectColor: Option<string>)

  function ColorFor(colors: map<string, string>, id: string): Option<string> {
    if id in colors then Some(colors[id]) else None
  }

  function Tagged(ts: seq<Task>, p: Project, colors: map<string, string>): (r: seq<Chip>)
    ensures |r| == |ts|
    ensures forall k :: 0 <= k < |ts| ==> r[k] == Chip(ts[k], p.name, ColorFor(colors, p.id))
  {
    seq(|ts|, k requires 0 <= k < |ts| => Chip(ts[k], p.name, ColorFor(colors, p.id)))
  }

  /** The chips of the given projects for one day: each project's tasks of that day, tagged,
      project after project. */
  function DayChips(ps: seq<Project>, tasks: map<string, DateBuckets>, key: string, colors: map<string, string>): seq<Chip> {
    if ps == [] then []
    else
      var n := |ps| - 1;
      DayChips(ps[..n], tasks, key, colors) + Tagged(TasksAt(tasks, ps[n].id, key), ps[n], colors)
  }

  /** `getAllTasksForDay(date)` over the visible projects. */
  method GetAllTasksForDay(projects: seq<Project>, tasks: map<string, DateBuckets>, date: Moment, colors: map<string, string>)
    returns (allTasks: seq<Chip>)
    ensures allTasks == DayChips(VisibleProjects(projects), tasks, FormatDateKey(date), colors)
  {
    var visible := VisibleProjects(projects);
    var dateKey := FormatDateKey(date);
    allTasks := [];
    var i := 0;
    while i < |visible|
      invariant 0 <= i <= |visible|
      invariant allTasks == DayChips(visible[..i], tasks, dateKey, colors)
    {
      var project := visible[i];
      allTasks := PushChips(allTasks, TasksAt(tasks, project.id, dateKey), project, colors);
      DayChipsSnoc(visible, i, tasks, dateKey, colors);
      i := i + 1;
    }
    assert visible[..i] == visible;
  }

  /** The inner `forEach` of `getAllTasksForDay`: one project's tasks pushed as chips. */
  method PushChips(before: seq<Chip>, dayTasks: seq<Task>, project: Project, colors: map<string, string>)
    returns (allTasks: seq<Chip>)
    ensures allTasks == before + Tagged(dayTasks, project, colors)
  {
    allTasks := before;
    var j := 0;
    while j < |dayTasks|
      invariant 0 <= j <= |dayTasks|
      invariant allTasks == before + Tagged(dayTasks[..j], project, colors)
    {
      allTasks := allTasks + [Chip(dayTasks[j], project.name, ColorFor(colors, project.id))];
      j := j + 1;
    }
    assert dayTasks[..j] == dayTasks;
  }

  lemma {:induction false} DayChipsSnoc(ps: seq<Project>, i: nat, tasks: map<string, DateBuckets>, key: string,
                                        colors: map<string, string>)
    requires i < |ps|
    ensures DayChips(ps[..i + 1], tasks, key, colors)
              == DayChips(ps[..i], tasks, key, colors) + Tagged(TasksAt(tasks, ps[i].id, key), ps[i], colors)
  {
    assert ps[..i + 1][..i] == ps[..i];
  }

  /** The chip of a task of project `p`. */
  predicate ChipOf(c: Chip, p: Project, tasks: map<string, DateBuckets>, key: string, colors: map<string, string>) {
    c.task in TasksAt(tasks, p.id, key) && c.projectName == p.name && c.projectColor == ColorFor(colors, p.id)
  }

  lemma {:induction false} TaggedMembers(ts: seq<Task>, p: Project, colors: map<string, string>, c: Chip)
    ensures c in Tagged(ts, p, colors) <==> c.task in ts && c.projectName == p.name && c.projectColor == ColorFor(colors, p.id)
  {
    var tagged := Tagged(ts, p, colors);
    if c in tagged {
      var k :| 0 <= k < |tagged| && tagged[k] == c;
    }
    if c.task in ts && c.projectName == p.name && c.projectColor == ColorFor(colors, p.id) {
      var k :| 0 <= k < |ts| && ts[k] == c.task;
      assert tagged[k] == c;
    }
  }

  /** A chip is on a day exactly when its task is in that day's list of one of the projects,
      and it carries that project's name and colour. */
  lemma {:induction false} DayChipsMembers(ps: seq<Project>, tasks: map<string, DateBuckets>, key: string,
                                           colors: map<string, string>, c: Chip)
    ensures c in DayChips(ps, tasks, key, colors) <==>
              exists i :: 0 <= i < |ps| && ChipOf(c, ps[i], tasks, key, colors)
  {
    if ps != [] {
      var n := |ps| - 1;
      var init := ps[..n];
      var last := Tagged(TasksAt(tasks, ps[n].id, key), ps[n], colors);
      DayChipsMembers(init, tasks, key, colors, c);
      TaggedMembers(TasksAt(tasks, ps[n].id, key), ps[n], colors, c);
      assert DayChips(ps, tasks, key, colors) == DayChips(init, tasks, key, colors) + last;
      if c in DayChips(init, tasks, key, colors) {
        var i :| 0 <= i < |init| && ChipOf(c, init[i], tasks, key, colors);
        assert ps[i] == init[i];
      } else if c in last {
        assert ChipOf(c, ps[n], tasks, key, colors);
      } else {
        forall i | 0 <= i < |ps| ensures !ChipOf(c, ps[i], tasks, key, colors) {
          if i < n {
            assert init[i] == ps[i];
          }
        }
      }
    }
  }

  /** The number of chips is the sum of the projects' counts for the day. */
  function TaskCount(ps: seq<Project>, tasks: map<string, DateBuckets>, key: string): nat {
    if ps == [] then 0 else TaskCount(ps[..|ps| - 1], tasks, key) + |TasksAt(tasks, ps[|ps| - 1].id, key)|
  }

  lemma {:induction false} DayChipsCount(ps: seq<Project>, tasks: map<string, DateBuckets>, key: string, colors: map<string, string>)
    ensures |DayChips(ps, tasks, key, colors)| == TaskCount(ps, tasks, key)
  {
    if ps != [] {
      DayChipsCount(ps[..|ps| - 1], tasks, key, colors);
    }
  }

  const MaxChips := 3

  /** `tasks.slice(0, 3)`. */
  function ShownChips(cs: seq<Chip>): (r: seq<Chip>)
    ensures |r| == Min(MaxChips, |cs|) && r == cs[..|r|]
  {
    if |cs| <= MaxChips then cs else cs[..MaxChips]
  }

  /** `+N more` for the chips left out. */
  function MoreLabel(count: nat): (r: Option<string>)
    ensures r.Some? <==> count > MaxChips
  {
    if count > MaxChips then Some("+" + NatToString(count - MaxChips) + " more") else None
  }

  /** The chips shown and the number in the label account for every task of the day. */
  lemma {:induction false} ChipsAccountForAll(cs: seq<Chip>)
    ensures var hidden := if MoreLabel(|cs|).Some? then |cs| - MaxChips else 0;
            |ShownChips(cs)| + hidden == |cs|
    ensures MoreLabel(|cs|).Some? ==>
              MoreLabel(|cs|).value == "+" + NatToString(|cs| - |ShownChips(cs)|) + " more"
  {
  }

  // ---------------------------------------------------------------- visibility and type changes

  /** `toggleVisibility`: the patch `updateProject` receives, `visible: true` for a project
      hidden with `false` and `visible: false` for any other (a missing one included). */
  function VisibilityPatch(projects: seq<Project>, id: string): (patch: ProjectPatch)
    ensures patch.id == id && patch.name.None? && patch.projectType.None? && patch.visible.Some?
  {
    var found := FindProject(projects, id);
    ProjectPatch(id, None, None, Some(if found.Some? && found.value.visible == Some(false) then true else false))
  }

  /** Toggling a project flips whether it is shown. */
  lemma {:induction false} ToggleVisibilityFlips(s: State, i: nat, freshId: string, now: string)
    requires i < |s.projects| && forall j :: 0 <= j < i ==> s.projects[j].id != s.projects[i].id
    ensures var r := Reduce(s, UpdateProject(VisibilityPatch(s.projects, s.projects[i].id)), freshId, now);
            IsShown(r.projects[i]) == !IsShown(s.projects[i])
  {
    var id := s.projects[i].id;
    FindFirst(s.projects, i);
    UpdateProjectPointwise(s, VisibilityPatch(s.projects, id), freshId, now);
  }

  lemma {:induction false} FindFirst(ps: seq<Project>, i: nat)
    requires i < |ps| && forall j :: 0 <= j < i ==> ps[j].id != ps[i].id
    ensures FindProject(ps, ps[i].id) == Some(ps[i])
  {
    if i > 0 {
      FindFirst(ps[1..], i - 1);
    }
  }

  /** The dropdown's type options: "Move to Work" unless the type is work, "Move to Personal"
      only for a set type other than personal, and always "Delete". */
  datatype MenuOption = MoveToWork | MoveToPersonal | Delete

  function MenuOptions(p: Project): (r: seq<MenuOption>)
    ensures MoveToWork in r <==> !IsWork(p)
    ensures MoveToPersonal in r <==> p.projectType.Some? && p.projectType.value != "" && p.projectType.value != "personal"
    ensures Delete in r
  {
    (if !IsWork(p) then [MoveToWork] else [])
    + (if p.projectType.Some? && p.projectType.value != "" && p.projectType.value != "personal" then [MoveToPersonal] else [])
    + [Delete]
  }

  /** A section's bounding box, when the section is mounted. */
  datatype Rect = Rect(top: int, bottom: int)

  predicate Within(y: int, r: Option<Rect>) { r.Some? && r.value.top <= y <= r.value.bottom }

  /** The touch hit test: the work section wins when both contain the point. */
  function HitSection(y: int, work: Option<Rect>, personal: Option<Rect>): (r: Option<string>)
    ensures r == Some("work") <==> Within(y, work)
    ensures r == Some("personal") <==> !Within(y, work) && Within(y, personal)
    ensures r.None? <==> !Within(y, work) && !Within(y, personal)
  {
    if Within(y, work) then Some("work")
    else if Within(y, personal) then Some("personal")
    else None
  }

  /** `updateProject(id, { type })`. */
  function TypePatch(id: string, t: string): ProjectPatch {
    ProjectPatch(id, None, Some(t), None)
  }

  /** `handleDayClick(date, projectId)` for a chip: with a project, select it and the date and
      open the day's route, the one the calendar's own day click opens; without one, nothing. */
  function DayClick(date: Moment, projectId: Option<string>): (r: (seq<Action>, Option<string>))
    ensures projectId.None? || projectId.value == "" ==> r == ([], None)
    ensures projectId.Some? && projectId.value != "" ==>
              r.0 == [SelectProject(projectId), SetSelectedDate(date)]
              && r.1 == Some(CalendarView.DayClick(projectId.value, date).1)
  {
    if projectId.Some? && projectId.value != "" then
      ([SelectProject(projectId), SetSelectedDate(date)], Some(CalendarView.DayClick(projectId.value, date).1))
    else
      ([], None)
  }

  /** Dispatching a chip's day click selects its project and date, clears the selected task and
      leaves the data alone. */
  lemma {:induction false} DayClickSelects(s: State, date: Moment, projectId: string, freshId: string, now: string)
    requires projectId != ""
    ensures var actions := DayClick(date, Some(projectId)).0;
            var s2 := Reduce(Reduce(s, actions[0], freshId, now), actions[1], freshId, now);
            && s2.selectedProject == Some(projectId) && s2.selectedDate == date && s2.selectedTask.None?
            && s2.projects == s.projects && s2.tasks == s.tasks
  {
    var s1 := Reduce(s, SelectProject(Some(projectId)), freshId, now);
    SelectionClearsTask(s, Some(projectId), date, "", freshId, now);
    SelectionClearsTask(s1, Some(projectId), date, "", freshId, now);
  }

  /** What submitting the create dialog dispatches: a project under the trimmed name, when that
      is not empty. */
  function CreateAction(name: string): (r: Option<Action>)
    ensures r.Some? <==> Trim(name) != []
    ensures r.Some? ==> r.value == AddProject(Trim(name))
  {
    var trimmed := Trim(name);
    if trimmed != [] then Some(AddProjectAction(trimmed)) else None
  }

  /** The sidebar and the create dialog. */
  class DashboardUi {
    var draggedProject: Option<Project>
    var dragOverSection: Option<string>
    var touchProject: Option<Project>
    var touchStartY: int
    var menuOpenId: Option<string>
    var newProjectName: string
    var newProjectType: string
    var showCreateModal: bool

    constructor ()
      ensures draggedProject.None? && dragOverSection.None? && touchProject.None? && touchStartY == 0
      ensures menuOpenId.None? && newProjectName == "" && newProjectType == "personal" && !showCreateModal
    {
      draggedProject, dragOverSection, touchProject, touchStartY := None, None, None, 0;
      menuOpenId, newProjectName, newProjectType, showCreateModal := None, "", "personal", false;
    }

    method HandleDragStart(p: Project)
      modifies this
      ensures draggedProject == Some(p)
      ensures dragOverSection == old(dragOverSection) && touchProject == old(touchProject)
      ensures touchStartY == old(touchStartY) && menuOpenId == old(menuOpenId)
      ensures newProjectName == old(newProjectName) && newProjectType == old(newProjectType)
      ensures showCreateModal == old(showCreateModal)
    {
      draggedProject := Some(p);
    }

    method HandleDragEnd()
      modifies this
      ensures draggedProject.None? && dragOverSection.None?
      ensures touchProject == old(touchProject) && touchStartY == old(touchStartY) && menuOpenId == old(menuOpenId)
      ensures newProjectName == old(newProjectName) && newProjectType == old(newProjectType)
      ensures showCreateModal == old(showCreateModal)
    {
      draggedProject := None;
      dragOverSection := None;
    }

    method HandleDragOver(section: string)
      modifies this
      ensures dragOverSection == Some(section)
      ensures draggedProject == old(draggedProject) && touchProject == old(touchProject)
      ensures touchStartY == old(touchStartY) && menuOpenId == old(menuOpenId)
      ensures newProjectName == old(newProjectName) && newProjectType == old(newProjectType)
      ensures showCreateModal == old(showCreateModal)
    {
      dragOverSection := Some(section);
    }

    method HandleDragLeave()
      modifies this
      ensures dragOverSection.None?
      ensures draggedProject == old(draggedProject) && touchProject == old(touchProject)
      ensures touchStartY == old(touchStartY) && menuOpenId == old(menuOpenId)
      ensures newProjectName == old(newProjectName) && newProjectType == old(newProjectType)
      ensures showCreateModal == old(showCreateModal)
    {
      dragOverSection := None;
    }

    /** `handleDrop`: only a dragged project whose type differs from the section's changes
        type; the drag state is cleared either way. */
    method HandleDrop(targetType: string) returns (update: Option<Action>)
      modifies this
      ensures update.Some? <==> old(draggedProject).Some? && old(draggedProject).value.projectType != Some(targetType)
      ensures update.Some? ==> update.value == UpdateProject(TypePatch(old(draggedProject).value.id, targetType))
      ensures draggedProject.None? && dragOverSection.None?
      ensures touchProject == old(touchProject) && touchStartY == old(touchStartY) && menuOpenId == old(menuOpenId)
      ensures newProjectName == old(newProjectName) && newProjectType == old(newProjectType)
      ensures showCreateModal == old(showCreateModal)
    {
      update := None;
      if draggedProject.Some? && draggedProject.value.projectType != Some(targetType) {
        update := Some(UpdateProject(TypePatch(draggedProject.value.id, targetType)));
      }
      draggedProject := None;
      dragOverSection := None;
    }

    method HandleTouchStart(p: Project, y: int)
      modifies this
      ensures touchProject == Some(p) && touchStartY == y
      ensures draggedProject == old(draggedProject) && dragOverSection == old(dragOverSection)
      ensures menuOpenId == old(menuOpenId) && newProjectName == old(newProjectName)
      ensures newProjectType == old(newProjectType) && showCreateModal == old(showCreateModal)
    {
      touchProject := Some(p);
      touchStartY := y;
    }

    /** `handleTouchMove`: ignored without a touched project; otherwise the section under the
        finger becomes the drop target. */
    method HandleTouchMove(y: int, work: Option<Rect>, personal: Option<Rect>)
      modifies this
      ensures dragOverSection == if old(touchProject).None? then old(dragOverSection) else HitSection(y, work, personal)
      ensures draggedProject == old(draggedProject) && touchProject == old(touchProject)
      ensures touchStartY == old(touchStartY) && menuOpenId == old(menuOpenId)
      ensures newProjectName == old(newProjectName) && newProjectType == old(newProjectType)
      ensures showCreateModal == old(showCreateModal)
    {
      if touchProject.None? {
        return;
      }
      if Within(y, work) {
        dragOverSection := Some("work");
      } else if Within(y, personal) {
        dragOverSection := Some("personal");
      } else {
        dragOverSection := None;
      }
    }

    /** `handleTouchEnd`: the touched project moves to the target section when there is one
        and its type differs; the touch state and the target are cleared either way. */
    method HandleTouchEnd() returns (update: Option<Action>)
      modifies this
      ensures update.Some? <==> old(touchProject).Some? && old(dragOverSection).Some?
                                && old(touchProject).value.projectType != old(dragOverSection)
      ensures update.Some? ==> update.value == UpdateProject(TypePatch(old(touchProject).value.id, old(dragOverSection).value))
      ensures touchProject.None? && touchStartY == 0 && dragOverSection.None?
      ensures draggedProject == old(draggedProject) && menuOpenId == old(menuOpenId)
      ensures newProjectName == old(newProjectName) && newProjectType == old(newProjectType)
      ensures showCreateModal == old(showCreateModal)
    {
      update := None;
      if touchProject.Some? && dragOverSection.Some? && touchProject.value.projectType != dragOverSection {
        update := Some(UpdateProject(TypePatch(touchProject.value.id, dragOverSection.value)));
      }
      touchProject := None;
      touchStartY := 0;
      dragOverSection := None;
    }

    /** `handleMenuClick`: opens the project's menu, or closes it when it is the open one. */
    method HandleMenuClick(id: string)
      modifies this
      ensures menuOpenId == if old(menuOpenId) == Some(id) then None else Some(id)
      ensures draggedProject == old(draggedProject) && dragOverSection == old(dragOverSection)
      ensures touchProject == old(touchProject) && touchStartY == old(touchStartY)
      ensures newProjectName == old(newProjectName) && newProjectType == old(newProjectType)
      ensures showCreateModal == old(showCreateModal)
    {
      menuOpenId := if menuOpenId == Some(id) then None else Some(id);
    }

    /** `changeProjectType`: dispatches the new type and closes the menu. */
    method ChangeProjectType(id: string, t: string) returns (update: Action)
      modifies this
      ensures update == UpdateProject(TypePatch(id, t)) && menuOpenId.None?
      ensures draggedProject == old(draggedProject) && dragOverSection == old(dragOverSection)
      ensures touchProject == old(touchProject) && touchStartY == old(touchStartY)
      ensures newProjectName == old(newProjectName) && newProjectType == old(newProjectType)
      ensures showCreateModal == old(showCreateModal)
    {
      update := UpdateProject(TypePatch(id, t));
      menuOpenId := None;
    }

    /** `handleCreateProject`: only a name with non-space text creates a project, under the
        trimmed name; the dialog then resets and closes. `addProject` takes only the name, so
        the chosen type is not passed on. */
    method HandleCreateProject() returns (create: Option<Action>)
      modifies this
      ensures create == CreateAction(old(newProjectName))
      ensures create.Some? ==> newProjectName == "" && newProjectType == "personal" && !showCreateModal
      ensures create.None? ==> newProjectName == old(newProjectName) && newProjectType == old(newProjectType)
                               && showCreateModal == old(showCreateModal)
      ensures draggedProject == old(draggedProject) && dragOverSection == old(dragOverSection)
      ensures touchProject == old(touchProject) && touchStartY == old(touchStartY) && menuOpenId == old(menuOpenId)
    {
      create := CreateAction(newProjectName);
      if create.Some? {
        ResetDialog();
      }
    }

    /** The dialog after a project is created: empty, back to personal, and closed. */
    method ResetDialog()
      modifies this
      ensures newProjectName == "" && newProjectType == "personal" && !showCreateModal
      ensures draggedProject == old(draggedProject) && dragOverSection == old(dragOverSection)
      ensures touchProject == old(touchProject) && touchStartY == old(touchStartY) && menuOpenId == old(menuOpenId)
    {
      newProjectName := "";
      newProjectType := "personal";
      showCreateModal := false;
    }
  }

  /** Creating a project stores it without a type, whichever type the dialog had selected; the
      dashboard then files it under personal. */
  lemma {:induction false} CreatedProjectIsPersonal(s: State, name: string, freshId: string, now: string)
    requires Trim(name) != []
    ensures var r := Reduce(s, AddProject(Trim(name)), freshId, now);
            var p := r.projects[|r.projects| - 1];
            p.projectType.None? && IsPersonal(p) && IsShown(p) && p.name == Trim(name)
  {
    AddProjectAppends(s, Trim(name), freshId, now);
  }
}
