/** The application state of `src/context/AppContext.jsx` and its reducer `appReducer`.
    Projects are a list; tasks are a map from project id to that project's date buckets, each
    bucket a date key (`YYYY-MM-DD`) and its tasks. A project's buckets keep the order in which
    their keys were first added, as a JavaScript object keeps non-numeric keys. The id generator
    and the clock are parameters of the reducer. */
module AppState {
  import opened Common
  import opened DateUtils

  /** A task as the app stores it. `description`, `content` and `priority` are keys some tasks
      lack: tasks made by ADD_TASK carry a description, tasks read from the database carry content
      and priority. */
  datatype Task = Task(
    id: string,
    projectId: string,
    date: string,
    title: string,
    description: Option<string>,
    content: Option<string>,
    status: string,
    priority: Option<string>,
    estimatedDays: int,
    createdAt: string)

  /** The keys an `updates` object may carry; `None` is a key that is absent. */
  datatype TaskPatch = TaskPatch(
    title: Option<string>,
    description: Option<string>,
    content: Option<string>,
    status: Option<string>,
    priority: Option<string>,
    estimatedDays: Option<int>,
    date: Option<string>)

  /** `{ ...task, ...updates }`: every key present in the patch overrides the task's. */
  function MergeTask(t: Task, u: TaskPatch): (r: Task)
    ensures r.id == t.id && r.projectId == t.projectId && r.createdAt == t.createdAt
    ensures r.title == u.title.GetOr(t.title) && r.status == u.status.GetOr(t.status)
    ensures r.estimatedDays == u.estimatedDays.GetOr(t.estimatedDays) && r.date == u.date.GetOr(t.date)
    ensures r.description == (if u.description.Some? then u.description else t.description)
    ensures r.content == (if u.content.Some? then u.content else t.content)
    ensures r.priority == (if u.priority.Some? then u.priority else t.priority)
  {
    Task(t.id, t.projectId, u.date.GetOr(t.date), u.title.GetOr(t.title),
         if u.description.Some? then u.description else t.description,
         if u.content.Some? then u.content else t.content,
         u.status.GetOr(t.status),
         if u.priority.Some? then u.priority else t.priority,
         u.estimatedDays.GetOr(t.estimatedDays), t.createdAt)
  }

  /** A project; `projectType` and `visible` are keys a project may lack. */
  datatype Project = Project(
    id: string,
    name: string,
    createdAt: string,
    projectType: Option<string>,
    visible: Option<bool>)

  /** The payload of UPDATE_PROJECT, `{ id, ...updates }`. */
  datatype ProjectPatch = ProjectPatch(
    id: string,
    name: Option<string>,
    projectType: Option<string>,
    visible: Option<bool>)

  function MergeProject(p: Project, u: ProjectPatch): Project {
    Project(u.id, u.name.GetOr(p.name), p.createdAt,
            if u.projectType.Some? then u.projectType else p.projectType,
            if u.visible.Some? then u.visible else p.visible)
  }

  // ---------------------------------------------------------------- date buckets

  datatype Bucket = Bucket(key: string, tasks: seq<Task>)

  /** One project's tasks by date key, in key-insertion order. */
  type DateBuckets = seq<Bucket>

  function Keys(b: DateBuckets): (ks: seq<string>)
    ensures |ks| == |b| && forall i :: 0 <= i < |b| ==> ks[i] == b[i].key
  {
    if b == [] then [] else [b[0].key] + Keys(b[1..])
  }

  predicate DistinctKeys(b: DateBuckets) {
    forall i, j :: 0 <= i < j < |b| ==> b[i].key != b[j].key
  }

  /** `projectTasks[dateKey]`. */
  function Lookup(b: DateBuckets, key: string): (r: Option<seq<Task>>)
    ensures r.Some? <==> key in Keys(b)
  {
    if b == [] then None
    else if b[0].key == key then Some(b[0].tasks)
    else Lookup(b[1..], key)
  }

  /** `{ ...projectTasks, [key]: tasks }`: an existing key keeps its place, a new one goes last. */
  function Put(b: DateBuckets, key: string, tasks: seq<Task>): (r: DateBuckets)
    ensures Keys(r) == if key in Keys(b) then Keys(b) else Keys(b) + [key]
  {
    if b == [] then [Bucket(key, tasks)]
    else if b[0].key == key then [Bucket(key, tasks)] + b[1..]
    else [b[0]] + Put(b[1..], key, tasks)
  }

  /** Reading back a key just written gives what was written; other keys are untouched. */
  lemma {:induction false} LookupPut(b: DateBuckets, key: string, tasks: seq<Task>, other: string)
    ensures Lookup(Put(b, key, tasks), key) == Some(tasks)
    ensures other != key ==> Lookup(Put(b, key, tasks), other) == Lookup(b, other)
  {
    if b != [] && b[0].key != key {
      LookupPut(b[1..], key, tasks, other);
    }
  }

  /** Writing a key never creates a duplicate key. */
  lemma {:induction false} PutDistinct(b: DateBuckets, key: string, tasks: seq<Task>)
    requires DistinctKeys(b)
    ensures DistinctKeys(Put(b, key, tasks))
  {
    var r := Put(b, key, tasks);
    forall i, j | 0 <= i < j < |r| ensures r[i].key != r[j].key {
      assert Keys(r)[i] == r[i].key && Keys(r)[j] == r[j].key;
      if key !in Keys(b) {
        assert Keys(r)[..|b|] == Keys(b);
        if j == |b| {
          assert Keys(r)[i] == Keys(b)[i];
        } else {
          assert Keys(r)[i] == Keys(b)[i] && Keys(r)[j] == Keys(b)[j];
        }
      } else {
        assert Keys(r)[i] == Keys(b)[i] && Keys(r)[j] == Keys(b)[j];
      }
    }
  }

  /** `tasks[projectId] || {}`. */
  function ProjectBuckets(tasks: map<string, DateBuckets>, projectId: string): DateBuckets {
    if projectId in tasks then tasks[projectId] else []
  }

  /** `tasks[projectId]?.[dateKey] || []`. */
  function TasksAt(tasks: map<string, DateBuckets>, projectId: string, key: string): seq<Task> {
    Lookup(ProjectBuckets(tasks, projectId), key).GetOr([])
  }

  // ---------------------------------------------------------------- state and actions

  datatype State = State(
    projects: seq<Project>,
    tasks: map<string, DateBuckets>,
    selectedProject: Option<string>,
    selectedDate: Moment,
    selectedTask: Option<Task>,
    theme: string,
    isLoading: bool)

  /** The actions `appReducer` handles; `Unknown` is any other action type. */
  datatype Action =
    | InitData(projects: seq<Project>, tasks: map<string, DateBuckets>, theme: string)
    | SetTheme(theme: string)
    | AddProject(name: string)
    | UpdateProject(patch: ProjectPatch)
    | DeleteProject(id: string)
    | SelectProject(selection: Option<string>)
    | SetSelectedDate(date: Moment)
    | AddTask(projectId: string, date: Moment, title: string, estimatedDays: Option<int>)
    | UpdateTask(projectId: string, taskId: string, updates: TaskPatch)
    | DeleteTask(projectId: string, taskId: string, dateKey: string)
    | SelectTask(selected: Option<Task>)
    | CopyTaskToDate(task: Task, targetDate: Moment)
    | Unknown(name: string)

  /** JavaScript's `n || 1` on a number that may be missing: a missing value or 0 becomes 1. */
  function OrOne(n: Option<int>): (r: int)
    ensures r != 0
    ensures n.Some? && n.value != 0 ==> r == n.value
  {
    if n.Some? && n.value != 0 then n.value else 1
  }

  /** `findIndex(t => t.id === id)`: the first position holding the id. */
  function FindIndex(ts: seq<Task>, id: string): (r: Option<nat>)
    ensures r.Some? ==> r.value < |ts| && ts[r.value].id == id
    ensures r.Some? ==> forall j :: 0 <= j < r.value ==> ts[j].id != id
    ensures r.None? ==> forall j :: 0 <= j < |ts| ==> ts[j].id != id
  {
    if ts == [] then None
    else if ts[0].id == id then Some(0)
    else match FindIndex(ts[1..], id)
      case None => None
      case Some(i) => Some(i + 1)
  }

  /** UPDATE_TASK's walk over one project's buckets in key order: the first bucket holding the
      task gets it merged with the patch at the same position, and the walk stops there. */
  function FirstUpdate(b: DateBuckets, taskId: string, u: TaskPatch): (r: (DateBuckets, Option<Task>))
    ensures |r.0| == |b|
  {
    if b == [] then (b, None)
    else match FindIndex(b[0].tasks, taskId)
      case Some(i) =>
        var t := MergeTask(b[0].tasks[i], u);
        ([Bucket(b[0].key, b[0].tasks[i := t])] + b[1..], Some(t))
      case None =>
        var rest := FirstUpdate(b[1..], taskId, u);
        ([b[0]] + rest.0, rest.1)
  }

  /** The index of the first bucket holding a task with the id. */
  function FirstBucketWith(b: DateBuckets, taskId: string): (r: Option<nat>)
    ensures r.Some? ==> r.value < |b| && FindIndex(b[r.value].tasks, taskId).Some?
    ensures r.Some? ==> forall j :: 0 <= j < r.value ==> FindIndex(b[j].tasks, taskId).None?
    ensures r.None? ==> forall j :: 0 <= j < |b| ==> FindIndex(b[j].tasks, taskId).None?
  {
    if b == [] then None
    else if FindIndex(b[0].tasks, taskId).Some? then Some(0)
    else match FirstBucketWith(b[1..], taskId)
      case None => None
      case Some(j) => Some(j + 1)
  }

  /** UPDATE_TASK changes exactly one task, the first with the id in the first bucket (in key
      order) holding it, keeps its position, and reports the merged task; when no bucket holds
      the id, nothing changes. */
  lemma {:induction false} FirstUpdateChangesOneTask(b: DateBuckets, taskId: string, u: TaskPatch)
    ensures var r := FirstUpdate(b, taskId, u);
            match FirstBucketWith(b, taskId)
            case None => r == (b, None)
            case Some(j) =>
              var i := FindIndex(b[j].tasks, taskId).value;
              var t := MergeTask(b[j].tasks[i], u);
              r == (b[j := Bucket(b[j].key, b[j].tasks[i := t])], Some(t))
  {
    if b != [] && FindIndex(b[0].tasks, taskId).Some? {
      var i := FindIndex(b[0].tasks, taskId).value;
      var t := MergeTask(b[0].tasks[i], u);
      assert [Bucket(b[0].key, b[0].tasks[i := t])] + b[1..] == b[0 := Bucket(b[0].key, b[0].tasks[i := t])];
    } else if b != [] {
      FirstUpdateChangesOneTask(b[1..], taskId, u);
      match FirstBucketWith(b[1..], taskId)
      case None =>
        assert [b[0]] + b[1..] == b;
      case Some(j) =>
        var i := FindIndex(b[j + 1].tasks, taskId).value;
        var t := MergeTask(b[j + 1].tasks[i], u);
        assert [b[0]] + b[1..][j := Bucket(b[j + 1].key, b[j + 1].tasks[i := t])]
            == b[j + 1 := Bucket(b[j + 1].key, b[j + 1].tasks[i := t])];
    }
  }

  /** The loop of UPDATE_TASK over `Object.keys(projectTasks)`: copy the buckets, replace the
      task in the first bucket where `findIndex` finds it, and stop. */
  method UpdateTaskInProject(projectTasks: DateBuckets, taskId: string, updates: TaskPatch)
    returns (updatedProjectTasks: DateBuckets, updatedTask: Option<Task>)
    ensures (updatedProjectTasks, updatedTask) == FirstUpdate(projectTasks, taskId, updates)
  {
    FirstUpdateChangesOneTask(projectTasks, taskId, updates);
    updatedProjectTasks := projectTasks;
    updatedTask := None;
    var k := 0;
    while k < |projectTasks|
      invariant 0 <= k <= |projectTasks|
      invariant forall j :: 0 <= j < k ==> FindIndex(projectTasks[j].tasks, taskId).None?
      invariant updatedProjectTasks == projectTasks && updatedTask.None?
    {
      var dateTasks := projectTasks[k].tasks;
      var taskIndex := FindIndex(dateTasks, taskId);
      if taskIndex.Some? {
        var i := taskIndex.value;
        var t := MergeTask(dateTasks[i], updates);
        updatedProjectTasks := projectTasks[k := Bucket(projectTasks[k].key, dateTasks[..i] + [t] + dateTasks[i + 1..])];
        updatedTask := Some(t);
        FirstBucketIs(projectTasks, taskId, k);
        assert dateTasks[..i] + [t] + dateTasks[i + 1..] == dateTasks[i := t];
        return;
      }
      k := k + 1;
    }
    NoBucketWith(projectTasks, taskId);
  }

  lemma {:induction false} FirstBucketIs(b: DateBuckets, taskId: string, k: nat)
    requires k < |b| && FindIndex(b[k].tasks, taskId).Some?
    requires forall j :: 0 <= j < k ==> FindIndex(b[j].tasks, taskId).None?
    ensures FirstBucketWith(b, taskId) == Some(k)
  {
  }

  lemma {:induction false} NoBucketWith(b: DateBuckets, taskId: string)
    requires forall j :: 0 <= j < |b| ==> FindIndex(b[j].tasks, taskId).None?
    ensures FirstBucketWith(b, taskId) == None
  {
  }

  /** The filter DELETE_TASK applies, `t => t.id !== taskId`. */
  function KeepOtherTasks(taskId: string): Task -> bool {
    (t: Task) => t.id != taskId
  }

  /** The filter DELETE_PROJECT applies, `p => p.id !== id`. */
  function KeepOtherProjects(id: string): Project -> bool {
    (p: Project) => p.id != id
  }

  /** `selectedTask?.id === taskId`. */
  predicate IsSelected(selected: Option<Task>, taskId: string) {
    selected.Some? && selected.value.id == taskId
  }

  /** The task ADD_TASK creates. */
  function NewTask(id: string, projectId: string, dateKey: string, title: string, estimatedDays: Option<int>, now: string): Task {
    Task(id, projectId, dateKey, title, Some(""), None, "not_started", None, OrOne(estimatedDays), now)
  }

  /** The copy COPY_TASK_TO_DATE creates: the same task under a fresh id, on the target date,
      not started. */
  function CopiedTask(t: Task, id: string, dateKey: string, now: string): Task {
    t.(id := id, date := dateKey, status := "not_started", createdAt := now)
  }

  /** `{ ...tasks, [projectId]: { ...projectTasks, [key]: [...dateTasks, t] } }`, shared by
      ADD_TASK and COPY_TASK_TO_DATE. */
  function AppendTask(tasks: map<string, DateBuckets>, projectId: string, key: string, t: Task): map<string, DateBuckets> {
    var projectTasks := ProjectBuckets(tasks, projectId);
    tasks[projectId := Put(projectTasks, key, Lookup(projectTasks, key).GetOr([]) + [t])]
  }

  /** DELETE_TASK's update of the task map: the day's list without the id. */
  function RemoveTask(tasks: map<string, DateBuckets>, projectId: string, key: string, taskId: string): map<string, DateBuckets> {
    var projectTasks := ProjectBuckets(tasks, projectId);
    tasks[projectId := Put(projectTasks, key, Filter(Lookup(projectTasks, key).GetOr([]), KeepOtherTasks(taskId)))]
  }

  /** Appending puts the task last in its day's list and changes no other list. */
  lemma {:induction false} AppendTaskEffect(tasks: map<string, DateBuckets>, projectId: string, key: string, t: Task, pid: string, k: string)
    ensures var r := AppendTask(tasks, projectId, key, t);
            TasksAt(r, projectId, key) == TasksAt(tasks, projectId, key) + [t]
            && ((pid, k) != (projectId, key) ==> TasksAt(r, pid, k) == TasksAt(tasks, pid, k))
            && (forall p :: p != projectId ==> (p in r <==> p in tasks) && (p in r ==> r[p] == tasks[p]))
  {
    var b := ProjectBuckets(tasks, projectId);
    LookupPut(b, key, Lookup(b, key).GetOr([]) + [t], k);
  }

  /** Removing filters only the named day's list, and leaves that day's key in place. */
  lemma {:induction false} RemoveTaskEffect(tasks: map<string, DateBuckets>, projectId: string, key: string, taskId: string, pid: string, k: string)
    ensures var r := RemoveTask(tasks, projectId, key, taskId);
            TasksAt(r, projectId, key) == Filter(TasksAt(tasks, projectId, key), KeepOtherTasks(taskId))
            && key in Keys(r[projectId])
            && ((pid, k) != (projectId, key) ==> TasksAt(r, pid, k) == TasksAt(tasks, pid, k))
  {
    var b := ProjectBuckets(tasks, projectId);
    LookupPut(b, key, Filter(Lookup(b, key).GetOr([]), KeepOtherTasks(taskId)), k);
  }

  /** `appReducer(state, action)`; `freshId` is the value `uuidv4()` returns and `now` the value
      of `new Date().toISOString()` for this dispatch. */
  function Reduce(s: State, a: Action, freshId: string, now: string): State {
    match a
    case InitData(projects, tasks, theme) =>
      s.(projects := projects, tasks := tasks, theme := theme, isLoading := false)
    case SetTheme(theme) =>
      s.(theme := theme)
    case AddProject(name) =>
      s.(projects := s.projects + [Project(freshId, name, now, None, None)])
    case UpdateProject(patch) =>
      s.(projects := seq(|s.projects|, i requires 0 <= i < |s.projects| =>
           if s.projects[i].id == patch.id then MergeProject(s.projects[i], patch) else s.projects[i]))
    case DeleteProject(id) =>
      s.(projects := Filter(s.projects, KeepOtherProjects(id)),
         tasks := s.tasks - {id},
         selectedProject := if s.selectedProject == Some(id) then None else s.selectedProject)
    case SelectProject(selection) =>
      s.(selectedProject := selection, selectedTask := None)
    case SetSelectedDate(date) =>
      s.(selectedDate := date, selectedTask := None)
    case AddTask(projectId, date, title, estimatedDays) =>
      var key := FormatDateKey(date);
      s.(tasks := AppendTask(s.tasks, projectId, key, NewTask(freshId, projectId, key, title, estimatedDays, now)))
    case UpdateTask(projectId, taskId, updates) =>
      var r := FirstUpdate(ProjectBuckets(s.tasks, projectId), taskId, updates);
      s.(tasks := s.tasks[projectId := r.0],
         selectedTask := if r.1.Some? && IsSelected(s.selectedTask, taskId) then r.1 else s.selectedTask)
    case DeleteTask(projectId, taskId, dateKey) =>
      s.(tasks := RemoveTask(s.tasks, projectId, dateKey, taskId),
         selectedTask := if IsSelected(s.selectedTask, taskId) then None else s.selectedTask)
    case SelectTask(selected) =>
      s.(selectedTask := selected)
    case CopyTaskToDate(task, targetDate) =>
      var key := FormatDateKey(targetDate);
      s.(tasks := AppendTask(s.tasks, task.projectId, key, CopiedTask(task, freshId, key, now)))
    case Unknown(_) =>
      s
  }

  // ---------------------------------------------------------------- what each action promises

  /** ADD_PROJECT appends one project built from the name, the fresh id and the time, with no
      type and no visibility flag; nothing else changes. */
  lemma {:induction false} AddProjectAppends(s: State, name: string, freshId: string, now: string)
    ensures var r := Reduce(s, AddProject(name), freshId, now);
            |r.projects| == |s.projects| + 1 && r.projects[..|s.projects|] == s.projects
            && r.projects[|s.projects|] == Project(freshId, name, now, None, None)
            && r.(projects := s.projects) == s
  {
    var r := Reduce(s, AddProject(name), freshId, now);
    assert r.projects[..|s.projects|] == s.projects;
  }

  /** UPDATE_PROJECT merges the patch into every project with its id and leaves the others,
      and the list's length, alone. */
  lemma {:induction false} UpdateProjectPointwise(s: State, patch: ProjectPatch, freshId: string, now: string)
    ensures var r := Reduce(s, UpdateProject(patch), freshId, now);
            |r.projects| == |s.projects| && r.(projects := s.projects) == s
            && forall i :: 0 <= i < |s.projects| ==>
                 r.projects[i] == (if s.projects[i].id == patch.id then MergeProject(s.projects[i], patch) else s.projects[i])
  {
  }

  /** DELETE_PROJECT removes every project with the id, in order keeping the rest, drops the
      project's tasks, and clears the selection only when it was that project. */
  lemma {:induction false} DeleteProjectRemoves(s: State, id: string, freshId: string, now: string)
    ensures var r := Reduce(s, DeleteProject(id), freshId, now);
            (forall p :: p in r.projects <==> p in s.projects && p.id != id)
            && id !in r.tasks
            && (forall k :: k != id ==> (k in r.tasks <==> k in s.tasks))
            && (forall k :: k in r.tasks ==> r.tasks[k] == s.tasks[k])
            && r.projects == Filter(s.projects, KeepOtherProjects(id))
            && (s.selectedProject == Some(id) ==> r.selectedProject.None?)
            && (s.selectedProject != Some(id) ==> r.selectedProject == s.selectedProject)
            && r.(projects := s.projects, tasks := s.tasks, selectedProject := s.selectedProject) == s
  {
  }

  /** Selecting a project or a date always clears the selected task; an unknown action returns
      the state as it was. */
  lemma {:induction false} SelectionClearsTask(s: State, projectId: Option<string>, date: Moment, name: string, freshId: string, now: string)
    ensures Reduce(s, SelectProject(projectId), freshId, now).selectedTask.None?
    ensures Reduce(s, SelectProject(projectId), freshId, now).selectedProject == projectId
    ensures Reduce(s, SetSelectedDate(date), freshId, now).selectedTask.None?
    ensures Reduce(s, SetSelectedDate(date), freshId, now).selectedDate == date
    ensures Reduce(s, Unknown(name), freshId, now) == s
  {
  }

  /** ADD_TASK appends one not-started task with an empty description to the day's list of the
      project; every other list of every project reads as before. */
  lemma {:induction false} AddTaskAppends(s: State, projectId: string, date: Moment, title: string, days: Option<int>,
                       freshId: string, now: string, pid: string, key: string)
    ensures var r := Reduce(s, AddTask(projectId, date, title, days), freshId, now);
            var k := FormatDateKey(date);
            var t := NewTask(freshId, projectId, k, title, days, now);
            TasksAt(r.tasks, projectId, k) == TasksAt(s.tasks, projectId, k) + [t]
            && t.status == "not_started" && t.description == Some("") && t.estimatedDays == OrOne(days)
            && ((pid, key) != (projectId, k) ==> TasksAt(r.tasks, pid, key) == TasksAt(s.tasks, pid, key))
            && r.(tasks := s.tasks) == s
  {
    var k := FormatDateKey(date);
    var t := NewTask(freshId, projectId, k, title, days, now);
    assert Reduce(s, AddTask(projectId, date, title, days), freshId, now) == s.(tasks := AppendTask(s.tasks, projectId, k, t));
    AppendTaskEffect(s.tasks, projectId, k, t, pid, key);
  }

  /** UPDATE_TASK rewrites only the project's buckets, as `FirstUpdate` says; it refreshes the
      selected task only when that task was the one updated; when no bucket holds the id, the
      buckets are as before (an absent project gets an empty entry). */
  lemma {:induction false} UpdateTaskEffect(s: State, projectId: string, taskId: string, u: TaskPatch, freshId: string, now: string)
    ensures var r := Reduce(s, UpdateTask(projectId, taskId, u), freshId, now);
            var b := ProjectBuckets(s.tasks, projectId);
            (forall k :: k != projectId ==> (k in r.tasks <==> k in s.tasks))
            && (forall k :: k in r.tasks && k != projectId ==> r.tasks[k] == s.tasks[k])
            && (FirstBucketWith(b, taskId).None? ==> r.tasks[projectId] == b && r.selectedTask == s.selectedTask)
            && (FirstBucketWith(b, taskId).Some? ==>
                  var j := FirstBucketWith(b, taskId).value;
                  var i := FindIndex(b[j].tasks, taskId).value;
                  r.tasks[projectId] == b[j := Bucket(b[j].key, b[j].tasks[i := MergeTask(b[j].tasks[i], u)])])
            && (!IsSelected(s.selectedTask, taskId) ==> r.selectedTask == s.selectedTask)
            && (FirstBucketWith(b, taskId).Some? && IsSelected(s.selectedTask, taskId) ==>
                  r.selectedTask == FirstUpdate(b, taskId, u).1)
            && r.(tasks := s.tasks, selectedTask := s.selectedTask) == s
  {
    FirstUpdateChangesOneTask(ProjectBuckets(s.tasks, projectId), taskId, u);
  }

  /** DELETE_TASK filters the id out of the one named day of the project (creating that day's
      entry, empty, if it was absent), leaves every other list as it was, and clears the selected
      task when it had the id. */
  lemma {:induction false} DeleteTaskEffect(s: State, projectId: string, taskId: string, dateKey: string,
                         freshId: string, now: string, pid: string, key: string)
    ensures var r := Reduce(s, DeleteTask(projectId, taskId, dateKey), freshId, now);
            var after := TasksAt(r.tasks, projectId, dateKey);
            after == Filter(TasksAt(s.tasks, projectId, dateKey), KeepOtherTasks(taskId))
            && (forall t :: t in after ==> t.id != taskId)
            && dateKey in Keys(r.tasks[projectId])
            && ((pid, key) != (projectId, dateKey) ==> TasksAt(r.tasks, pid, key) == TasksAt(s.tasks, pid, key))
            && (IsSelected(s.selectedTask, taskId) ==> r.selectedTask.None?)
            && (!IsSelected(s.selectedTask, taskId) ==> r.selectedTask == s.selectedTask)
            && r.(tasks := s.tasks, selectedTask := s.selectedTask) == s
  {
    RemoveTaskEffect(s.tasks, projectId, dateKey, taskId, pid, key);
  }

  /** COPY_TASK_TO_DATE appends a not-started copy with the fresh id to the target day of the
      task's project, and every task already stored, the original included, stays where it was. */
  lemma {:induction false} CopyTaskKeepsOriginal(s: State, task: Task, target: Moment, freshId: string, now: string, pid: string, key: string)
    ensures var r := Reduce(s, CopyTaskToDate(task, target), freshId, now);
            var k := FormatDateKey(target);
            TasksAt(r.tasks, task.projectId, k) == TasksAt(s.tasks, task.projectId, k) + [CopiedTask(task, freshId, k, now)]
            && ((pid, key) != (task.projectId, k) ==> TasksAt(r.tasks, pid, key) == TasksAt(s.tasks, pid, key))
            && (forall t :: t in TasksAt(s.tasks, pid, key) ==> t in TasksAt(r.tasks, pid, key))
            && r.(tasks := s.tasks) == s
  {
    var k := FormatDateKey(target);
    var t := CopiedTask(task, freshId, k, now);
    assert Reduce(s, CopyTaskToDate(task, target), freshId, now) == s.(tasks := AppendTask(s.tasks, task.projectId, k, t));
    AppendTaskEffect(s.tasks, task.projectId, k, t, pid, key);
  }

  /** Both task-adding actions keep a project's date keys distinct. */
  lemma {:induction false} AddKeepsKeysDistinct(s: State, a: Action, freshId: string, now: string)
    requires a.AddTask? || a.CopyTaskToDate? || a.DeleteTask?
    requires forall p :: p in s.tasks ==> DistinctKeys(s.tasks[p])
    ensures var r := Reduce(s, a, freshId, now);
            forall p :: p in r.tasks ==> DistinctKeys(r.tasks[p])
  {
    var r := Reduce(s, a, freshId, now);
    var pid := if a.CopyTaskToDate? then a.task.projectId else a.projectId;
    var key := if a.AddTask? then FormatDateKey(a.date) else if a.CopyTaskToDate? then FormatDateKey(a.targetDate) else a.dateKey;
    var b := ProjectBuckets(s.tasks, pid);
    var before := Lookup(b, key).GetOr([]);
    var ts := if a.DeleteTask? then Filter(before, KeepOtherTasks(a.taskId))
              else if a.AddTask? then before + [NewTask(freshId, pid, key, a.title, a.estimatedDays, now)]
              else before + [CopiedTask(a.task, freshId, key, now)];
    assert r.tasks == s.tasks[pid := Put(b, key, ts)];
    PutDistinct(b, key, ts);
  }

  // ---------------------------------------------------------------- provider helpers

  /** `toggleTheme`: `'light'` becomes `'dark'`; anything else becomes `'light'`. */
  function ToggleTheme(theme: string): (r: string)
    ensures r == "dark" <==> theme == "light"
    ensures r != "dark" ==> r == "light"
  {
    if theme == "light" then "dark" else "light"
  }

  /** Toggling twice from either named theme returns to it. */
  lemma {:induction false} ToggleThemeTwice(theme: string)
    requires theme == "light" || theme == "dark"
    ensures ToggleTheme(ToggleTheme(theme)) == theme
  {
  }

  /** The action `toggleTheme` dispatches. */
  function ToggleThemeAction(s: State): Action {
    SetTheme(ToggleTheme(s.theme))
  }

  /** `addProject(name)` dispatches ADD_PROJECT with only the name. */
  function AddProjectAction(name: string): Action {
    AddProject(name)
  }

  /** `getTasksForDate(projectId, date)`: the list under the date's key, or `[]`. */
  function GetTasksForDate(s: State, projectId: string, date: Moment): (r: seq<Task>)
    ensures projectId !in s.tasks ==> r == []
  {
    TasksAt(s.tasks, projectId, FormatDateKey(date))
  }

  /** Adding a task for a date makes it the last task `getTasksForDate` returns for any moment
      on that day. */
  lemma {:induction false} AddTaskThenGet(s: State, projectId: string, date: Moment, other: Moment, title: string,
                       days: Option<int>, freshId: string, now: string)
    requires IsSameDay(date, other)
    ensures var r := Reduce(s, AddTask(projectId, date, title, days), freshId, now);
            GetTasksForDate(r, projectId, other)
              == GetTasksForDate(s, projectId, other) + [NewTask(freshId, projectId, FormatDateKey(date), title, days, now)]
  {
    DateKeySameDay(date, other);
    AddTaskAppends(s, projectId, date, title, days, freshId, now, projectId, FormatDateKey(date));
  }

  /** `getCurrentProject`: the first project whose id is the selected one. */
  function CurrentProject(s: State): (r: Option<Project>)
    ensures r.Some? ==> r.value in s.projects && s.selectedProject == Some(r.value.id)
    ensures r.None? ==> s.selectedProject.None? || forall p :: p in s.projects ==> p.id != s.selectedProject.value
  {
    if s.selectedProject.None? then None else FindProject(s.projects, s.selectedProject.value)
  }

  /** `projects.find(p => p.id === id)`. */
  function FindProject(projects: seq<Project>, id: string): (r: Option<Project>)
    ensures r.Some? ==> r.value in projects && r.value.id == id
    ensures r.None? ==> forall p :: p in projects ==> p.id != id
  {
    if projects == [] then None
    else if projects[0].id == id then Some(projects[0])
    else FindProject(projects[1..], id)
  }
}
