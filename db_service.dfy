/** The data transforms of `src/utils/dbService.js`: turning the rows of the `tasks` table into
    the app's nested map (`fetchTasks`), the defaults `createTask` inserts with, and the column
    map of `updateTask`. The Supabase calls themselves are not modelled: the rows they return
    and the row the database stores are parameters. */
module DbService {
  import opened Common
  import opened AppState

  /** A row of the `tasks` table; the nullable columns are options. */
  datatype Row = Row(
    id: string,
    projectId: string,
    date: string,
    title: string,
    content: Option<string>,
    status: Option<string>,
    priority: Option<string>,
    estimatedDays: Option<int>,
    createdAt: string)

  /** The object `fetchTasks` pushes for a row: content `''`, status `'not_started'`, priority
      `'normal'` and one day of effort stand in for missing (or falsy) columns. */
  function ToAppTask(row: Row): (t: Task)
    ensures t.id == row.id && t.projectId == row.projectId && t.date == row.date
    ensures t.title == row.title && t.createdAt == row.createdAt
    ensures t.content.Some? && t.priority.Some? && t.description.None?
    ensures t.status != "" && t.priority.value != "" && t.estimatedDays != 0
    ensures row.status.None? ==> t.status == "not_started"
    ensures row.status.Some? && row.status.value != "" ==> t.status == row.status.value
    ensures row.content.Some? ==> t.content == row.content
    ensures row.priority.Some? && row.priority.value != "" ==> t.priority == row.priority
    ensures row.estimatedDays.Some? && row.estimatedDays.value != 0 ==> t.estimatedDays == row.estimatedDays.value
    ensures row.priority.None? ==> t.priority == Some("normal")
    ensures row.estimatedDays.None? || row.estimatedDays == Some(0) ==> t.estimatedDays == 1
  {
    Task(row.id, row.projectId, row.date, row.title, None, Some(OrText(row.content, "")),
         OrText(row.status, "not_started"), Some(OrText(row.priority, "normal")),
         OrOne(row.estimatedDays), row.createdAt)
  }

  function ToAppTasks(rows: seq<Row>): (ts: seq<Task>)
    ensures |ts| == |rows| && forall i :: 0 <= i < |rows| ==> ts[i] == ToAppTask(rows[i])
  {
    if rows == [] then [] else [ToAppTask(rows[0])] + ToAppTasks(rows[1..])
  }

  /** The rows that belong in bucket `key` of project `projectId`. */
  function InBucket(projectId: string, key: string): Row -> bool {
    (row: Row) => row.projectId == projectId && row.date == key
  }

  // ---------------------------------------------------------------- fetchTasks

  /** The map `fetchTasks` has built after the given rows: each row in turn is appended to the
      bucket of its project and date, created empty when absent. */
  function Group(rows: seq<Row>): map<string, DateBuckets> {
    if rows == [] then map[]
    else
      var n := |rows| - 1;
      AppendTask(Group(rows[..n]), rows[n].projectId, rows[n].date, ToAppTask(rows[n]))
  }

  /** The grouping loop of `fetchTasks`; `data` is `None` when the query returned null. */
  method FetchTasks(data: Option<seq<Row>>) returns (tasksMap: map<string, DateBuckets>)
    ensures tasksMap == Group(data.GetOr([]))
  {
    var rows := data.GetOr([]);
    tasksMap := map[];
    var i := 0;
    while i < |rows|
      invariant 0 <= i <= |rows|
      invariant tasksMap == Group(rows[..i])
    {
      var row := rows[i];
      tasksMap := PushRow(tasksMap, row);
      assert rows[..i + 1][..i] == rows[..i];
      assert Group(rows[..i + 1]) == AppendTask(Group(rows[..i]), row.projectId, row.date, ToAppTask(row));
      i := i + 1;
    }
    assert rows[..|rows|] == rows;
  }

  /** One pass of the loop body: make sure the project and its date bucket exist, then push
      the mapped row onto that bucket. */
  method PushRow(before: map<string, DateBuckets>, row: Row) returns (tasksMap: map<string, DateBuckets>)
    ensures tasksMap == AppendTask(before, row.projectId, row.date, ToAppTask(row))
  {
    tasksMap := before;
    var projectId := row.projectId;
    var dateKey := row.date;
    if projectId !in tasksMap {
      tasksMap := tasksMap[projectId := []];
    }
    assert tasksMap[projectId] == ProjectBuckets(before, projectId) && tasksMap.Keys == before.Keys + {projectId};
    if Lookup(tasksMap[projectId], dateKey).None? {
      tasksMap := tasksMap[projectId := Put(tasksMap[projectId], dateKey, [])];
    }
    var projectTasks := tasksMap[projectId];
    var dateTasks := Lookup(projectTasks, dateKey).value;
    SameOutside(tasksMap, before, projectId, Put(projectTasks, dateKey, dateTasks + [ToAppTask(row)]));
    tasksMap := tasksMap[projectId := Put(projectTasks, dateKey, dateTasks + [ToAppTask(row)])];
    PushIntoBucket(before, projectId, dateKey, projectTasks, ToAppTask(row));
  }

  /** Two maps that agree except at one key agree once that key is written. */
  lemma SameOutside<K, V>(m: map<K, V>, n: map<K, V>, k: K, v: V)
    requires m.Keys - {k} == n.Keys - {k}
    requires forall j :: j in m && j in n && j != k ==> m[j] == n[j]
    ensures m[k := v] == n[k := v]
  {
    assert m[k := v].Keys == (m.Keys - {k}) + {k};
    assert n[k := v].Keys == (n.Keys - {k}) + {k};
  }

  /** Writing a key twice keeps only the second write. */
  lemma {:induction false} PutPut(b: DateBuckets, key: string, first: seq<Task>, second: seq<Task>)
    ensures Put(Put(b, key, first), key, second) == Put(b, key, second)
  {
    if b != [] && b[0].key != key {
      PutPut(b[1..], key, first, second);
    }
  }

  /** One loop step of `fetchTasks` is `AppendTask`: creating the project entry and the bucket
      first changes nothing the push does not overwrite. */
  lemma {:induction false} PushIntoBucket(m: map<string, DateBuckets>, projectId: string, key: string, b: DateBuckets, t: Task)
    requires var p := ProjectBuckets(m, projectId);
             b == if Lookup(p, key).Some? then p else Put(p, key, [])
    ensures m[projectId := Put(b, key, Lookup(b, key).value + [t])] == AppendTask(m, projectId, key, t)
  {
    var p := ProjectBuckets(m, projectId);
    LookupPut(p, key, [], key);
    if Lookup(p, key).None? {
      PutPut(p, key, [], [t]);
      assert [] + [t] == [t];
    }
  }

  /** Every bucket of the fetched map holds exactly the rows of its project and date, mapped to
      app tasks, in the order the rows came (ascending `created_at`). */
  lemma {:induction false} GroupBucket(rows: seq<Row>, projectId: string, key: string)
    ensures TasksAt(Group(rows), projectId, key) == ToAppTasks(Filter(rows, InBucket(projectId, key)))
  {
    if rows != [] {
      var n := |rows| - 1;
      var init, last := rows[..n], rows[n];
      GroupBucket(init, projectId, key);
      AppendTaskEffect(Group(init), last.projectId, last.date, ToAppTask(last), projectId, key);
      SplitLast(rows);
      FilterSnoc(init, last, InBucket(projectId, key));
      var kept := Filter(init, InBucket(projectId, key));
      if InBucket(projectId, key)(last) {
        ToAppTasksSnoc(kept, last);
      } else {
        assert kept + [] == kept;
      }
    }
  }

  /** So a bucket holds as many tasks as there are rows of its project and date. */
  lemma {:induction false} GroupBucketSize(rows: seq<Row>, projectId: string, key: string)
    ensures |TasksAt(Group(rows), projectId, key)| == CountWhere(rows, InBucket(projectId, key))
  {
    GroupBucket(rows, projectId, key);
  }

  lemma SplitLast<T>(s: seq<T>)
    requires s != []
    ensures s == s[..|s| - 1] + [s[|s| - 1]]
  {
  }

  lemma {:induction false} FilterSnoc<T>(s: seq<T>, x: T, keep: T -> bool)
    ensures Filter(s + [x], keep) == Filter(s, keep) + (if keep(x) then [x] else [])
  {
    FilterConcat(s, [x], keep);
    assert [x][1..] == [];
  }

  lemma {:induction false} ToAppTasksSnoc(rows: seq<Row>, row: Row)
    ensures ToAppTasks(rows + [row]) == ToAppTasks(rows) + [ToAppTask(row)]
  {
  }

  /** Every row lands in the bucket of its own project and date. */
  lemma {:induction false} RowIsPlaced(rows: seq<Row>, i: nat)
    requires i < |rows|
    ensures ToAppTask(rows[i]) in TasksAt(Group(rows), rows[i].projectId, rows[i].date)
  {
    var row := rows[i];
    GroupBucket(rows, row.projectId, row.date);
    var kept := Filter(rows, InBucket(row.projectId, row.date));
    assert row in kept;
    var k :| 0 <= k < |kept| && kept[k] == row;
    assert ToAppTasks(kept)[k] == ToAppTask(row);
  }

  /** The fetched map has an entry for a project exactly when some row belongs to it. */
  lemma {:induction false} GroupProjects(rows: seq<Row>, projectId: string)
    ensures projectId in Group(rows) <==> exists r :: r in rows && r.projectId == projectId
  {
    if rows != [] {
      var n := |rows| - 1;
      var init, last := rows[..n], rows[n];
      GroupProjects(init, projectId);
      SplitLast(rows);
      assert forall r :: r in rows <==> r in init || r == last;
      assert projectId in Group(rows) <==> projectId in Group(init) || projectId == last.projectId;
    }
  }

  /** A project's buckets as `fetchTasks` leaves them: one bucket per date, none empty. */
  predicate FilledBuckets(b: DateBuckets) {
    DistinctKeys(b) && forall j :: 0 <= j < |b| ==> b[j].tasks != []
  }

  /** A bucket is created only to receive a task: no bucket of the fetched map is empty, and no
      project has two buckets for one date. */
  lemma {:induction false} GroupBucketsFilled(rows: seq<Row>, projectId: string)
    requires projectId in Group(rows)
    ensures FilledBuckets(Group(rows)[projectId])
  {
    var n := |rows| - 1;
    var m, last := Group(rows[..n]), rows[n];
    var b := ProjectBuckets(m, last.projectId);
    if last.projectId == projectId {
      if projectId in m {
        GroupBucketsFilled(rows[..n], projectId);
      }
      PutFilled(b, last.date, Lookup(b, last.date).GetOr([]) + [ToAppTask(last)]);
    } else {
      GroupBucketsFilled(rows[..n], projectId);
    }
  }

  /** Writing a non-empty list keeps a project's buckets filled. */
  lemma {:induction false} PutFilled(b: DateBuckets, key: string, tasks: seq<Task>)
    requires FilledBuckets(b) && tasks != []
    ensures FilledBuckets(Put(b, key, tasks))
  {
    PutDistinct(b, key, tasks);
    PutBuckets(b, key, tasks);
    var r := Put(b, key, tasks);
    forall j | 0 <= j < |r| ensures r[j].tasks != [] {
      assert r[j] in r;
      if r[j] in b {
        var k :| 0 <= k < |b| && b[k] == r[j];
      }
    }
  }

  /** The buckets after a write are the old ones and the written one. */
  lemma {:induction false} PutBuckets(b: DateBuckets, key: string, tasks: seq<Task>)
    ensures forall x :: x in Put(b, key, tasks) ==> x in b || x == Bucket(key, tasks)
  {
    if b != [] && b[0].key != key {
      PutBuckets(b[1..], key, tasks);
    }
  }

  // ---------------------------------------------------------------- createTask

  /** The app-side object handed to `createTask`; its optional keys are options. */
  datatype TaskDraft = TaskDraft(
    projectId: string,
    date: string,
    title: string,
    content: Option<string>,
    status: Option<string>,
    priority: Option<string>,
    estimatedDays: Option<int>)

  /** The record `createTask` inserts for the signed-in user. */
  datatype Insert = Insert(
    userId: string,
    projectId: string,
    date: string,
    title: string,
    content: string,
    status: string,
    priority: string,
    estimatedDays: int)

  function InsertValues(userId: string, d: TaskDraft): Insert {
    Insert(userId, d.projectId, d.date, d.title, OrText(d.content, ""), OrText(d.status, "not_started"),
           OrText(d.priority, "normal"), OrOne(d.estimatedDays))
  }

  /** The row the database stores for an insert, with the id and timestamp it assigns. */
  function StoredRow(ins: Insert, id: string, createdAt: string): Row {
    Row(id, ins.projectId, ins.date, ins.title, Some(ins.content), Some(ins.status),
        Some(ins.priority), Some(ins.estimatedDays), createdAt)
  }

  /** The app-format object `createTask` and `updateTask` return: only `content` gets a
      default, the other columns are passed through as stored. */
  datatype Returned = Returned(
    id: string,
    projectId: string,
    date: string,
    title: string,
    content: string,
    status: Option<string>,
    priority: Option<string>,
    estimatedDays: Option<int>,
    createdAt: string)

  function ReturnedOf(row: Row): (r: Returned)
    ensures r.content == OrText(row.content, "")
  {
    Returned(row.id, row.projectId, row.date, row.title, OrText(row.content, ""), row.status,
             row.priority, row.estimatedDays, row.createdAt)
  }

  /** `createTask` inserts with the defaults `fetchTasks` applies: reading the stored row back
      through the fetch mapping gives the draft with those defaults, and the object `createTask`
      returns agrees with it on every mapped column. */
  lemma {:induction false} CreateDefaultsMatchFetch(userId: string, d: TaskDraft, id: string, createdAt: string)
    ensures var row := StoredRow(InsertValues(userId, d), id, createdAt);
            var t := ToAppTask(row);
            var r := ReturnedOf(row);
            t.content == Some(OrText(d.content, "")) && t.status == OrText(d.status, "not_started")
            && t.priority == Some(OrText(d.priority, "normal")) && t.estimatedDays == OrOne(d.estimatedDays)
            && Some(r.content) == t.content && r.status == Some(t.status) && r.priority == t.priority
            && r.estimatedDays == Some(t.estimatedDays) && r.id == t.id && r.date == t.date
  {
    var ins := InsertValues(userId, d);
    assert OrText(Some(ins.status), "not_started") == ins.status;
    assert OrText(Some(ins.priority), "normal") == ins.priority;
    assert OrText(Some(ins.content), "") == ins.content;
  }

  // ---------------------------------------------------------------- updateTask

  /** The columns `updateTask` may write; `None` is a column left out of the update. */
  datatype DbUpdates = DbUpdates(
    title: Option<string>,
    content: Option<string>,
    status: Option<string>,
    priority: Option<string>,
    estimatedDays: Option<int>)

  /** `updateTask`'s `dbUpdates`, filled one known key at a time. */
  method ToDbUpdates(updates: TaskPatch) returns (dbUpdates: DbUpdates)
    ensures dbUpdates == ColumnsOf(updates)
  {
    dbUpdates := DbUpdates(None, None, None, None, None);
    if updates.title.Some? { dbUpdates := dbUpdates.(title := updates.title); }
    if updates.content.Some? { dbUpdates := dbUpdates.(content := updates.content); }
    if updates.status.Some? { dbUpdates := dbUpdates.(status := updates.status); }
    if updates.priority.Some? { dbUpdates := dbUpdates.(priority := updates.priority); }
    if updates.estimatedDays.Some? { dbUpdates := dbUpdates.(estimatedDays := updates.estimatedDays); }
  }

  /** The five known keys of a patch, renamed to their columns; every other key is dropped. */
  function ColumnsOf(u: TaskPatch): DbUpdates {
    DbUpdates(u.title, u.content, u.status, u.priority, u.estimatedDays)
  }

  /** The row after the database applies an update: the named columns change, nothing else. */
  function ApplyUpdates(row: Row, d: DbUpdates): Row {
    row.(title := d.title.GetOr(row.title),
         content := if d.content.Some? then d.content else row.content,
         status := if d.status.Some? then d.status else row.status,
         priority := if d.priority.Some? then d.priority else row.priority,
         estimatedDays := if d.estimatedDays.Some? then d.estimatedDays else row.estimatedDays)
  }

  /** Keys outside the five known ones, the date and the description among them, never reach
      the database. */
  lemma {:induction false} UpdateDropsOtherKeys(u: TaskPatch, date: Option<string>, description: Option<string>)
    ensures ColumnsOf(u.(date := date, description := description)) == ColumnsOf(u)
    ensures ColumnsOf(u) == ColumnsOf(TaskPatch(u.title, None, u.content, u.status, u.priority, u.estimatedDays, None))
  {
  }

  /** Mapping the app's fields to columns and reading the updated row back is the identity on
      the title, status, priority and effort the patch carries, keeps every other column, and
      gives `''` for a null content. */
  lemma {:induction false} UpdateRoundTrip(row: Row, u: TaskPatch)
    ensures var r := ReturnedOf(ApplyUpdates(row, ColumnsOf(u)));
            r.id == row.id && r.projectId == row.projectId && r.date == row.date && r.createdAt == row.createdAt
            && r.title == u.title.GetOr(row.title)
            && (u.status.Some? ==> r.status == u.status) && (u.status.None? ==> r.status == row.status)
            && (u.priority.Some? ==> r.priority == u.priority) && (u.priority.None? ==> r.priority == row.priority)
            && (u.estimatedDays.Some? ==> r.estimatedDays == u.estimatedDays)
            && (u.estimatedDays.None? ==> r.estimatedDays == row.estimatedDays)
            && (u.content.Some? ==> r.content == OrText(u.content, ""))
            && (u.content.None? && row.content.None? ==> r.content == "")
  {
  }
}
