/**
 * The database service: tasks kept as one JSON list under the key `@tasks` in the device's
 * key-value store, with numeric ids it assigns itself. Every operation reads the whole list,
 * changes a local copy and writes the whole list back; a failed write is logged and swallowed.
 */
module Database {
  import opened Wrappers
  import opened Lexicons
  import opened TaskRecords

  /** A task of the database service: its id is an optional number. */
  type Task = TaskRecord<Option<int>>

  /** A patch for it: `Partial<Task>`. */
  type TaskPatch = Patch<Option<int>>

  /** The message of the `RangeError` that `toISOString` throws on an invalid date. */
  const InvalidTimeValue := "Invalid time value"

  // ---------------------------------------------------------------- ids

  /** `t.id || 0` */
  function IdOrZero(t: Task): int {
    t.id.GetOr(0)
  }

  /** `Math.max(...tasks.map(t => t.id || 0))` */
  function MaxId(tasks: seq<Task>): (m: int)
    requires tasks != []
    ensures forall k :: 0 <= k < |tasks| ==> IdOrZero(tasks[k]) <= m
    ensures exists k :: 0 <= k < |tasks| && m == IdOrZero(tasks[k])
  {
    if |tasks| == 1 then IdOrZero(tasks[0])
    else
      var rest := MaxId(tasks[1..]);
      assert forall k :: 1 <= k < |tasks| ==> tasks[k] == tasks[1..][k - 1];
      if IdOrZero(tasks[0]) >= rest then IdOrZero(tasks[0]) else rest
  }

  /** The id `addTask` gives a new task: 1 in an empty store, else one more than the largest id. */
  function NewId(tasks: seq<Task>): (n: int)
    ensures tasks == [] ==> n == 1
    ensures forall k :: 0 <= k < |tasks| ==> IdOrZero(tasks[k]) < n
    ensures tasks != [] ==> exists k :: 0 <= k < |tasks| && n == IdOrZero(tasks[k]) + 1
  {
    if |tasks| > 0 then MaxId(tasks) + 1 else 1
  }

  /** No stored task already carries the new id, so it names the new task alone. */
  lemma NewIdIsFresh(tasks: seq<Task>)
    ensures forall k :: 0 <= k < |tasks| ==> tasks[k].id != Some(NewId(tasks))
  {
    forall k | 0 <= k < |tasks|
      ensures tasks[k].id != Some(NewId(tasks))
    {
      assert IdOrZero(tasks[k]) < NewId(tasks);
    }
  }

  /** The list `addTask` writes: the task under its new id, in front of the old list. */
  function Added(tasks: seq<Task>, task: Task): (r: seq<Task>)
    ensures |r| == |tasks| + 1 && r[1..] == tasks
    ensures r[0].id == Some(NewId(tasks)) && r[0] == WithId(task, Some(NewId(tasks)))
  {
    [WithId(task, Some(NewId(tasks)))] + tasks
  }

  /** Deleting a task just added restores the list as it was. */
  lemma DeleteUndoesAdd(tasks: seq<Task>, task: Task)
    ensures WithoutId(Added(tasks, task), Some(NewId(tasks))) == tasks
  {
    var n := NewId(tasks);
    NewIdIsFresh(tasks);
    WithoutAbsentId(tasks, Some(n));
    WithoutIdAppend([WithId(task, Some(n))], tasks, Some(n));
  }

  /** Looking the new id up finds the task just added. */
  lemma FindAfterAdd(tasks: seq<Task>, task: Task)
    ensures FindWithId(Added(tasks, task), Some(NewId(tasks))) == Some(WithId(task, Some(NewId(tasks))))
  {
    assert FirstIndexWithId(Added(tasks, task), Some(NewId(tasks))) == Some(0);
  }

  // ---------------------------------------------------------------- filter

  /**
   * The callback of `getTasksByFilter` on one task. `dateKey` stands for
   * `new Date(d).toISOString().split('T')[0]`, `None` where that throws.
   */
  function Keep(task: Task, filter: TaskFilter, dateKey: string -> Option<string>): (r: Result<bool, string>)
    ensures r == Ok(true) <==>
      (Truthy(filter.priority) ==> PriorityName(task.priority) == filter.priority.value) &&
      (Truthy(filter.category) ==> task.category == filter.category.value) &&
      (Truthy(filter.date) && Truthy(task.dueDate) ==> dateKey(task.dueDate.value) == Some(filter.date.value))
    ensures r.Err? <==>
      (Truthy(filter.priority) ==> PriorityName(task.priority) == filter.priority.value) &&
      (Truthy(filter.category) ==> task.category == filter.category.value) &&
      Truthy(filter.date) && Truthy(task.dueDate) && dateKey(task.dueDate.value).None?
    ensures r.Err? ==> r.error == InvalidTimeValue
  {
    if Truthy(filter.priority) && PriorityName(task.priority) != filter.priority.value then Ok(false)
    else if Truthy(filter.category) && task.category != filter.category.value then Ok(false)
    else if Truthy(filter.date) && Truthy(task.dueDate) then
      match dateKey(task.dueDate.value)
      case None => Err(InvalidTimeValue)
      case Some(key) => Ok(key == filter.date.value)
    else Ok(true)
  }

  /** `tasks.filter(...)`: the first throw of the callback rejects the whole call. */
  function FilterTasks(tasks: seq<Task>, filter: TaskFilter, dateKey: string -> Option<string>): (r: Result<seq<Task>, string>)
    ensures r.Err? <==> exists k :: 0 <= k < |tasks| && Keep(tasks[k], filter, dateKey).Err?
    ensures r.Err? ==> r.error == InvalidTimeValue
    ensures r.Ok? ==> |r.value| <= |tasks|
    ensures r.Ok? ==> forall k :: 0 <= k < |r.value| ==> r.value[k] in tasks && Keep(r.value[k], filter, dateKey) == Ok(true)
    ensures r.Ok? ==> forall k :: 0 <= k < |tasks| && Keep(tasks[k], filter, dateKey) == Ok(true) ==> tasks[k] in r.value
  {
    if tasks == [] then Ok([])
    else
      assert forall k :: 1 <= k < |tasks| ==> tasks[k] == tasks[1..][k - 1];
      match Keep(tasks[0], filter, dateKey)
      case Err(e) => Err(e)
      case Ok(keep) =>
        match FilterTasks(tasks[1..], filter, dateKey)
        case Err(e) => Err(e)
        case Ok(rest) => Ok(if keep then [tasks[0]] + rest else rest)
  }

  /** Filtering distributes over concatenation, so the kept tasks stay in their order. */
  lemma {:induction false} FilterTasksAppend(a: seq<Task>, b: seq<Task>, filter: TaskFilter, dateKey: string -> Option<string>)
    requires FilterTasks(a + b, filter, dateKey).Ok?
    ensures FilterTasks(a, filter, dateKey).Ok? && FilterTasks(b, filter, dateKey).Ok?
    ensures FilterTasks(a + b, filter, dateKey).value == FilterTasks(a, filter, dateKey).value + FilterTasks(b, filter, dateKey).value
  {
    if a == [] {
      assert a + b == b;
    } else {
      assert (a + b)[1..] == a[1..] + b;
      FilterTasksAppend(a[1..], b, filter, dateKey);
    }
  }

  /** The empty filter returns every task, in order. */
  lemma {:induction false} EmptyFilterKeepsAll(tasks: seq<Task>, dateKey: string -> Option<string>)
    ensures FilterTasks(tasks, EmptyFilter, dateKey) == Ok(tasks)
  {
    if tasks != [] {
      EmptyFilterKeepsAll(tasks[1..], dateKey);
      assert tasks == [tasks[0]] + tasks[1..];
    }
  }

  /** Without a date in the filter, nothing is parsed: the call cannot fail and ignores `dateKey`. */
  lemma {:induction false} NoDateNeverFails(tasks: seq<Task>, filter: TaskFilter, k1: string -> Option<string>, k2: string -> Option<string>)
    requires !Truthy(filter.date)
    ensures FilterTasks(tasks, filter, k1).Ok?
    ensures FilterTasks(tasks, filter, k1) == FilterTasks(tasks, filter, k2)
  {
    if tasks != [] {
      NoDateNeverFails(tasks[1..], filter, k1, k2);
    }
  }

  /** A task without a due date passes the date test whatever the date in the filter. */
  lemma UndatedPassesDateTest(task: Task, date: string, dateKey: string -> Option<string>)
    requires !Truthy(task.dueDate)
    ensures Keep(task, TaskFilter(None, None, Some(date)), dateKey) == Ok(true)
  {
  }

  // ---------------------------------------------------------------- the store

  /** The `@tasks` entry of the key-value store: `None` while absent, empty or unreadable. */
  class TaskDatabase {
    var stored: Option<seq<Task>>

    constructor(initial: Option<seq<Task>>)
      ensures stored == initial
    {
      stored := initial;
    }

    /** `getTasks`: the stored list, or `[]` when there is none. */
    function Tasks(): (r: seq<Task>)
      reads this
      ensures stored.None? ==> r == []
      ensures stored.Some? ==> r == stored.value
    {
      stored.GetOr([])
    }

    /** `setTasks`: a failed write (`writeError`) is swallowed and leaves the store as it was. */
    method SetTasks(tasks: seq<Task>, writeError: Option<string>)
      modifies this
      ensures writeError.None? ==> stored == Some(tasks)
      ensures writeError.Some? ==> stored == old(stored)
    {
      if writeError.None? {
        stored := Some(tasks);
      }
    }

    /** `getAllTasks` */
    method GetAllTasks() returns (tasks: seq<Task>)
      ensures stored.None? ==> tasks == []
      ensures stored.Some? ==> tasks == stored.value
    {
      tasks := Tasks();
    }

    /** `addTask`: the new id is returned whether or not the write succeeded. */
    method AddTask(task: Task, writeError: Option<string>) returns (id: int)
      modifies this
      ensures id == NewId(old(Tasks()))
      ensures writeError.None? ==> stored == Some(Added(old(Tasks()), task))
      ensures writeError.Some? ==> stored == old(stored)
    {
      var tasks := Tasks();
      var newTask := WithId(task, Some(NewId(tasks)));
      tasks := [newTask] + tasks;
      SetTasks(tasks, writeError);
      id := newTask.id.value;
    }

    /** `getTaskById`: the first task with the id, `None` for `null`. */
    method GetTaskById(id: int) returns (r: Option<Task>)
      ensures r == FindWithId(Tasks(), Some(id))
      ensures r.Some? ==> FirstIndexWithId(Tasks(), Some(id)).Some? && r.value == Tasks()[FirstIndexWithId(Tasks(), Some(id)).value]
      ensures r.None? <==> forall k :: 0 <= k < |Tasks()| ==> Tasks()[k].id != Some(id)
    {
      r := FindWithId(Tasks(), Some(id));
    }

    /** `deleteTask`: every task with the id goes; the list is written back even when none did. */
    method DeleteTask(id: int, writeError: Option<string>)
      modifies this
      ensures writeError.None? ==> stored == Some(WithoutId(old(Tasks()), Some(id)))
      ensures writeError.Some? ==> stored == old(stored)
    {
      var tasks := Tasks();
      var filtered := WithoutId(tasks, Some(id));
      SetTasks(filtered, writeError);
    }

    /** `updateTask`: only the first task with the id is patched, and nothing is written when there is none. */
    method UpdateTask(id: int, patch: TaskPatch, writeError: Option<string>)
      modifies this
      ensures FirstIndexWithId(old(Tasks()), Some(id)).None? ==> stored == old(stored)
      ensures FirstIndexWithId(old(Tasks()), Some(id)).Some? && writeError.None? ==>
        stored == Some(UpdateFirst(old(Tasks()), Some(id), patch))
      ensures writeError.Some? ==> stored == old(stored)
    {
      var tasks := Tasks();
      var index := FirstIndexWithId(tasks, Some(id));
      if index.Some? {
        tasks := tasks[index.value := Merge(tasks[index.value], patch)];
        SetTasks(tasks, writeError);
      }
    }

    /** `getTasksByFilter` */
    method GetTasksByFilter(filter: TaskFilter, dateKey: string -> Option<string>) returns (r: Result<seq<Task>, string>)
      ensures r == FilterTasks(Tasks(), filter, dateKey)
    {
      r := FilterTasks(Tasks(), filter, dateKey);
    }
  }
}
