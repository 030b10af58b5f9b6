/**
 * The storage service: a second task store, kept as one JSON list under `@smart_voice_tasks`,
 * with string ids made from the clock and a random number. Unlike the database service it
 * appends new tasks, patches every task with a matching id, and passes a failed write on to
 * its caller.
 */
module Storage {
  import opened Wrappers
  import opened TaskRecords

  /** A task of the storage service: its id is a string. */
  type StoredTask = TaskRecord<string>

  /** `Omit<Task, 'id'>`: a task before it has an id. */
  type NewTask = TaskRecord<()>

  /** The number of tasks with the given id. */
  function CountId(tasks: seq<StoredTask>, id: string): nat {
    if tasks == [] then 0 else (if tasks[0].id == id then 1 else 0) + CountId(tasks[1..], id)
  }

  /** The list `addTask` writes: the old list with the new task last. */
  function Appended(tasks: seq<StoredTask>, task: NewTask, id: string): (r: seq<StoredTask>)
    ensures |r| == |tasks| + 1 && r[..|tasks|] == tasks
    ensures r[|tasks|] == WithId(task, id)
  {
    tasks + [WithId(task, id)]
  }

  lemma {:induction false} CountIdAppend(a: seq<StoredTask>, b: seq<StoredTask>, id: string)
    ensures CountId(a + b, id) == CountId(a, id) + CountId(b, id)
  {
    if a == [] {
      assert a + b == b;
    } else {
      assert (a + b)[1..] == a[1..] + b;
      CountIdAppend(a[1..], b, id);
    }
  }

  /** With an id no stored task has, the new task is the only one that carries it. */
  lemma {:induction false} FreshIdIsUnique(tasks: seq<StoredTask>, task: NewTask, id: string)
    requires CountId(tasks, id) == 0
    ensures CountId(Appended(tasks, task, id), id) == 1
  {
    CountIdAppend(tasks, [WithId(task, id)], id);
    assert [WithId(task, id)][1..] == [];
  }

  /** Deleting the id of a task just added with a fresh id restores the list. */
  lemma DeleteUndoesAppend(tasks: seq<StoredTask>, task: NewTask, id: string)
    requires forall k :: 0 <= k < |tasks| ==> tasks[k].id != id
    ensures WithoutId(Appended(tasks, task, id), id) == tasks
  {
    WithoutIdAppend(tasks, [WithId(task, id)], id);
    WithoutAbsentId(tasks, id);
    assert WithoutId([WithId(task, id)], id) == [];
  }

  /** The `@smart_voice_tasks` entry of the key-value store: `None` while absent, empty or unreadable. */
  class TaskStore {
    var stored: Option<seq<StoredTask>>

    constructor(initial: Option<seq<StoredTask>>)
      ensures stored == initial
    {
      stored := initial;
    }

    /** `getTasks`: the stored list, or `[]` when there is none. */
    function Tasks(): (r: seq<StoredTask>)
      reads this
      ensures stored.None? ==> r == []
      ensures stored.Some? ==> r == stored.value
    {
      stored.GetOr([])
    }

    /** `saveTasks`: a failed write (`writeError`) is thrown on to the caller. */
    method SaveTasks(tasks: seq<StoredTask>, writeError: Option<string>) returns (r: Result<(), string>)
      modifies this
      ensures writeError.None? ==> stored == Some(tasks) && r.Ok?
      ensures writeError.Some? ==> stored == old(stored) && r == Err(writeError.value)
    {
      if writeError.None? {
        stored := Some(tasks);
        r := Ok(());
      } else {
        r := Err(writeError.value);
      }
    }

    /** `addTask`; `freshId` stands for the clock-and-random id string. */
    method AddTask(task: NewTask, freshId: string, writeError: Option<string>) returns (r: Result<StoredTask, string>)
      modifies this
      ensures writeError.None? ==> stored == Some(Appended(old(Tasks()), task, freshId)) && r == Ok(WithId(task, freshId))
      ensures writeError.Some? ==> stored == old(stored) && r == Err(writeError.value)
    {
      var tasks := Tasks();
      var newTask := WithId(task, freshId);
      tasks := tasks + [newTask];
      var saved := SaveTasks(tasks, writeError);
      match saved
      case Ok(_) => r := Ok(newTask);
      case Err(e) => r := Err(e);
    }

    /** `deleteTask`: every task with the id goes. */
    method DeleteTask(id: string, writeError: Option<string>) returns (r: Result<(), string>)
      modifies this
      ensures writeError.None? ==> stored == Some(WithoutId(old(Tasks()), id)) && r.Ok?
      ensures writeError.Some? ==> stored == old(stored) && r == Err(writeError.value)
    {
      var tasks := Tasks();
      var filtered := WithoutId(tasks, id);
      r := SaveTasks(filtered, writeError);
    }

    /** `updateTask`: every task with the id is patched, and the list is written back even when none was. */
    method UpdateTask(id: string, updates: Patch<string>, writeError: Option<string>) returns (r: Result<(), string>)
      modifies this
      ensures writeError.None? ==> stored == Some(UpdateAll(old(Tasks()), id, updates)) && r.Ok?
      ensures writeError.Some? ==> stored == old(stored) && r == Err(writeError.value)
    {
      var tasks := Tasks();
      var updated := UpdateAll(tasks, id, updates);
      r := SaveTasks(updated, writeError);
    }
  }
}
