/**
 * The `tasks` slice of the application's Redux store: the list the screens show, a loading flag,
 * the last fetch error and the filter of the last filtered fetch. The reducer's cases are the
 * methods of `TasksState`, specified by the pure `Reduce`; the asynchronous thunks are methods
 * that call the database service and then dispatch their outcome.
 */
module TasksSlice {
  import opened Wrappers
  import opened TaskRecords
  import opened Database

  /** The actions the slice handles. */
  datatype Action =
    | ClearFilter
    | FetchTasksPending
    | FetchTasksFulfilled(tasks: seq<Task>)
    | FetchTasksRejected(message: Option<string>)
    | FetchFilteredPending
    | FetchFilteredFulfilled(tasks: seq<Task>, filter: TaskFilter)
    | FetchFilteredRejected(message: Option<string>)
    | CreateTaskFulfilled(task: Task)
    | RemoveTaskFulfilled(id: int)
    | ModifyTaskFulfilled(id: int, patch: TaskPatch)

  /** `TasksState` as a value. */
  datatype State = State(tasks: seq<Task>, loading: bool, error: Option<string>, currentFilter: TaskFilter)

  /** `initialState` */
  const InitialState := State([], false, None, EmptyFilter)

  /** The error recorded when a rejected fetch carries no message. */
  const FetchFailed := "Failed to fetch tasks"

  /** `action.error.message || 'Failed to fetch tasks'` */
  function ErrorMessage(message: Option<string>): (r: string)
    ensures r != ""
    ensures Truthy(message) ==> r == message.value
    ensures !Truthy(message) ==> r == FetchFailed
  {
    if Truthy(message) then message.value else FetchFailed
  }

  /** The actions that start a fetch. */
  predicate Starts(a: Action) {
    a.FetchTasksPending? || a.FetchFilteredPending?
  }

  /** The actions that settle a fetch, either way. */
  predicate Settles(a: Action) {
    a.FetchTasksFulfilled? || a.FetchTasksRejected? || a.FetchFilteredFulfilled? || a.FetchFilteredRejected?
  }

  /**
   * The reducer: the state after one action. Only fetches touch `loading` and `error`, only
   * `clearFilter` and a filtered fetch touch the filter, and only a fulfilled fetch or a task
   * action touches the list.
   */
  function Reduce(s: State, a: Action): (r: State)
    ensures Starts(a) ==> r.loading && r.error.None?
    ensures Settles(a) ==> !r.loading
    ensures !Starts(a) && !Settles(a) ==> r.loading == s.loading
    ensures (a.FetchTasksRejected? || a.FetchFilteredRejected?) ==> r.error.Some? && r.error.value != ""
    ensures !Starts(a) && !a.FetchTasksRejected? && !a.FetchFilteredRejected? ==> r.error == s.error
    ensures a.ClearFilter? ==> r.currentFilter == EmptyFilter
    ensures !a.ClearFilter? && !a.FetchFilteredFulfilled? ==> r.currentFilter == s.currentFilter
    ensures (a.FetchTasksFulfilled? || a.FetchFilteredFulfilled?) ==> r.tasks == a.tasks
    ensures a.CreateTaskFulfilled? ==> |r.tasks| == |s.tasks| + 1 && r.tasks[0] == a.task && r.tasks[1..] == s.tasks
    ensures a.RemoveTaskFulfilled? ==> forall k :: 0 <= k < |r.tasks| ==> r.tasks[k].id != Some(a.id) && r.tasks[k] in s.tasks
    ensures a.RemoveTaskFulfilled? ==> r.tasks == WithoutId(s.tasks, Some(a.id))
    ensures a.ModifyTaskFulfilled? ==> |r.tasks| == |s.tasks|
    ensures a.ModifyTaskFulfilled? ==> r.tasks == UpdateFirst(s.tasks, Some(a.id), a.patch)
    ensures (a.FetchTasksRejected? || a.FetchFilteredRejected?) ==> r.error == Some(ErrorMessage(a.message))
    ensures a.FetchFilteredFulfilled? ==> r.currentFilter == a.filter
    ensures a.ClearFilter? || Starts(a) || a.FetchTasksRejected? || a.FetchFilteredRejected? ==> r.tasks == s.tasks
    ensures ErrorIsMeaningful(s) ==> ErrorIsMeaningful(r)
  {
    match a
    case ClearFilter => s.(currentFilter := EmptyFilter)
    case FetchTasksPending => s.(loading := true, error := None)
    case FetchTasksFulfilled(tasks) => s.(loading := false, tasks := tasks)
    case FetchTasksRejected(message) => s.(loading := false, error := Some(ErrorMessage(message)))
    case FetchFilteredPending => s.(loading := true, error := None)
    case FetchFilteredFulfilled(tasks, filter) => s.(loading := false, tasks := tasks, currentFilter := filter)
    case FetchFilteredRejected(message) => s.(loading := false, error := Some(ErrorMessage(message)))
    case CreateTaskFulfilled(task) => s.(tasks := [task] + s.tasks)
    case RemoveTaskFulfilled(id) => s.(tasks := WithoutId(s.tasks, Some(id)))
    case ModifyTaskFulfilled(id, patch) => s.(tasks := UpdateFirst(s.tasks, Some(id), patch))
  }

  /** The recorded error, when there is one, is never the empty string. */
  predicate ErrorIsMeaningful(s: State) {
    s.error.None? || s.error.value != ""
  }

  /** The initial state has it, and every action keeps it. */
  lemma ReduceKeepsErrorMeaningful(s: State, a: Action)
    requires ErrorIsMeaningful(s)
    ensures ErrorIsMeaningful(InitialState)
    ensures ErrorIsMeaningful(Reduce(s, a))
  {
  }

  /** The actions on single tasks change the list and nothing else. */
  lemma TaskActionsTouchOnlyTasks(s: State, a: Action)
    requires a.CreateTaskFulfilled? || a.RemoveTaskFulfilled? || a.ModifyTaskFulfilled?
    ensures Reduce(s, a).loading == s.loading && Reduce(s, a).error == s.error
    ensures Reduce(s, a).currentFilter == s.currentFilter
  {
  }

  /** A pending fetch sets `loading` and clears the error; its settlement clears `loading` again. */
  lemma FetchLifecycle(s: State, tasks: seq<Task>, filter: TaskFilter, message: Option<string>)
    ensures Reduce(s, FetchTasksPending).loading && Reduce(s, FetchTasksPending).error.None?
    ensures !Reduce(s, FetchTasksFulfilled(tasks)).loading && !Reduce(s, FetchTasksRejected(message)).loading
    ensures !Reduce(s, FetchFilteredFulfilled(tasks, filter)).loading
    ensures Reduce(s, FetchFilteredRejected(message)).error == Some(ErrorMessage(message))
  {
  }

  /** A successful fetch does not clear an earlier error: only a new pending fetch does. */
  lemma FulfilledKeepsError(s: State, tasks: seq<Task>, filter: TaskFilter)
    ensures Reduce(s, FetchTasksFulfilled(tasks)).error == s.error
    ensures Reduce(s, FetchFilteredFulfilled(tasks, filter)).error == s.error
  {
  }

  /** An unfiltered fetch leaves the remembered filter in place; only `clearFilter` resets it. */
  lemma UnfilteredFetchKeepsFilter(s: State, tasks: seq<Task>)
    ensures Reduce(s, FetchTasksFulfilled(tasks)).currentFilter == s.currentFilter
    ensures Reduce(s, ClearFilter).currentFilter == EmptyFilter
    ensures Reduce(s, ClearFilter).tasks == s.tasks
  {
  }

  /** Removing the same id twice is removing it once. */
  lemma RemoveIsIdempotent(s: State, id: int)
    ensures Reduce(Reduce(s, RemoveTaskFulfilled(id)), RemoveTaskFulfilled(id)) == Reduce(s, RemoveTaskFulfilled(id))
  {
    WithoutIdTwice(s.tasks, Some(id));
  }

  /** Creating a task and removing its id leaves the list as removing the id alone would. */
  lemma RemoveUndoesCreate(s: State, task: Task, id: int)
    requires task.id == Some(id)
    ensures Reduce(Reduce(s, CreateTaskFulfilled(task)), RemoveTaskFulfilled(id)) == Reduce(s, RemoveTaskFulfilled(id))
  {
    var created := Reduce(s, CreateTaskFulfilled(task));
    assert created.tasks == [task] + s.tasks;
    WithoutIdAppend([task], s.tasks, Some(id));
    assert WithoutId([task], Some(id)) == [];
    assert WithoutId(created.tasks, Some(id)) == WithoutId(s.tasks, Some(id));
  }

  /** The slice's state, updated in place by the reducer's cases. */
  class TasksState {
    var tasks: seq<Task>
    var loading: bool
    var error: Option<string>
    var currentFilter: TaskFilter

    /** `initialState` */
    constructor()
      ensures Snapshot() == InitialState
    {
      tasks, loading, error, currentFilter := [], false, None, EmptyFilter;
    }

    function Snapshot(): State
      reads this
    {
      State(tasks, loading, error, currentFilter)
    }

    /** `clearFilter` */
    method ClearFilter()
      modifies this
      ensures currentFilter == EmptyFilter
      ensures tasks == old(tasks) && loading == old(loading) && error == old(error)
    {
      currentFilter := EmptyFilter;
    }

    /** `fetchTasks.pending` and `fetchFilteredTasks.pending` */
    method Pending()
      modifies this
      ensures loading && error.None?
      ensures tasks == old(tasks) && currentFilter == old(currentFilter)
    {
      loading := true;
      error := None;
    }

    /** `fetchTasks.fulfilled` */
    method FetchTasksFulfilled(payload: seq<Task>)
      modifies this
      ensures !loading && tasks == payload
      ensures error == old(error) && currentFilter == old(currentFilter)
    {
      loading := false;
      tasks := payload;
    }

    /** `fetchTasks.rejected` and `fetchFilteredTasks.rejected` */
    method Rejected(message: Option<string>)
      modifies this
      ensures !loading && error == Some(ErrorMessage(message))
      ensures tasks == old(tasks) && currentFilter == old(currentFilter)
    {
      loading := false;
      error := Some(ErrorMessage(message));
    }

    /** `fetchFilteredTasks.fulfilled` */
    method FetchFilteredFulfilled(payload: seq<Task>, filter: TaskFilter)
      modifies this
      ensures !loading && tasks == payload && currentFilter == filter
      ensures error == old(error)
    {
      loading := false;
      tasks := payload;
      currentFilter := filter;
    }

    /** `createTask.fulfilled`: the new task goes in front. */
    method CreateTaskFulfilled(task: Task)
      modifies this
      ensures tasks == [task] + old(tasks)
      ensures loading == old(loading) && error == old(error) && currentFilter == old(currentFilter)
    {
      tasks := [task] + tasks;
    }

    /** `removeTask.fulfilled` */
    method RemoveTaskFulfilled(id: int)
      modifies this
      ensures tasks == WithoutId(old(tasks), Some(id))
      ensures loading == old(loading) && error == old(error) && currentFilter == old(currentFilter)
    {
      tasks := WithoutId(tasks, Some(id));
    }

    /** `modifyTask.fulfilled`: the first task with the id is patched, if there is one. */
    method ModifyTaskFulfilled(id: int, patch: TaskPatch)
      modifies this
      ensures tasks == UpdateFirst(old(tasks), Some(id), patch)
      ensures loading == old(loading) && error == old(error) && currentFilter == old(currentFilter)
    {
      var index := FirstIndexWithId(tasks, Some(id));
      if index.Some? {
        tasks := tasks[index.value := Merge(tasks[index.value], patch)];
      }
    }

    /** The reducer applied to this state. */
    method Dispatch(a: Action)
      modifies this
      ensures Snapshot() == Reduce(old(Snapshot()), a)
    {
      match a
      case ClearFilter => ClearFilter();
      case FetchTasksPending => Pending();
      case FetchTasksFulfilled(payload) => FetchTasksFulfilled(payload);
      case FetchTasksRejected(message) => Rejected(message);
      case FetchFilteredPending => Pending();
      case FetchFilteredFulfilled(payload, filter) => FetchFilteredFulfilled(payload, filter);
      case FetchFilteredRejected(message) => Rejected(message);
      case CreateTaskFulfilled(task) => CreateTaskFulfilled(task);
      case RemoveTaskFulfilled(id) => RemoveTaskFulfilled(id);
      case ModifyTaskFulfilled(id, patch) => ModifyTaskFulfilled(id, patch);
    }
  }

  // ---------------------------------------------------------------- thunks

  /** `fetchTasks`: reading the database never fails, so the fetch is always fulfilled. */
  method FetchTasks(db: TaskDatabase, state: TasksState)
    modifies state
    ensures state.Snapshot() == Reduce(Reduce(old(state.Snapshot()), FetchTasksPending), FetchTasksFulfilled(db.Tasks()))
    ensures state.tasks == db.Tasks() && !state.loading && state.error.None?
  {
    state.Dispatch(FetchTasksPending);
    var tasks := db.GetAllTasks();
    state.Dispatch(FetchTasksFulfilled(tasks));
  }

  /** `fetchFilteredTasks`: an unparsable due date rejects it with the `RangeError`'s message. */
  method FetchFilteredTasks(db: TaskDatabase, state: TasksState, filter: TaskFilter, dateKey: string -> Option<string>)
    modifies state
    ensures FilterTasks(db.Tasks(), filter, dateKey).Ok? ==>
      state.tasks == FilterTasks(db.Tasks(), filter, dateKey).value && state.currentFilter == filter && state.error.None?
    ensures FilterTasks(db.Tasks(), filter, dateKey).Err? ==>
      state.tasks == old(state.tasks) && state.currentFilter == old(state.currentFilter) && state.error == Some(InvalidTimeValue)
    ensures !state.loading
  {
    state.Dispatch(FetchFilteredPending);
    var r := db.GetTasksByFilter(filter, dateKey);
    match r
    case Ok(tasks) => state.Dispatch(FetchFilteredFulfilled(tasks, filter));
    case Err(message) => state.Dispatch(FetchFilteredRejected(Some(message)));
  }

  /**
   * `createTask`: the task comes back under the id the database chose. The database swallows a
   * failed write, so the thunk is fulfilled all the same and the list then shows a task the store lacks.
   */
  method CreateTask(db: TaskDatabase, state: TasksState, task: Task, writeError: Option<string>)
    modifies db, state
    ensures state.tasks == [WithId(task, Some(NewId(old(db.Tasks()))))] + old(state.tasks)
    ensures state.loading == old(state.loading) && state.error == old(state.error) && state.currentFilter == old(state.currentFilter)
    ensures db.stored == if writeError.None? then Some(Added(old(db.Tasks()), task)) else old(db.stored)
    ensures old(state.tasks == db.Tasks()) && writeError.None? ==> state.tasks == db.Tasks()
    ensures old(state.tasks == db.Tasks()) && writeError.Some? ==> state.tasks != db.Tasks()
  {
    var id := db.AddTask(task, writeError);
    state.Dispatch(CreateTaskFulfilled(WithId(task, Some(id))));
  }

  /** `removeTask` */
  method RemoveTask(db: TaskDatabase, state: TasksState, id: int, writeError: Option<string>)
    modifies db, state
    ensures state.tasks == WithoutId(old(state.tasks), Some(id))
    ensures state.loading == old(state.loading) && state.error == old(state.error) && state.currentFilter == old(state.currentFilter)
    ensures db.stored == if writeError.None? then Some(WithoutId(old(db.Tasks()), Some(id))) else old(db.stored)
    ensures old(state.tasks == db.Tasks()) && writeError.None? ==> state.tasks == db.Tasks()
  {
    db.DeleteTask(id, writeError);
    state.Dispatch(RemoveTaskFulfilled(id));
  }

  /** `modifyTask` */
  method ModifyTask(db: TaskDatabase, state: TasksState, id: int, patch: TaskPatch, writeError: Option<string>)
    modifies db, state
    ensures state.tasks == UpdateFirst(old(state.tasks), Some(id), patch)
    ensures state.loading == old(state.loading) && state.error == old(state.error) && state.currentFilter == old(state.currentFilter)
    ensures db.stored ==
      if FirstIndexWithId(old(db.Tasks()), Some(id)).Some? && writeError.None?
      then Some(UpdateFirst(old(db.Tasks()), Some(id), patch)) else old(db.stored)
    ensures old(state.tasks == db.Tasks()) && writeError.None? ==> state.tasks == db.Tasks()
  {
    db.UpdateTask(id, patch, writeError);
    state.Dispatch(ModifyTaskFulfilled(id, patch));
  }
}
