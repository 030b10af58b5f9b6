/**
 * The task record both stores keep, and the list operations they share. The two stores differ
 * only in the type of the id: an optional number in the database service and the reducer, a
 * string in the storage service; the record is generic in it.
 */
module TaskRecords {
  import opened Wrappers
  import opened Lexicons

  /** `interface Task`; the optional fields are `Option`s. */
  datatype TaskRecord<Id> = TaskRecord(
    id: Id,
    name: string,
    description: Option<string>,
    dueDate: Option<string>,
    priority: Priority,
    category: string,
    reminderMinutes: Option<int>,
    dependency: Option<string>,
    createdAt: string,
    notificationId: Option<string>)

  /** `Partial<Task>`: each field present (`Some`) overrides, each absent field keeps the old value. */
  datatype Patch<Id> = Patch(
    id: Option<Id>,
    name: Option<string>,
    description: Option<Option<string>>,
    dueDate: Option<Option<string>>,
    priority: Option<Priority>,
    category: Option<string>,
    reminderMinutes: Option<Option<int>>,
    dependency: Option<Option<string>>,
    createdAt: Option<string>,
    notificationId: Option<Option<string>>)

  /** The patch with no field present: `{}`. */
  function NoChange<Id>(): Patch<Id> {
    Patch(None, None, None, None, None, None, None, None, None, None)
  }

  /** One field after a spread: the patch's value when it has one, else the old value. */
  ghost predicate Overrides<T>(field: Option<T>, before: T, after: T) {
    (field.Some? ==> after == field.value) && (field.None? ==> after == before)
  }

  /** `{ ...t, ...p }` */
  function Merge<Id>(t: TaskRecord<Id>, p: Patch<Id>): (r: TaskRecord<Id>)
    ensures Overrides(p.id, t.id, r.id)
    ensures Overrides(p.name, t.name, r.name)
    ensures Overrides(p.description, t.description, r.description)
    ensures Overrides(p.dueDate, t.dueDate, r.dueDate)
    ensures Overrides(p.priority, t.priority, r.priority)
    ensures Overrides(p.category, t.category, r.category)
    ensures Overrides(p.reminderMinutes, t.reminderMinutes, r.reminderMinutes)
    ensures Overrides(p.dependency, t.dependency, r.dependency)
    ensures Overrides(p.createdAt, t.createdAt, r.createdAt)
    ensures Overrides(p.notificationId, t.notificationId, r.notificationId)
  {
    TaskRecord(
      p.id.GetOr(t.id),
      p.name.GetOr(t.name),
      p.description.GetOr(t.description),
      p.dueDate.GetOr(t.dueDate),
      p.priority.GetOr(t.priority),
      p.category.GetOr(t.category),
      p.reminderMinutes.GetOr(t.reminderMinutes),
      p.dependency.GetOr(t.dependency),
      p.createdAt.GetOr(t.createdAt),
      p.notificationId.GetOr(t.notificationId))
  }

  /** The fields of `q` where present, else those of `p`: what spreading `p`, then `q`, sets. */
  function Then<Id>(p: Patch<Id>, q: Patch<Id>): Patch<Id> {
    Patch(
      if q.id.Some? then q.id else p.id,
      if q.name.Some? then q.name else p.name,
      if q.description.Some? then q.description else p.description,
      if q.dueDate.Some? then q.dueDate else p.dueDate,
      if q.priority.Some? then q.priority else p.priority,
      if q.category.Some? then q.category else p.category,
      if q.reminderMinutes.Some? then q.reminderMinutes else p.reminderMinutes,
      if q.dependency.Some? then q.dependency else p.dependency,
      if q.createdAt.Some? then q.createdAt else p.createdAt,
      if q.notificationId.Some? then q.notificationId else p.notificationId)
  }

  /** An empty patch changes nothing. */
  lemma MergeNoChange<Id>(t: TaskRecord<Id>)
    ensures Merge(t, NoChange()) == t
  {
  }

  /** Two patches in a row act as one: the later field wins. */
  lemma MergeTwice<Id>(t: TaskRecord<Id>, p: Patch<Id>, q: Patch<Id>)
    ensures Merge(Merge(t, p), q) == Merge(t, Then(p, q))
  {
  }

  /** Applying the same patch again changes nothing more. */
  lemma MergeIdempotent<Id>(t: TaskRecord<Id>, p: Patch<Id>)
    ensures Merge(Merge(t, p), p) == Merge(t, p)
  {
    MergeTwice(t, p, p);
    assert Then(p, p) == p;
  }

  /** `{ ...task, id }`: the same record under another id (and possibly another id type). */
  function WithId<A, B>(t: TaskRecord<A>, id: B): (r: TaskRecord<B>)
    ensures r.id == id
    ensures r.name == t.name && r.description == t.description && r.dueDate == t.dueDate
    ensures r.priority == t.priority && r.category == t.category && r.reminderMinutes == t.reminderMinutes
    ensures r.dependency == t.dependency && r.createdAt == t.createdAt && r.notificationId == t.notificationId
  {
    TaskRecord(id, t.name, t.description, t.dueDate, t.priority, t.category, t.reminderMinutes,
               t.dependency, t.createdAt, t.notificationId)
  }

  // ---------------------------------------------------------------- delete by id

  /** `tasks.filter(t => t.id !== id)` */
  function WithoutId<Id(==)>(tasks: seq<TaskRecord<Id>>, id: Id): (r: seq<TaskRecord<Id>>)
    ensures |r| <= |tasks|
    ensures forall k :: 0 <= k < |r| ==> r[k].id != id
    ensures forall k :: 0 <= k < |r| ==> r[k] in tasks
    ensures forall k :: 0 <= k < |tasks| && tasks[k].id != id ==> tasks[k] in r
  {
    if tasks == [] then []
    else (if tasks[0].id != id then [tasks[0]] else []) + WithoutId(tasks[1..], id)
  }

  /** Filtering distributes over concatenation, so the kept tasks stay in their order. */
  lemma {:induction false} WithoutIdAppend<Id>(a: seq<TaskRecord<Id>>, b: seq<TaskRecord<Id>>, id: Id)
    ensures WithoutId(a + b, id) == WithoutId(a, id) + WithoutId(b, id)
  {
    if a != [] {
      assert (a + b)[1..] == a[1..] + b;
      WithoutIdAppend(a[1..], b, id);
    } else {
      assert a + b == b;
    }
  }

  /** Nothing is removed when no task carries the id. */
  lemma {:induction false} WithoutAbsentId<Id>(tasks: seq<TaskRecord<Id>>, id: Id)
    requires forall k :: 0 <= k < |tasks| ==> tasks[k].id != id
    ensures WithoutId(tasks, id) == tasks
  {
    if tasks != [] {
      WithoutAbsentId(tasks[1..], id);
    }
  }

  /** Deleting twice is deleting once. */
  lemma WithoutIdTwice<Id>(tasks: seq<TaskRecord<Id>>, id: Id)
    ensures WithoutId(WithoutId(tasks, id), id) == WithoutId(tasks, id)
  {
    WithoutAbsentId(WithoutId(tasks, id), id);
  }

  /** Deletions of two ids can be made in either order. */
  lemma {:induction false} WithoutIdCommutes<Id>(tasks: seq<TaskRecord<Id>>, a: Id, b: Id)
    ensures WithoutId(WithoutId(tasks, a), b) == WithoutId(WithoutId(tasks, b), a)
  {
    if tasks != [] {
      var head, rest := tasks[0], tasks[1..];
      WithoutIdCommutes(rest, a, b);
      WithoutIdAppend(if head.id != a then [head] else [], WithoutId(rest, a), b);
      WithoutIdAppend(if head.id != b then [head] else [], WithoutId(rest, b), a);
    }
  }

  // ---------------------------------------------------------------- find by id

  /** `tasks.findIndex(t => t.id === id)`, `None` for -1. */
  function FirstIndexWithId<Id(==)>(tasks: seq<TaskRecord<Id>>, id: Id): (r: Option<nat>)
    ensures r.Some? ==> r.value < |tasks| && tasks[r.value].id == id
    ensures r.Some? ==> forall j :: 0 <= j < r.value ==> tasks[j].id != id
    ensures r.None? ==> forall j :: 0 <= j < |tasks| ==> tasks[j].id != id
  {
    if tasks == [] then None
    else if tasks[0].id == id then Some(0)
    else match FirstIndexWithId(tasks[1..], id)
      case Some(i) => Some(i + 1)
      case None => None
  }

  /** `tasks.find(t => t.id === id)` */
  function FindWithId<Id(==)>(tasks: seq<TaskRecord<Id>>, id: Id): (r: Option<TaskRecord<Id>>)
    ensures r.Some? ==> r.value in tasks && r.value.id == id
    ensures r.Some? ==> FirstIndexWithId(tasks, id).Some? && r.value == tasks[FirstIndexWithId(tasks, id).value]
    ensures r.None? <==> forall k :: 0 <= k < |tasks| ==> tasks[k].id != id
  {
    match FirstIndexWithId(tasks, id)
    case Some(i) => Some(tasks[i])
    case None => None
  }

  // ---------------------------------------------------------------- update by id

  /** `tasks[index] = { ...tasks[index], ...p }` at the first index with the id, if there is one. */
  function UpdateFirst<Id(==)>(tasks: seq<TaskRecord<Id>>, id: Id, p: Patch<Id>): (r: seq<TaskRecord<Id>>)
    ensures |r| == |tasks|
    ensures FirstIndexWithId(tasks, id).None? ==> r == tasks
    ensures FirstIndexWithId(tasks, id).Some? ==>
      var i := FirstIndexWithId(tasks, id).value;
      r[i] == Merge(tasks[i], p) && forall j :: 0 <= j < |tasks| && j != i ==> r[j] == tasks[j]
  {
    match FirstIndexWithId(tasks, id)
    case Some(i) => tasks[i := Merge(tasks[i], p)]
    case None => tasks
  }

  /** `tasks.map(t => t.id === id ? { ...t, ...p } : t)` */
  function UpdateAll<Id(==)>(tasks: seq<TaskRecord<Id>>, id: Id, p: Patch<Id>): (r: seq<TaskRecord<Id>>)
    ensures |r| == |tasks|
    ensures forall j :: 0 <= j < |tasks| && tasks[j].id != id ==> r[j] == tasks[j]
    ensures forall j :: 0 <= j < |tasks| && tasks[j].id == id ==> r[j] == Merge(tasks[j], p)
  {
    seq(|tasks|, j requires 0 <= j < |tasks| => if tasks[j].id == id then Merge(tasks[j], p) else tasks[j])
  }

  /** At most one task carries the id. */
  predicate IdAtMostOnce<Id(==)>(tasks: seq<TaskRecord<Id>>, id: Id) {
    forall i, j :: 0 <= i < |tasks| && 0 <= j < |tasks| && tasks[i].id == id && tasks[j].id == id ==> i == j
  }

  /** Updating the first match and updating every match agree when the id is not repeated. */
  lemma UpdateFirstIsUpdateAll<Id>(tasks: seq<TaskRecord<Id>>, id: Id, p: Patch<Id>)
    requires IdAtMostOnce(tasks, id)
    ensures UpdateFirst(tasks, id, p) == UpdateAll(tasks, id, p)
  {
    var first, all := UpdateFirst(tasks, id, p), UpdateAll(tasks, id, p);
    forall j | 0 <= j < |tasks|
      ensures first[j] == all[j]
    {
      if tasks[j].id == id {
        assert FirstIndexWithId(tasks, id) == Some(j);
      }
    }
  }

  /** With the id repeated, they disagree: only `UpdateAll` touches the second copy. */
  lemma UpdateFirstMissesRepeats<Id>(t: TaskRecord<Id>, p: Patch<Id>)
    requires Merge(t, p) != t
    ensures UpdateFirst([t, t], t.id, p) != UpdateAll([t, t], t.id, p)
  {
    assert UpdateFirst([t, t], t.id, p)[1] == t;
    assert UpdateAll([t, t], t.id, p)[1] == Merge(t, p);
  }

  // ---------------------------------------------------------------- filters

  /** `{ priority?, category?, date? }`: the filter the reducer remembers and the database applies. */
  datatype TaskFilter = TaskFilter(priority: Option<string>, category: Option<string>, date: Option<string>)

  /** `{}` */
  const EmptyFilter := TaskFilter(None, None, None)

  /** JavaScript truthiness of an optional string: present and not empty. */
  predicate Truthy(s: Option<string>) {
    s.Some? && s.value != ""
  }
}
