/** The task store: the user's tasks and the enforcer that clears competing defaults. */
module TaskStore {
  import opened JsValues
  import opened Gateway
  import opened RecordLists

  const Flag: string := "defaultTask"

  /** The query `fetchTasks` sends: the user's tasks, newest first. */
  function TasksQuery(userId: string): ListQuery {
    ListQuery(FirstPage, PageSize, OwnerFilter(userId), "-created", "")
  }

  /** `taskStore` and the derived `defaultTask`. */
  class Tasks {
    var tasks: seq<Obj>

    constructor ()
      ensures tasks == []
    {
      tasks := [];
    }

    /** `defaultTask`: the first task whose flag is set, or null. */
    function DefaultTask(): (r: Option<Obj>)
      reads this
      ensures r.None? <==> forall i :: 0 <= i < |tasks| ==> !Truthy(Get(tasks[i], Flag))
      ensures r.Some? ==> r.value in tasks && Truthy(Get(r.value, Flag))
      ensures r.Some? ==> exists i :: FlaggedFirstAt(tasks, Flag, i) && tasks[i] == r.value
    {
      FirstFlagged(tasks, Flag)
    }

    /** `fetchTasks`: the page the backend returns for the user, or empty when
        the query fails. */
    method FetchTasks(userId: string, backend: Collection)
      modifies this
      ensures tasks == FetchedOrEmpty(backend.list(TasksQuery(userId)))
    {
      tasks := FetchedOrEmpty(backend.list(TasksQuery(userId)));
    }

    /** `updateDefaultTask`: clears the flag remotely on every other default
        task of the snapshot, one write at a time, then locally. A rejected
        write stops the loop before the local step and is reported as `ok`
        false (the exception the caller catches). */
    method UpdateDefaultTask(keep: Value, backend: Collection) returns (writes: seq<Value>, ok: bool)
      modifies this
      ensures writes <= IdsOf(OtherDefaults(old(tasks), Flag, keep))
      ensures ok ==> writes == IdsOf(OtherDefaults(old(tasks), Flag, keep))
      ensures !ok ==> writes != [] && backend.update(writes[|writes| - 1], ClearPatch(Flag)).Failed?
      ensures ok ==> tasks == ClearDefaults(old(tasks), Flag, keep)
      ensures !ok ==> tasks == old(tasks)
      ensures ClearingRun(old(tasks), Flag, keep, backend.update, writes, ok)
    {
      writes, ok := IssueClearingWrites(tasks, Flag, keep, backend.update);
      if ok {
        tasks := ClearDefaults(tasks, Flag, keep);
      }
    }

    /** `createTask`: the store itself is never given the new task (the
        subscription appends it); only the enforcer, run when the payload sets
        the flag, changes the list. A failed enforcement makes the call return
        null although the task was created. */
    method CreateTask(data: Obj, backend: Collection) returns (created: Option<Obj>, writes: seq<Value>)
      modifies this
      ensures backend.create(data).Failed? ==> created.None? && writes == [] && tasks == old(tasks)
      ensures created.Some? ==> backend.create(data).Ok? && created.value == backend.create(data).value
      ensures backend.create(data).Ok? && !Truthy(Get(data, Flag)) ==>
        created.Some? && writes == [] && tasks == old(tasks)
      ensures backend.create(data).Ok? && Truthy(Get(data, Flag)) ==>
        var keep := Get(backend.create(data).value, "id");
        writes <= IdsOf(OtherDefaults(old(tasks), Flag, keep)) &&
        tasks == (if created.Some? then ClearDefaults(old(tasks), Flag, keep) else old(tasks))
      ensures backend.create(data).Ok? && Truthy(Get(data, Flag)) ==>
        ClearingRun(old(tasks), Flag, Get(backend.create(data).value, "id"), backend.update, writes, created.Some?)
    {
      writes := [];
      match backend.create(data)
      case Failed => created := None;
      case Ok(record) =>
        if Truthy(Get(data, Flag)) {
          var ok;
          writes, ok := UpdateDefaultTask(Get(record, "id"), backend);
          if !ok {
            return None, writes;
          }
        }
        created := Some(record);
    }

    /** `updateTask`: after the update succeeds (and, when the patch sets
        the flag, the enforcer has run), the response is spread over every
        task with the id. */
    method UpdateTask(id: string, data: Obj, backend: Collection) returns (updated: Option<Obj>, writes: seq<Value>)
      modifies this
      ensures backend.update(Str(id), data).Failed? ==> updated.None? && writes == [] && tasks == old(tasks)
      ensures updated.Some? ==> backend.update(Str(id), data) == Ok(updated.value)
      ensures updated.Some? ==> (tasks ==
        MergeWhere(if Truthy(Get(data, Flag)) then ClearDefaults(old(tasks), Flag, Str(id)) else old(tasks),
                   Str(id), updated.value))
      ensures updated.None? ==> tasks == old(tasks)
      ensures !Truthy(Get(data, Flag)) ==> writes == [] && (backend.update(Str(id), data).Ok? ==> updated.Some?)
      ensures writes <= IdsOf(OtherDefaults(old(tasks), Flag, Str(id)))
      ensures backend.update(Str(id), data).Ok? && Truthy(Get(data, Flag)) ==>
        ClearingRun(old(tasks), Flag, Str(id), backend.update, writes, updated.Some?)
    {
      writes := [];
      match backend.update(Str(id), data)
      case Failed => updated := None;
      case Ok(record) =>
        if Truthy(Get(data, Flag)) {
          var ok;
          writes, ok := UpdateDefaultTask(Str(id), backend);
          if !ok {
            return None, writes;
          }
        }
        tasks := MergeWhere(tasks, Str(id), record);
        updated := Some(record);
    }

    /** `deleteTask`: on success every task with the id is dropped. */
    method DeleteTask(id: string, backend: Collection) returns (ok: bool)
      modifies this
      ensures ok == backend.delete(Str(id))
      ensures ok ==> tasks == RemoveWhere(old(tasks), Str(id))
      ensures !ok ==> tasks == old(tasks)
    {
      ok := backend.delete(Str(id));
      if ok {
        tasks := RemoveWhere(tasks, Str(id));
      }
    }

    /** The handler `subscribeToTasks` installs. */
    method OnTaskEvent(e: Event)
      modifies this
      ensures tasks == Reduce(old(tasks), e)
    {
      tasks := Reduce(tasks, e);
    }
  }
}
