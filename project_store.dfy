/** The project store: the user's projects and the enforcer that clears competing defaults. */
module ProjectStore {
  import opened JsValues
  import opened Gateway
  import opened RecordLists

  const Flag: string := "defaultProject"

  /** The query `fetchProjects` sends: no filter, newest first. */
  const ProjectsQuery: ListQuery := ListQuery(FirstPage, PageSize, "", "-created", "")

  /** A project belongs to the user when its `user` field is the user's id or,
      when it is an array, contains the user's id. */
  predicate Owns(item: Obj, userId: string) {
    match Get(item, "user")
    case Arr(owners) => Str(userId) in owners
    case owner => owner == Str(userId)
  }

  /** The local owner filter of `fetchProjects`. */
  function OwnedBy(items: seq<Obj>, userId: string): (mine: seq<Obj>)
    ensures forall x :: x in mine <==> x in items && Owns(x, userId)
    ensures |mine| <= |items|
  {
    Filter(items, x => Owns(x, userId))
  }

  /** The owner filter keeps the returned order: it distributes over any split
      of the page. */
  lemma OwnedByKeepsOrder(a: seq<Obj>, b: seq<Obj>, userId: string)
    ensures OwnedBy(a + b, userId) == OwnedBy(a, userId) + OwnedBy(b, userId)
  {
    FilterAppend(a, b, x => Owns(x, userId));
  }

  /** `projectsStore` and the derived `defaultProject`. */
  class Projects {
    var projects: seq<Obj>

    constructor ()
      ensures projects == []
    {
      projects := [];
    }

    /** `defaultProject`: the first project whose flag is set, or null. */
    function DefaultProject(): (r: Option<Obj>)
      reads this
      ensures r.None? <==> forall i :: 0 <= i < |projects| ==> !Truthy(Get(projects[i], Flag))
      ensures r.Some? ==> r.value in projects && Truthy(Get(r.value, Flag))
      ensures r.Some? ==> exists i :: FlaggedFirstAt(projects, Flag, i) && projects[i] == r.value
    {
      FirstFlagged(projects, Flag)
    }

    /** `fetchProjects`: the page of all projects, filtered locally to the
        user's; empty when the query fails. */
    method FetchProjects(userId: string, backend: Collection)
      modifies this
      ensures backend.list(ProjectsQuery).Ok? ==> projects == OwnedBy(backend.list(ProjectsQuery).value, userId)
      ensures backend.list(ProjectsQuery).Failed? ==> projects == []
    {
      match backend.list(ProjectsQuery)
      case Ok(items) => projects := OwnedBy(items, userId);
      case Failed => projects := [];
    }

    /** `updateDefaultProject`: clears the flag remotely on every other default
        project of the snapshot, one write at a time, then locally. A rejected
        write stops the loop before the local step and is reported as `ok`
        false (the exception the caller catches). */
    method UpdateDefaultProject(keep: Value, backend: Collection) returns (writes: seq<Value>, ok: bool)
      modifies this
      ensures writes <= IdsOf(OtherDefaults(old(projects), Flag, keep))
      ensures ok ==> writes == IdsOf(OtherDefaults(old(projects), Flag, keep))
      ensures !ok ==> writes != [] && backend.update(writes[|writes| - 1], ClearPatch(Flag)).Failed?
      ensures ok ==> projects == ClearDefaults(old(projects), Flag, keep)
      ensures !ok ==> projects == old(projects)
      ensures ClearingRun(old(projects), Flag, keep, backend.update, writes, ok)
    {
      writes, ok := IssueClearingWrites(projects, Flag, keep, backend.update);
      if ok {
        projects := ClearDefaults(projects, Flag, keep);
      }
    }

    /** `createProject`: the store itself is never given the new project (the
        subscription appends it); only the enforcer, run when the payload sets
        the flag, changes the list. A failed enforcement makes the call return
        null although the project was created. */
    method CreateProject(data: Obj, backend: Collection) returns (created: Option<Obj>, writes: seq<Value>)
      modifies this
      ensures backend.create(data).Failed? ==> created.None? && writes == [] && projects == old(projects)
      ensures created.Some? ==> backend.create(data).Ok? && created.value == backend.create(data).value
      ensures backend.create(data).Ok? && !Truthy(Get(data, Flag)) ==>
        created.Some? && writes == [] && projects == old(projects)
      ensures backend.create(data).Ok? && Truthy(Get(data, Flag)) ==>
        var keep := Get(backend.create(data).value, "id");
        writes <= IdsOf(OtherDefaults(old(projects), Flag, keep)) &&
        projects == (if created.Some? then ClearDefaults(old(projects), Flag, keep) else old(projects))
      ensures backend.create(data).Ok? && Truthy(Get(data, Flag)) ==>
        ClearingRun(old(projects), Flag, Get(backend.create(data).value, "id"), backend.update, writes, created.Some?)
    {
      writes := [];
      match backend.create(data)
      case Failed => created := None;
      case Ok(record) =>
        if Truthy(Get(data, Flag)) {
          var ok;
          writes, ok := UpdateDefaultProject(Get(record, "id"), backend);
          if !ok {
            return None, writes;
          }
        }
        created := Some(record);
    }

    /** `updateProject`: after the update succeeds (and, when the patch sets
        the flag, the enforcer has run), the response is spread over every
        project with the id. */
    method UpdateProject(id: string, data: Obj, backend: Collection) returns (updated: Option<Obj>, writes: seq<Value>)
      modifies this
      ensures backend.update(Str(id), data).Failed? ==> updated.None? && writes == [] && projects == old(projects)
      ensures updated.Some? ==> backend.update(Str(id), data) == Ok(updated.value)
      ensures updated.Some? ==> (projects ==
        MergeWhere(if Truthy(Get(data, Flag)) then ClearDefaults(old(projects), Flag, Str(id)) else old(projects),
                   Str(id), updated.value))
      ensures updated.None? ==> projects == old(projects)
      ensures !Truthy(Get(data, Flag)) ==> writes == [] && (backend.update(Str(id), data).Ok? ==> updated.Some?)
      ensures writes <= IdsOf(OtherDefaults(old(projects), Flag, Str(id)))
      ensures backend.update(Str(id), data).Ok? && Truthy(Get(data, Flag)) ==>
        ClearingRun(old(projects), Flag, Str(id), backend.update, writes, updated.Some?)
    {
      writes := [];
      match backend.update(Str(id), data)
      case Failed => updated := None;
      case Ok(record) =>
        if Truthy(Get(data, Flag)) {
          var ok;
          writes, ok := UpdateDefaultProject(Str(id), backend);
          if !ok {
            return None, writes;
          }
        }
        projects := MergeWhere(projects, Str(id), record);
        updated := Some(record);
    }

    /** `deleteProject`: on success every project with the id is dropped. */
    method DeleteProject(id: string, backend: Collection) returns (ok: bool)
      modifies this
      ensures ok == backend.delete(Str(id))
      ensures ok ==> projects == RemoveWhere(old(projects), Str(id))
      ensures !ok ==> projects == old(projects)
    {
      ok := backend.delete(Str(id));
      if ok {
        projects := RemoveWhere(projects, Str(id));
      }
    }

    /** The handler `subscribeToProjects` installs. */
    method OnProjectEvent(e: Event)
      modifies this
      ensures projects == Reduce(old(projects), e)
    {
      projects := Reduce(projects, e);
    }
  }
}
