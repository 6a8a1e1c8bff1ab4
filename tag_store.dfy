/** The tag store: the user's tags and the enforcer that clears competing defaults. */
module TagStore {
  import opened JsValues
  import opened Gateway
  import opened RecordLists

  const Flag: string := "defaultTag"

  /** The query `fetchTags` sends: the user's tags, newest first. */
  function TagsQuery(userId: string): ListQuery {
    ListQuery(FirstPage, PageSize, OwnerFilter(userId), "-created", "")
  }

  /** `tagStore` and the derived `defaultTag`. */
  class Tags {
    var tags: seq<Obj>

    constructor ()
      ensures tags == []
    {
      tags := [];
    }

    /** `defaultTag`: the first tag whose flag is set, or null. */
    function DefaultTag(): (r: Option<Obj>)
      reads this
      ensures r.None? <==> forall i :: 0 <= i < |tags| ==> !Truthy(Get(tags[i], Flag))
      ensures r.Some? ==> r.value in tags && Truthy(Get(r.value, Flag))
      ensures r.Some? ==> exists i :: FlaggedFirstAt(tags, Flag, i) && tags[i] == r.value
    {
      FirstFlagged(tags, Flag)
    }

    /** `fetchTags`: the page the backend returns for the user, or empty when
        the query fails. */
    method FetchTags(userId: string, backend: Collection)
      modifies this
      ensures tags == FetchedOrEmpty(backend.list(TagsQuery(userId)))
    {
      tags := FetchedOrEmpty(backend.list(TagsQuery(userId)));
    }

    /** `updateDefaultTag`: clears the flag remotely on every other default
        tag of the snapshot, one write at a time, then locally. A rejected
        write stops the loop before the local step and is reported as `ok`
        false (the exception the caller catches). */
    method UpdateDefaultTag(keep: Value, backend: Collection) returns (writes: seq<Value>, ok: bool)
      modifies this
      ensures writes <= IdsOf(OtherDefaults(old(tags), Flag, keep))
      ensures ok ==> writes == IdsOf(OtherDefaults(old(tags), Flag, keep))
      ensures !ok ==> writes != [] && backend.update(writes[|writes| - 1], ClearPatch(Flag)).Failed?
      ensures ok ==> tags == ClearDefaults(old(tags), Flag, keep)
      ensures !ok ==> tags == old(tags)
      ensures ClearingRun(old(tags), Flag, keep, backend.update, writes, ok)
    {
      writes, ok := IssueClearingWrites(tags, Flag, keep, backend.update);
      if ok {
        tags := ClearDefaults(tags, Flag, keep);
      }
    }

    /** `createTag`: the store itself is never given the new tag (the
        subscription appends it); only the enforcer, run when the payload sets
        the flag, changes the list. A failed enforcement makes the call return
        null although the tag was created. */
    method CreateTag(data: Obj, backend: Collection) returns (created: Option<Obj>, writes: seq<Value>)
      modifies this
      ensures backend.create(data).Failed? ==> created.None? && writes == [] && tags == old(tags)
      ensures created.Some? ==> backend.create(data).Ok? && created.value == backend.create(data).value
      ensures backend.create(data).Ok? && !Truthy(Get(data, Flag)) ==>
        created.Some? && writes == [] && tags == old(tags)
      ensures backend.create(data).Ok? && Truthy(Get(data, Flag)) ==>
        var keep := Get(backend.create(data).value, "id");
        writes <= IdsOf(OtherDefaults(old(tags), Flag, keep)) &&
        tags == (if created.Some? then ClearDefaults(old(tags), Flag, keep) else old(tags))
      ensures backend.create(data).Ok? && Truthy(Get(data, Flag)) ==>
        ClearingRun(old(tags), Flag, Get(backend.create(data).value, "id"), backend.update, writes, created.Some?)
    {
      writes := [];
      match backend.create(data)
      case Failed => created := None;
      case Ok(record) =>
        if Truthy(Get(data, Flag)) {
          var ok;
          writes, ok := UpdateDefaultTag(Get(record, "id"), backend);
          if !ok {
            return None, writes;
          }
        }
        created := Some(record);
    }

    /** `updateTag`: after the update succeeds (and, when the patch sets
        the flag, the enforcer has run), the response is spread over every
        tag with the id. */
    method UpdateTag(id: string, data: Obj, backend: Collection) returns (updated: Option<Obj>, writes: seq<Value>)
      modifies this
      ensures backend.update(Str(id), data).Failed? ==> updated.None? && writes == [] && tags == old(tags)
      ensures updated.Some? ==> backend.update(Str(id), data) == Ok(updated.value)
      ensures updated.Some? ==> (tags ==
        MergeWhere(if Truthy(Get(data, Flag)) then ClearDefaults(old(tags), Flag, Str(id)) else old(tags),
                   Str(id), updated.value))
      ensures updated.None? ==> tags == old(tags)
      ensures !Truthy(Get(data, Flag)) ==> writes == [] && (backend.update(Str(id), data).Ok? ==> updated.Some?)
      ensures writes <= IdsOf(OtherDefaults(old(tags), Flag, Str(id)))
      ensures backend.update(Str(id), data).Ok? && Truthy(Get(data, Flag)) ==>
        ClearingRun(old(tags), Flag, Str(id), backend.update, writes, updated.Some?)
    {
      writes := [];
      match backend.update(Str(id), data)
      case Failed => updated := None;
      case Ok(record) =>
        if Truthy(Get(data, Flag)) {
          var ok;
          writes, ok := UpdateDefaultTag(Str(id), backend);
          if !ok {
            return None, writes;
          }
        }
        tags := MergeWhere(tags, Str(id), record);
        updated := Some(record);
    }

    /** `deleteTag`: on success every tag with the id is dropped. */
    method DeleteTag(id: string, backend: Collection) returns (ok: bool)
      modifies this
      ensures ok == backend.delete(Str(id))
      ensures ok ==> tags == RemoveWhere(old(tags), Str(id))
      ensures !ok ==> tags == old(tags)
    {
      ok := backend.delete(Str(id));
      if ok {
        tags := RemoveWhere(tags, Str(id));
      }
    }

    /** The handler `subscribeToTags` installs. */
    method OnTagEvent(e: Event)
      modifies this
      ensures tags == Reduce(old(tags), e)
    {
      tags := Reduce(tags, e);
    }
  }
}
