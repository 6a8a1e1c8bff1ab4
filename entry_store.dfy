/** The time-entry store: the in-memory list of the user's time entries and the
    operations that query, create, edit, start and stop them on the backend. */
module EntryStore {
  import opened JsValues
  import opened Gateway
  import opened RecordLists

  // ---------------------------------------------------------------------------
  // The list filter

  const StartOpen: string := " && startTime >= \""
  const EndOpen: string := " && startTime <= \""

  /** The filter the entry query sends: the owner, then the lower bound of the
      start time when a start date is given, then the upper bound when an end
      date is given. */
  function EntryFilter(userId: string, startDate: Option<string>, endDate: Option<string>): string {
    OwnerFilter(userId) +
    (if startDate.Some? then StartOpen + startDate.value + "\"" else "") +
    (if endDate.Some? then EndOpen + endDate.value + "\"" else "")
  }

  /** Builds the filter clause by clause with `+=`, as the store does. */
  method BuildEntryFilter(userId: string, startDate: Option<string>, endDate: Option<string>)
    returns (filter: string)
    ensures filter == EntryFilter(userId, startDate, endDate)
  {
    filter := OwnerFilter(userId);
    if startDate.Some? {
      filter := filter + StartOpen + startDate.value + "\"";
    }
    if endDate.Some? {
      filter := filter + EndOpen + endDate.value + "\"";
    }
  }

  /** Reads an optional clause `open + value + "\""` at the head of `s`. */
  function ReadClause(open: string, s: string): Option<(Option<string>, string)> {
    if open <= s then
      match SplitAt(s[|open|..], '"')
      case None => None
      case Some((v, rest)) => Some((Some(v), rest))
    else Some((None, s))
  }

  /** Reads an entry filter back into its owner and its date bounds. */
  function DecodeEntryFilter(filter: string): Option<(string, Option<string>, Option<string>)> {
    if !(OwnerOpen <= filter) then None
    else match SplitAt(filter[|OwnerOpen|..], '"')
      case None => None
      case Some((userId, rest)) =>
        match ReadClause(StartOpen, rest)
        case None => None
        case Some((startDate, rest')) =>
          match ReadClause(EndOpen, rest')
          case None => None
          case Some((endDate, rest'')) =>
            if rest'' == "" then Some((userId, startDate, endDate)) else None
  }

  lemma ReadClausePresent(open: string, v: string, rest: string)
    requires '"' !in v
    ensures ReadClause(open, open + v + "\"" + rest) == Some((Some(v), rest))
  {
    var s := open + v + "\"" + rest;
    assert s[|open|..] == v + "\"" + rest;
    SplitAtOf(v, '"', rest);
  }

  /** The optional end clause and nothing after it reads back as the end date. */
  lemma EndClauseRoundTrip(endDate: Option<string>)
    requires endDate.Some? ==> '"' !in endDate.value
    ensures var tail := if endDate.Some? then EndOpen + endDate.value + "\"" else "";
      ReadClause(EndOpen, tail) == Some((endDate, ""))
  {
    if endDate.Some? {
      assert EndOpen + endDate.value + "\"" == EndOpen + endDate.value + "\"" + "";
      ReadClausePresent(EndOpen, endDate.value, "");
    }
  }

  /** The optional start clause reads back as the start date, whatever end
      clause follows it. */
  lemma StartClauseRoundTrip(startDate: Option<string>, endDate: Option<string>)
    requires startDate.Some? ==> '"' !in startDate.value
    ensures var tailEnd := if endDate.Some? then EndOpen + endDate.value + "\"" else "";
      var tail := (if startDate.Some? then StartOpen + startDate.value + "\"" else "") + tailEnd;
      ReadClause(StartOpen, tail) == Some((startDate, tailEnd))
  {
    var tailEnd := if endDate.Some? then EndOpen + endDate.value + "\"" else "";
    if startDate.Some? {
      ReadClausePresent(StartOpen, startDate.value, tailEnd);
    } else {
      assert "" + tailEnd == tailEnd;
      if endDate.Some? {
        assert tailEnd[14] == '<' && StartOpen[14] == '>';
      }
    }
  }

  /** The filter names its owner and each date bound it was given, and no other:
      decoding it gives back exactly the arguments it was built from, so the
      start clause appears if and only if a start date was given, the end clause
      if and only if an end date was given, and in that order. Ids and ISO
      timestamps contain no quotes. */
  lemma FilterRoundTrip(userId: string, startDate: Option<string>, endDate: Option<string>)
    requires '"' !in userId
    requires startDate.Some? ==> '"' !in startDate.value
    requires endDate.Some? ==> '"' !in endDate.value
    ensures DecodeEntryFilter(EntryFilter(userId, startDate, endDate)) == Some((userId, startDate, endDate))
  {
    var tailEnd := if endDate.Some? then EndOpen + endDate.value + "\"" else "";
    var tail := (if startDate.Some? then StartOpen + startDate.value + "\"" else "") + tailEnd;
    var f := EntryFilter(userId, startDate, endDate);
    assert f == OwnerOpen + (userId + "\"" + tail);
    assert f[|OwnerOpen|..] == userId + "\"" + tail;
    SplitAtOf(userId, '"', tail);
    StartClauseRoundTrip(startDate, endDate);
    EndClauseRoundTrip(endDate);
  }

  /** The query `fetchEntries` sends: first page of 100, newest first, with the
      entry's project expanded. */
  function EntriesQuery(userId: string, startDate: Option<string>, endDate: Option<string>): ListQuery {
    ListQuery(FirstPage, PageSize, EntryFilter(userId, startDate, endDate), "-startTime", "project")
  }

  // ---------------------------------------------------------------------------
  // Durations

  /** `Math.round(ms / 60000)`: an interval in milliseconds as whole minutes. */
  function MinutesBetween(ms: int): (m: int)
    ensures 60000 * m - 30000 <= ms < 60000 * m + 30000
    ensures m == (ms + 30000) / 60000
    ensures ms >= 0 ==> m >= 0
  {
    var m := JsRound(ms as real / 60000.0);
    MinutesRounding(ms);
    m
  }

  /** Math.round of a millisecond count over 60000 is floor division of the
      count plus half a minute. */
  lemma MinutesRounding(ms: int)
    ensures JsRound(ms as real / 60000.0) == (ms + 30000) / 60000
  {
    var q := (ms + 30000) / 60000;
    var r := (ms + 30000) % 60000;
    assert ms + 30000 == 60000 * q + r && 0 <= r < 60000;
    assert ms as real / 60000.0 == q as real + (r - 30000) as real / 60000.0;
    JsRoundIs(ms as real / 60000.0, q);
  }

  /** Ninety seconds round up to two minutes. */
  lemma NinetySeconds()
    ensures MinutesBetween(90000) == 2
  {
  }

  /** `createTimeEntry` computes the duration only when it is falsy (absent or
      0) and both timestamps are set. */
  predicate NeedsDuration(data: Obj) {
    !Truthy(Get(data, "duration")) && Truthy(Get(data, "startTime")) && Truthy(Get(data, "endTime"))
  }

  /** The payload `createTimeEntry` sends. `millis` stands for
      `new Date(s).getTime()`. */
  function PrepareEntry(data: Obj, millis: Value -> int): (sent: Obj)
    ensures !NeedsDuration(data) ==> sent == data
    ensures NeedsDuration(data) ==>
      var ms := millis(Get(data, "endTime")) - millis(Get(data, "startTime"));
      sent.Keys == data.Keys + {"duration"} &&
      sent["duration"] == Num((ms + 30000) / 60000) &&
      (forall f :: f in data && f != "duration" ==> sent[f] == data[f])
  {
    if NeedsDuration(data) then
      data["duration" := Num(MinutesBetween(millis(Get(data, "endTime")) - millis(Get(data, "startTime"))))]
    else data
  }

  /** A duration sent by `createTimeEntry` is never negative when the entry
      ends no earlier than it starts, and a nonzero supplied duration is kept. */
  lemma PreparedDuration(data: Obj, millis: Value -> int)
    ensures NeedsDuration(data) && millis(Get(data, "endTime")) >= millis(Get(data, "startTime")) ==>
      PrepareEntry(data, millis)["duration"].Num? && PrepareEntry(data, millis)["duration"].n >= 0
    ensures Truthy(Get(data, "duration")) ==> Get(PrepareEntry(data, millis), "duration") == Get(data, "duration")
  {
  }

  // ---------------------------------------------------------------------------
  // Starting and stopping

  /** The record `startTimeEntry` creates: a running entry of the user, started
      now, with no tags and a zero duration; the task only when a task id is
      given, the project only when a project id is given. */
  function StartPayload(userId: string, projectId: Option<string>, taskId: string, nowIso: string): (p: Obj)
    ensures p.Keys <= {"user", "startTime", "duration", "tags", "task", "project"}
    ensures Get(p, "user") == Str(userId) && Get(p, "startTime") == Str(nowIso)
    ensures Get(p, "duration") == Num(0) && Get(p, "tags") == Arr([]) && "endTime" !in p
    ensures ("task" in p <==> taskId != "") && Get(p, "task") == (if taskId != "" then Str(taskId) else Undefined)
    ensures ("project" in p <==> ProjectGiven(projectId)) &&
      (ProjectGiven(projectId) ==> p["project"] == Str(projectId.value))
  {
    var base := map["user" := Str(userId), "startTime" := Str(nowIso), "duration" := Num(0), "tags" := Arr([])];
    var withTask := if taskId != "" then base["task" := Str(taskId)] else base;
    if ProjectGiven(projectId) then withTask["project" := Str(projectId.value)] else withTask
  }

  /** `if (projectId)`: a project id is given when it is neither null nor empty. */
  predicate ProjectGiven(projectId: Option<string>) {
    projectId.Some? && projectId.value != ""
  }

  /** The side channel `startTimeEntry` attaches as `expand`: the project
      record when a project id was given and its lookup succeeded, else `{}`. */
  function StartExpand(projectId: Option<string>, projects: Collection): (x: Obj)
    ensures x.Keys <= {"project"}
    ensures "project" in x <==> ProjectGiven(projectId) && projects.getOne(Str(projectId.value), "").Ok?
    ensures "project" in x ==> x["project"] == Obj(projects.getOne(Str(projectId.value), "").value)
  {
    if ProjectGiven(projectId) then
      match projects.getOne(Str(projectId.value), "")
      case Ok(project) => map["project" := Obj(project)]
      case Failed => map[]
    else map[]
  }

  /** The patch `stopTimeEntry` sends and applies locally. */
  function StopPatch(endIso: string, duration: int): (p: Obj)
    ensures p.Keys == {"endTime", "duration"}
    ensures p["endTime"] == Str(endIso) && p["duration"] == Num(duration)
  {
    map["endTime" := Str(endIso), "duration" := Num(duration)]
  }

  // ---------------------------------------------------------------------------
  // The store

  /** `entriesStore`: the writable list of time entries. */
  class Entries {
    var entries: seq<Obj>

    constructor ()
      ensures entries == []
    {
      entries := [];
    }

    /** `fetchEntries`: unauthenticated, nothing happens; otherwise the list
        becomes the page the backend returns, or empty when the query fails. */
    method FetchEntries(userId: string, startDate: Option<string>, endDate: Option<string>,
                        auth: bool, backend: Collection)
      modifies this
      ensures !auth ==> entries == old(entries)
      ensures auth ==> entries == FetchedOrEmpty(backend.list(EntriesQuery(userId, startDate, endDate)))
    {
      if !auth {
        return;
      }
      var filter := BuildEntryFilter(userId, startDate, endDate);
      match backend.list(ListQuery(FirstPage, PageSize, filter, "-startTime", "project"))
      case Ok(items) => entries := items;
      case Failed => entries := [];
    }

    /** `createTimeEntry`: sends the prepared payload and returns the created
        record; the list is left alone. */
    method CreateTimeEntry(data: Obj, auth: bool, millis: Value -> int, backend: Collection)
      returns (created: Option<Obj>)
      ensures created.Some? <==> auth && backend.create(PrepareEntry(data, millis)).Ok?
      ensures created.Some? ==> created.value == backend.create(PrepareEntry(data, millis)).value
    {
      if !auth {
        return None;
      }
      match backend.create(PrepareEntry(data, millis))
      case Ok(record) => created := Some(record);
      case Failed => created := None;
    }

    /** `updateTimeEntry`: after the update succeeds the entry is read back with
        its project expanded, and that record replaces every entry with the id. */
    method UpdateTimeEntry(id: string, data: Obj, auth: bool, backend: Collection)
      returns (updated: Option<Obj>)
      modifies this
      ensures updated.Some? <==>
        auth && backend.update(Str(id), data).Ok? && backend.getOne(Str(id), "project").Ok?
      ensures updated.Some? ==> updated.value == backend.getOne(Str(id), "project").value
      ensures updated.Some? ==> entries == ReplaceWhere(old(entries), Str(id), updated.value)
      ensures updated.None? ==> entries == old(entries)
    {
      if !auth {
        return None;
      }
      if backend.update(Str(id), data).Failed? {
        return None;
      }
      match backend.getOne(Str(id), "project")
      case Failed => updated := None;
      case Ok(record) =>
        entries := ReplaceWhere(entries, Str(id), record);
        updated := Some(record);
    }

    /** `deleteTimeEntry`: on success every entry with the id is dropped. */
    method DeleteTimeEntry(id: string, auth: bool, backend: Collection) returns (ok: bool)
      modifies this
      ensures ok <==> auth && backend.delete(Str(id))
      ensures ok ==> entries == RemoveWhere(old(entries), Str(id))
      ensures !ok ==> entries == old(entries)
    {
      if !auth {
        return false;
      }
      ok := backend.delete(Str(id));
      if ok {
        entries := RemoveWhere(entries, Str(id));
      }
    }

    /** `startTimeEntry` (which does not check authentication): creates the
        running entry and puts it, with its `expand` side channel, in front of
        the list. A failed project lookup only leaves `expand` empty. */
    method StartTimeEntry(userId: string, projectId: Option<string>, taskId: string, nowIso: string,
                          backend: Collection, projects: Collection)
      returns (id: Option<Value>)
      modifies this
      ensures id.Some? <==> backend.create(StartPayload(userId, projectId, taskId, nowIso)).Ok?
      ensures id.Some? ==>
        var record := backend.create(StartPayload(userId, projectId, taskId, nowIso)).value;
        id.value == Get(record, "id") &&
        entries == [Spread(record, map["expand" := Obj(StartExpand(projectId, projects))])] + old(entries)
      ensures id.None? ==> entries == old(entries)
    {
      var payload := StartPayload(userId, projectId, taskId, nowIso);
      match backend.create(payload)
      case Failed => id := None;
      case Ok(record) =>
        var expand := StartExpand(projectId, projects);
        var newEntry := Spread(record, map["expand" := Obj(expand)]);
        entries := [newEntry] + entries;
        id := Some(Get(record, "id"));
    }

    /** `stopTimeEntry`: reads the entry, ends it at `now` with its duration in
        whole minutes, and patches every entry with the id with exactly the end
        time and duration it sent. `now` and `nowIso` are the clock's reading. */
    method StopTimeEntry(id: string, auth: bool, now: int, nowIso: string, millis: Value -> int,
                         backend: Collection)
      returns (ok: bool)
      modifies this
      ensures ok <==> (auth && backend.getOne(Str(id), "").Ok? &&
        backend.update(Str(id), StopPatch(nowIso, StopDuration(backend.getOne(Str(id), "").value, now, millis))).Ok?)
      ensures ok ==> (entries ==
        MergeWhere(old(entries), Str(id), StopPatch(nowIso, StopDuration(backend.getOne(Str(id), "").value, now, millis))))
      ensures !ok ==> entries == old(entries)
    {
      if !auth {
        return false;
      }
      match backend.getOne(Str(id), "")
      case Failed => ok := false;
      case Ok(entry) =>
        var duration := MinutesBetween(now - millis(Get(entry, "startTime")));
        var patch := StopPatch(nowIso, duration);
        ok := backend.update(Str(id), patch).Ok?;
        if ok {
          entries := MergeWhere(entries, Str(id), patch);
        }
    }

    /** The handler `subscribeToEntries` installs: whatever the event, the
        user's entries are fetched again, without date bounds. */
    method OnEntryEvent(userId: string, e: Event, auth: bool, backend: Collection)
      modifies this
      ensures !auth ==> entries == old(entries)
      ensures auth ==> entries == FetchedOrEmpty(backend.list(EntriesQuery(userId, None, None)))
    {
      FetchEntries(userId, None, None, auth, backend);
    }
  }

  /** The duration `stopTimeEntry` computes for `entry` stopped at `now`. */
  function StopDuration(entry: Obj, now: int, millis: Value -> int): (m: int)
    ensures m == (now - millis(Get(entry, "startTime")) + 30000) / 60000
  {
    MinutesBetween(now - millis(Get(entry, "startTime")))
  }

  /** When `nowIso` is the text of the same clock reading as `now`, the
      stopped entry's duration is its own interval, from its start to the end
      time it was given, in whole minutes. */
  lemma StoppedEntryConsistent(entry: Obj, now: int, nowIso: string, millis: Value -> int)
    requires millis(Str(nowIso)) == now
    ensures var stopped := Spread(entry, StopPatch(nowIso, StopDuration(entry, now, millis)));
      Get(stopped, "duration") ==
        Num(MinutesBetween(millis(Get(stopped, "endTime")) - millis(Get(stopped, "startTime"))))
  {
  }

  /** Stopping touches only the end time and the duration of the entries with
      the id: every other field, and every other entry, is as it was. */
  lemma StopChangesOnlyEndAndDuration(xs: seq<Obj>, id: string, endIso: string, duration: int, i: int)
    requires 0 <= i < |xs|
    ensures var ys := MergeWhere(xs, Str(id), StopPatch(endIso, duration));
      |ys| == |xs| &&
      (IdIs(xs[i], Str(id)) ==>
         (Get(ys[i], "endTime") == Str(endIso) && Get(ys[i], "duration") == Num(duration) &&
          forall f :: f != "endTime" && f != "duration" ==> Get(ys[i], f) == Get(xs[i], f))) &&
      (!IdIs(xs[i], Str(id)) ==> ys[i] == xs[i])
  {
  }
}
