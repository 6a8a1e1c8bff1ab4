# Time tracker client stores, modelled in Dafny

This project models the client-side state of a small time-tracking
application that keeps its data in a PocketBase backend. It covers five
in-memory stores and two time helpers:

- **entries**: the user's time entries. They are listed with an owner and
  date-range filter, created, edited, deleted, started and stopped. A stopped
  entry's duration is rounded to whole minutes.
- **projects, tasks, tags**: the user's records of each kind. Each kind has
  a default flag (`defaultProject`, `defaultTask`, `defaultTag`). Whenever a
  record is created or updated with the flag set, a single-default enforcer
  clears the flag on every other flagged record, remotely and then locally.
  Only after a successful enforcement is the flag limited to the one record.
  A fetch or a realtime event can still load several flagged records, and the
  derived default is then the first of them. Realtime push events are folded
  into the list.
- **user**: the signed-in profile, or none. Updates are merged into it, and
  the derived profile-completion percentage counts seven profile fields.
- **time helpers**: `formatDuration` renders seconds as `HH:MM`.
  `groupEntriesByDay` buckets entries by calendar day, newest day first.

Modules:

- `JsValues`: JavaScript values and records. Records are `map<string, Value>`
  and object spread is map union, with the right side winning. The module also
  has truthiness, `Math.round` and string splitting.
- `Gateway`: the backend. Each collection is a datatype of total functions
  from a request to its answer. Listing, reading, creating and updating give
  an outcome, `Ok(value)` or `Failed`. Deleting gives a boolean, true when the
  deletion succeeded. Every store operation is therefore stated for every
  answer the backend might give. A failed answer stands for a rejected
  promise.
- `RecordLists`: the list operations the stores share. These are
  replace/merge/remove by id, the default flag and its enforcer, and the
  realtime reducer.
- `EntryStore`, `ProjectStore`, `TaskStore`, `TagStore`, `UserStore`: one
  class per store. Each class has the store's list or profile as a field,
  and one method per store function that changes it.
- `TimeUtils`: `formatDuration` and `groupEntriesByDay`.

Inputs that come from outside the model are parameters:

- the authentication check (`auth: bool`);
- the clock (`now` in milliseconds and `nowIso`);
- `new Date(s).getTime()` (`millis`);
- the UTC calendar day of a start time (`dayOf`).

Behaviour a reader might not expect, modelled as the code has it:

- **Clearing writes.** The enforcer (`updateDefaultProject`, `updateDefaultTask`,
  `updateDefaultTag`) sends its clearing writes in a `for … of` loop without a
  `try`. The first rejected write ends the loop, the local reconcile is
  skipped, and the calling `create…`/`update…` returns `null`, even though its
  own record was written.
- **Profile update.** `updateUserProfile` returns the backend's response, not
  the merged profile.
- **Starting an entry.** `startTimeEntry` does not check authentication.
- **Project listing.** `fetchProjects` lists all projects without a server
  filter. It then keeps those whose `user` field is the user's id, or is an
  array containing it.
- **Creation.** `createProject`, `createTask` and `createTag` never put the new
  record into the store; only the realtime `create` event appends it.
- **Profile field name.** The completion checklist names
  `notificationPreferences`, as the store does. The users-collection
  migration names the field `notificationPreference`, so a profile stored
  under that name never fills the seventh slot. The model counts the name the
  store uses.

## Model

| member | source | states |
|---|---|---|
| EntryStore.BuildEntryFilter | app/src/lib/stores/entryStore.ts:13-21 | the filter built clause by clause with `+=` is the owner clause, then the start bound only when a start date is given, then the end bound only when an end date is given |
| EntryStore.FilterRoundTrip | app/src/lib/stores/entryStore.ts:13-21 | for quote-free ids and dates, decoding the filter gives back exactly the user id, the optional start date and the optional end date: a bound appears in the filter if and only if it was given |
| EntryStore.MinutesBetween | app/src/lib/stores/entryStore.ts:46 | the duration is the nearest whole minute (within half a minute of the interval, halves rounding up), equals floor((ms + 30000) / 60000), and is never negative for a non-negative interval |
| EntryStore.MinutesRounding | app/src/lib/stores/entryStore.ts:180 | `Math.round(ms / 60000)` on the reals equals floor division of ms + 30000 by 60000, for every integer interval |
| EntryStore.NinetySeconds | app/src/lib/stores/entryStore.ts:180 | ninety seconds round up to two minutes |
| EntryStore.PrepareEntry | app/src/lib/stores/entryStore.ts:42-47 | the payload is unchanged unless the duration is falsy and both timestamps are set; then only the `duration` field is added or replaced, with the rounded minutes between them |
| EntryStore.PreparedDuration | app/src/lib/stores/entryStore.ts:42-47 | a computed duration is non-negative when the entry ends no earlier than it starts; a nonzero supplied duration is sent as given |
| EntryStore.StartPayload | app/src/lib/stores/entryStore.ts:121-137 | the new entry has the user, the start time, duration 0, no tags and no end time; it has a task exactly when the task id is non-empty and a project exactly when the project id is neither null nor empty; it has no other field |
| EntryStore.StartExpand | app/src/lib/stores/entryStore.ts:143-151 | `expand` has a `project` key exactly when a project id was given and its lookup succeeded, and that key holds the looked-up record; it has no other key, so a failed lookup leaves it `{}` |
| EntryStore.Entries.constructor | app/src/lib/stores/entryStore.ts:5 | the store starts empty |
| EntryStore.Entries.FetchEntries | app/src/lib/stores/entryStore.ts:8-34 | unauthenticated: the list is untouched; otherwise it becomes the first page of 100 for the filter, newest start first with the project expanded, or empty when the query fails |
| EntryStore.Entries.CreateTimeEntry | app/src/lib/stores/entryStore.ts:37-55 | returns the created record exactly when authenticated and the creation of the prepared payload succeeds; never changes the list |
| EntryStore.Entries.UpdateTimeEntry | app/src/lib/stores/entryStore.ts:58-92 | succeeds exactly when authenticated and both the update and the re-read with the project expanded succeed; then the re-read record replaces every entry with the id and is returned; otherwise the list is unchanged |
| EntryStore.Entries.DeleteTimeEntry | app/src/lib/stores/entryStore.ts:95-110 | succeeds exactly when authenticated and the deletion succeeds; then every entry with the id is removed; otherwise the list is unchanged |
| EntryStore.Entries.StartTimeEntry | app/src/lib/stores/entryStore.ts:113-166 | succeeds exactly when the creation succeeds, with no authentication check; returns the new id and puts the created record, with its `expand`, in front of the list; otherwise nothing changes |
| EntryStore.Entries.StopTimeEntry | app/src/lib/stores/entryStore.ts:169-201 | succeeds exactly when authenticated and both the read and the update succeed; the entries with the id are then patched with the end time and rounded duration that were sent; otherwise the list is unchanged |
| EntryStore.Entries.OnEntryEvent | app/src/lib/stores/entryStore.ts:205-212 | any event refetches the user's entries without date bounds |
| EntryStore.StopDuration | app/src/lib/stores/entryStore.ts:178-180 | the stop duration is floor((now - start + 30000) / 60000) minutes |
| EntryStore.StoppedEntryConsistent | app/src/lib/stores/entryStore.ts:178-186 | when the end time and the clock value are one reading, the stopped entry's duration is the rounded length of its own interval from start to end |
| EntryStore.StopChangesOnlyEndAndDuration | app/src/lib/stores/entryStore.ts:187-194 | stopping keeps the list's length, sets only `endTime` and `duration` on entries with the id, keeps every other field, and leaves every other entry as it was |
| RecordLists.ReplaceWhere | app/src/lib/stores/entryStore.ts:79-85 | same length; each element with the id becomes the record, every other element is unchanged |
| RecordLists.MergeWhere | app/src/lib/stores/projectStore.ts:77-79 | same length; each element with the id gains every field of the patch and keeps its own other fields; every other element is unchanged |
| RecordLists.RemoveWhere | app/src/lib/stores/projectStore.ts:94 | the result holds exactly the elements whose id differs, and is the input when no element has the id |
| RecordLists.RemoveWhereAppend | app/src/lib/stores/projectStore.ts:94 | removal distributes over concatenation, so survivors keep their order |
| RecordLists.RemoveWhereIdempotent | app/src/lib/stores/projectStore.ts:94 | removing the same id twice is the same as once |
| RecordLists.FirstFlagged | app/src/lib/stores/projectStore.ts:9-11 | null exactly when no element has its flag set; otherwise the element at the first index whose flag is set |
| RecordLists.OtherDefaults | app/src/lib/stores/projectStore.ts:111-113 | exactly the elements that are flagged and do not carry the kept id |
| RecordLists.ClearDefaults | app/src/lib/stores/projectStore.ts:121-127 | same length and ids; every flagged element without the kept id gets the flag set to `false`; the kept one and the unflagged ones are untouched; no field other than the flag changes |
| RecordLists.NoOtherDefaultsAfterClear | app/src/lib/stores/projectStore.ts:104-128 | after the reconcile no element other than the kept one is flagged |
| RecordLists.ClearDefaultsIdempotent | app/src/lib/stores/projectStore.ts:121-127 | reconciling twice is the same as once |
| RecordLists.FirstFlaggedAfterClear | app/src/lib/stores/projectStore.ts:104-128 | after the reconcile the derived default is none or a record with the kept id |
| RecordLists.SingleDefaultAfterUpdate | app/src/lib/stores/projectStore.ts:64-86 | after an update that sets the flag, reconciles and merges the response, only records with the updated id are flagged |
| RecordLists.IssueClearingWrites | app/src/lib/stores/projectStore.ts:116-118 | the writes go in store order to a prefix of the other defaults' ids; the run succeeds exactly when the backend accepts every competitor's clearing write, and then it has written all of them; on failure the last write was rejected and every earlier one accepted |
| RecordLists.FirstRejected | app/src/lib/stores/projectStore.ts:116-118 | the index of the first id whose write the backend rejects: every earlier write is accepted and the one at the index is rejected |
| RecordLists.RunStopsAtFirstRejection | app/src/lib/stores/projectStore.ts:116-118 | a run's writes are exactly the ids up to and including the first rejected one, or all of them when none is rejected |
| RecordLists.ClearingRunUnique | app/src/lib/stores/projectStore.ts:111-118 | the snapshot and the backend's answers determine the run: two runs issue the same writes with the same outcome |
| RecordLists.SecondRunIsQuiet | app/src/lib/stores/projectStore.ts:111-118 | an enforcer run on a list it has already reconciled issues no write and succeeds, whatever the backend would answer |
| RecordLists.Reduce | app/src/lib/stores/projectStore.ts:135-150 | `create` appends the record after the untouched list; `update` replaces every element with the record's id; `delete` keeps exactly the elements with another id; any other action changes nothing |
| RecordLists.CreateThenDelete | app/src/lib/stores/projectStore.ts:139-149 | a pushed creation followed by its deletion equals deleting that id from the original list, and restores the list exactly when the id was new |
| RecordLists.ReplayIdempotent | app/src/lib/stores/projectStore.ts:142-149 | replaying an update or delete event a second time changes nothing |
| ProjectStore.OwnedBy | app/src/lib/stores/projectStore.ts:25-32 | keeps exactly the projects whose owner is the user or whose owner array contains the user |
| ProjectStore.OwnedByKeepsOrder | app/src/lib/stores/projectStore.ts:25-32 | the owner filter distributes over any split of the page, so the server order is kept |
| ProjectStore.Projects.constructor | app/src/lib/stores/projectStore.ts:6 | the store starts empty |
| ProjectStore.Projects.DefaultProject | app/src/lib/stores/projectStore.ts:9-11 | null exactly when no project is flagged; otherwise a flagged project of the store |
| ProjectStore.Projects.FetchProjects | app/src/lib/stores/projectStore.ts:15-40 | the store becomes the user's projects of the unfiltered newest-first page, or empty when the query fails |
| ProjectStore.Projects.UpdateDefaultProject | app/src/lib/stores/projectStore.ts:104-128 | the clearing writes are the other defaults' ids in store order, up to and including the first one the backend rejects; the run succeeds exactly when every write is accepted; on success the store is reconciled, on a rejected write it is unchanged |
| ProjectStore.Projects.CreateProject | app/src/lib/stores/projectStore.ts:43-61 | a failed creation changes nothing; an unflagged payload returns the record and leaves the store alone; a flagged one runs the enforcer for the new id, and the record is returned exactly when every clearing write is accepted, the store then being reconciled; otherwise null is returned and the store is unchanged |
| ProjectStore.Projects.UpdateProject | app/src/lib/stores/projectStore.ts:64-86 | a failed update changes nothing; when the patch sets the flag the enforcer runs for the id, and the response is returned exactly when every clearing write is accepted; on success the response is merged into every project with the id, after the reconcile when the patch sets the flag; a failed enforcer leaves the store unchanged and returns null |
| ProjectStore.Projects.DeleteProject | app/src/lib/stores/projectStore.ts:89-101 | succeeds exactly when the deletion does; then every project with the id is removed, otherwise nothing changes |
| ProjectStore.Projects.OnProjectEvent | app/src/lib/stores/projectStore.ts:135-150 | the store becomes the reduction of the event |
| TaskStore.Tasks.constructor | app/src/lib/stores/taskStore.ts:6 | the store starts empty |
| TaskStore.Tasks.DefaultTask | app/src/lib/stores/taskStore.ts:9-11 | null exactly when no task is flagged; otherwise a flagged task of the store |
| TaskStore.Tasks.FetchTasks | app/src/lib/stores/taskStore.ts:14-26 | the store becomes the first page of 100 of the user's tasks, newest first, or empty when the query fails |
| TaskStore.Tasks.UpdateDefaultTask | app/src/lib/stores/taskStore.ts:86-110 | the clearing writes are the other defaults' ids in store order, up to and including the first one the backend rejects; the run succeeds exactly when every write is accepted; on success the store is reconciled, on a rejected write it is unchanged |
| TaskStore.Tasks.CreateTask | app/src/lib/stores/taskStore.ts:29-46 | a failed creation changes nothing; an unflagged payload returns the record and leaves the store alone; a flagged one runs the enforcer for the new id, and the record is returned exactly when every clearing write is accepted, the store then being reconciled; otherwise null is returned and the store is unchanged |
| TaskStore.Tasks.UpdateTask | app/src/lib/stores/taskStore.ts:49-68 | a failed update changes nothing; when the patch sets the flag the enforcer runs for the id, and the response is returned exactly when every clearing write is accepted; on success the response is merged into every task with the id, after the reconcile when the patch sets the flag; a failed enforcer leaves the store unchanged and returns null |
| TaskStore.Tasks.DeleteTask | app/src/lib/stores/taskStore.ts:71-83 | succeeds exactly when the deletion does; then every task with the id is removed, otherwise nothing changes |
| TaskStore.Tasks.OnTaskEvent | app/src/lib/stores/taskStore.ts:114-125 | the store becomes the reduction of the event |
| TagStore.Tags.constructor | app/src/lib/stores/tagStore.ts:5 | the store starts empty |
| TagStore.Tags.DefaultTag | app/src/lib/stores/tagStore.ts:8-10 | null exactly when no tag is flagged; otherwise a flagged tag of the store |
| TagStore.Tags.FetchTags | app/src/lib/stores/tagStore.ts:13-25 | the store becomes the first page of 100 of the user's tags, newest first, or empty when the query fails |
| TagStore.Tags.UpdateDefaultTag | app/src/lib/stores/tagStore.ts:88-112 | the clearing writes are the other defaults' ids in store order, up to and including the first one the backend rejects; the run succeeds exactly when every write is accepted; on success the store is reconciled, on a rejected write it is unchanged |
| TagStore.Tags.CreateTag | app/src/lib/stores/tagStore.ts:31-48 | a failed creation changes nothing; an unflagged payload returns the record and leaves the store alone; a flagged one runs the enforcer for the new id, and the record is returned exactly when every clearing write is accepted, the store then being reconciled; otherwise null is returned and the store is unchanged |
| TagStore.Tags.UpdateTag | app/src/lib/stores/tagStore.ts:51-70 | a failed update changes nothing; when the patch sets the flag the enforcer runs for the id, and the response is returned exactly when every clearing write is accepted; on success the response is merged into every tag with the id, after the reconcile when the patch sets the flag; a failed enforcer leaves the store unchanged and returns null |
| TagStore.Tags.DeleteTag | app/src/lib/stores/tagStore.ts:73-85 | succeeds exactly when the deletion does; then every tag with the id is removed, otherwise nothing changes |
| TagStore.Tags.OnTagEvent | app/src/lib/stores/tagStore.ts:116-127 | the store becomes the reduction of the event |
| UserStore.ProfileCompletion | app/src/lib/stores/userStore.ts:9-28 | 0 without a user; otherwise a percentage between 0 and 100 equal to floor((200c + 7) / 14) for c filled fields of seven |
| UserStore.CompletionRounding | app/src/lib/stores/userStore.ts:27 | `Math.round(c / 7 * 100)` equals floor((200c + 7) / 14) for every count |
| UserStore.CompletionExtremes | app/src/lib/stores/userStore.ts:22-27 | every listed field filled gives 100; none filled gives 0 |
| UserStore.CompletionMonotone | app/src/lib/stores/userStore.ts:22-27 | filling more of the listed fields never lowers the percentage |
| UserStore.Profile.constructor | app/src/lib/stores/userStore.ts:6 | the store starts with no user |
| UserStore.Profile.UpdateUserProfile | app/src/lib/stores/userStore.ts:31-45 | a failed update changes nothing and returns null; on success the response is spread over the current profile (or becomes it) and the response is returned |
| UserStore.Profile.InitUserStore | app/src/lib/stores/userStore.ts:48-50 | the profile becomes the given user |
| TimeUtils.JsRem | app/src/lib/utils/timeUtils.ts:5 | the remainder of division truncated toward zero: the dividend is the truncated quotient times the divisor plus the remainder, and the remainder has the dividend's sign and is smaller than the divisor in magnitude, which determines it |
| TimeUtils.FormatDuration | app/src/lib/utils/timeUtils.ts:3-7 | for a non-negative duration the text reads back as the whole hours and the minutes within the hour; the separator is the third character from the end, so the minutes are exactly two digits and the hours are zero-padded to at least two; the text is five characters below ten hours, and the hours are never truncated above |
| TimeUtils.ClockRoundTrip | app/src/lib/utils/timeUtils.ts:6 | two zero-padded numbers joined by `:` read back as those numbers |
| TimeUtils.DigitsRoundTrip | app/src/lib/utils/timeUtils.ts:6 | the decimal text of a number reads back as that number |
| TimeUtils.DurationFields | app/src/lib/utils/timeUtils.ts:3-7 | the minutes are below 60, and hours and minutes together make up every whole minute of the duration |
| TimeUtils.DayKeys | app/src/lib/utils/timeUtils.ts:30-41 | the day keys are pairwise distinct: each day is opened once |
| TimeUtils.DayKeysMembers | app/src/lib/utils/timeUtils.ts:30-41 | a day is a key exactly when some entry with a start time falls on it |
| TimeUtils.CollectByDay | app/src/lib/utils/timeUtils.ts:27-41 | the loop yields every day of the entries once, in order of first appearance, each with exactly the entries of that day in their original order, none empty |
| TimeUtils.ToGroups | app/src/lib/utils/timeUtils.ts:44-49 | one group per collected day, holding that day's entries, collapsed |
| TimeUtils.InsertByDate | app/src/lib/utils/timeUtils.ts:50 | inserting adds exactly the one group to the multiset |
| TimeUtils.SortNewestFirst | app/src/lib/utils/timeUtils.ts:50 | the sort is a permutation of its input |
| TimeUtils.SortedNewestFirst | app/src/lib/utils/timeUtils.ts:50 | groups with distinct days come out strictly newest day first |
| TimeUtils.LexTotal | app/src/lib/utils/timeUtils.ts:50 | two different day keys are always ordered one way or the other |
| TimeUtils.LexTransitive | app/src/lib/utils/timeUtils.ts:50 | the day order is transitive |
| TimeUtils.GroupsAreDays | app/src/lib/utils/timeUtils.ts:27-49 | every returned group is collapsed, non-empty and holds exactly its day's entries |
| TimeUtils.DaysHaveGroups | app/src/lib/utils/timeUtils.ts:30-49 | every entry with a start time has a group for its day |
| TimeUtils.GroupEntriesByDay | app/src/lib/utils/timeUtils.ts:24-51 | no entries give no groups; the groups are strictly newest first (so each day appears once), collapsed, non-empty, each holding exactly its day's entries in order, and every entry with a start time has its day's group |

## Left out

- The backend's own behaviour (storage, filtering, sorting, the 100-record page cap) is not part of this model. Every request is a parameter whose outcome may be anything, and the stores are proved for every outcome.
- `ensureAuthenticated` is an input `auth`, not a session; token refresh is not modelled.
- Asynchrony and interleaving are not modelled. Each operation runs to completion with no other store change or push event in between, so the enforcer's snapshot is also the list it reconciles.
- Realtime subscriptions are modelled only as their handlers (`OnEntryEvent`, `OnProjectEvent`, `OnTaskEvent`, `OnTagEvent`). Setting up a subscription and the unsubscribe handle are not modelled. For tasks and tags that handle is the subscription promise itself.
- `debugProjects` and every console message: diagnostics only.
- `formatTimeRange` and `formatDate`: they delegate to locale-dependent `Intl` formatting, which is not part of this model.
- Date parsing and rendering are inputs. `new Date(s).getTime()` is `millis`, `new Date().toISOString()` is `nowIso`, and the ISO day of a start time is `dayOf`. An invalid date (NaN, or the RangeError `toISOString` throws) is not modelled.
- Floating point: durations and percentages are computed on exact reals and integers. `Math.round` is floor of x + 1/2, the rounding JavaScript applies to halves.
- TimeUtils.FormatDuration: its round-trip contract is stated for non-negative durations only. Negative durations are computed as JavaScript computes them (flooring hours, truncating `%`, a minus sign in the text), but nothing is proved about them.
- TimeUtils.GroupEntriesByDay: the comparator subtracts the times of the day keys. It is modelled as the descending lexicographic order of the keys, which agrees with time order for `YYYY-MM-DD` keys. A missing `entries` argument (`!entries`) is not modelled, since a sequence is always present.
- EntryStore.Entries.CreateTimeEntry: `createTimeEntry` writes the computed duration into the caller's own object. The model sends a prepared copy and does not model that aliasing.
- EntryStore.FilterRoundTrip: assumes ids and ISO dates contain no `"`. A quote in an id would change the filter's meaning; escaping is not modelled.
- Record identity: records are compared and replaced as values, not as object references.
- `headerControlsStore` and the backend migrations are not part of this model. Of the migrations, only the users-collection field name is mentioned above.
