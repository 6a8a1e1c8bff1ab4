/** The list transforms the stores apply to their in-memory collections.

    Each store keeps an array of records and changes it with `map`, `filter`,
    prepend and append. Ids are not assumed to be unique: every transform acts
    on all elements whose id matches. */
module RecordLists {
  import opened JsValues
  import opened Gateway

  /** `xs.filter(p)`: the elements satisfying `p`, in their original order. */
  function Filter(xs: seq<Obj>, p: Obj -> bool): (ys: seq<Obj>)
    ensures |ys| <= |xs|
    ensures forall x :: x in ys <==> x in xs && p(x)
    ensures (forall i :: 0 <= i < |xs| ==> p(xs[i])) ==> ys == xs
  {
    if xs == [] then [] else (if p(xs[0]) then [xs[0]] else []) + Filter(xs[1..], p)
  }

  /** Filtering distributes over concatenation, so it never reorders elements. */
  lemma {:induction false} FilterAppend(a: seq<Obj>, b: seq<Obj>, p: Obj -> bool)
    ensures Filter(a + b, p) == Filter(a, p) + Filter(b, p)
  {
    if a == [] {
      assert a + b == b;
    } else {
      assert (a + b)[1..] == a[1..] + b;
      FilterAppend(a[1..], b, p);
    }
  }

  /** Nothing passes the filter when no element satisfies the predicate. */
  lemma {:induction false} FilterNone(xs: seq<Obj>, p: Obj -> bool)
    requires forall i :: 0 <= i < |xs| ==> !p(xs[i])
    ensures Filter(xs, p) == []
  {
    if xs != [] {
      FilterNone(xs[1..], p);
    }
  }

  /** Filtering twice by the same predicate is filtering once. */
  lemma FilterTwice(xs: seq<Obj>, p: Obj -> bool)
    ensures Filter(Filter(xs, p), p) == Filter(xs, p)
  {
    var ys := Filter(xs, p);
    assert forall i :: 0 <= i < |ys| ==> ys[i] in ys;
  }

  /** A list query's outcome as the stores apply it: the returned items, or an
      empty list when the query failed. */
  function FetchedOrEmpty(response: Outcome<seq<Obj>>): (items: seq<Obj>)
    ensures response.Ok? ==> items == response.value
    ensures response.Failed? ==> items == []
  {
    match response
    case Ok(items) => items
    case Failed => []
  }

  // ---------------------------------------------------------------------------
  // Replacing, merging and removing by id

  /** `xs.map(x => x.id === id ? r : x)`: the update step of the entry store and
      of the realtime reducers. */
  function ReplaceWhere(xs: seq<Obj>, id: Value, r: Obj): (ys: seq<Obj>)
    ensures |ys| == |xs|
    ensures forall i :: 0 <= i < |xs| && IdIs(xs[i], id) ==> ys[i] == r
    ensures forall i :: 0 <= i < |xs| && !IdIs(xs[i], id) ==> ys[i] == xs[i]
  {
    seq(|xs|, i requires 0 <= i < |xs| => if IdIs(xs[i], id) then r else xs[i])
  }

  /** `xs.map(x => x.id === id ? {...x, ...patch} : x)`: the update step of the
      project, task and tag stores, and the stop step of the entry store. */
  function MergeWhere(xs: seq<Obj>, id: Value, patch: Obj): (ys: seq<Obj>)
    ensures |ys| == |xs|
    ensures forall i :: 0 <= i < |xs| && IdIs(xs[i], id) ==>
      ys[i].Keys == xs[i].Keys + patch.Keys &&
      (forall f :: f in patch ==> ys[i][f] == patch[f]) &&
      (forall f :: f in xs[i] && f !in patch ==> ys[i][f] == xs[i][f])
    ensures forall i :: 0 <= i < |xs| && !IdIs(xs[i], id) ==> ys[i] == xs[i]
  {
    seq(|xs|, i requires 0 <= i < |xs| => if IdIs(xs[i], id) then Spread(xs[i], patch) else xs[i])
  }

  /** `xs.filter(x => x.id !== id)`. */
  function RemoveWhere(xs: seq<Obj>, id: Value): (ys: seq<Obj>)
    ensures forall x :: x in ys <==> x in xs && !IdIs(x, id)
    ensures (forall i :: 0 <= i < |xs| ==> !IdIs(xs[i], id)) ==> ys == xs
    ensures |ys| <= |xs|
  {
    Filter(xs, x => !IdIs(x, id))
  }

  /** Removing keeps the survivors in their original order. */
  lemma RemoveWhereAppend(a: seq<Obj>, b: seq<Obj>, id: Value)
    ensures RemoveWhere(a + b, id) == RemoveWhere(a, id) + RemoveWhere(b, id)
  {
    FilterAppend(a, b, x => !IdIs(x, id));
  }

  /** A second removal of the same id changes nothing. */
  lemma RemoveWhereIdempotent(xs: seq<Obj>, id: Value)
    ensures RemoveWhere(RemoveWhere(xs, id), id) == RemoveWhere(xs, id)
  {
    FilterTwice(xs, x => !IdIs(x, id));
  }

  // ---------------------------------------------------------------------------
  // The default flag

  /** The local write of the single-default enforcer: the patch that clears it. */
  function ClearPatch(flag: string): (p: Obj)
    ensures p.Keys == {flag} && p[flag] == Bool(false) && !Truthy(Get(p, flag))
  {
    map[flag := Bool(false)]
  }

  /** Index `i` holds the first element of `xs` whose flag is set. */
  ghost predicate FlaggedFirstAt(xs: seq<Obj>, flag: string, i: int) {
    0 <= i < |xs| && Truthy(Get(xs[i], flag)) && forall j :: 0 <= j < i ==> !Truthy(Get(xs[j], flag))
  }

  /** `xs.find(x => x[flag]) || null`: the first element whose flag is set. */
  function FirstFlagged(xs: seq<Obj>, flag: string): (r: Option<Obj>)
    ensures r.None? <==> forall i :: 0 <= i < |xs| ==> !Truthy(Get(xs[i], flag))
    ensures r.Some? ==> exists i :: FlaggedFirstAt(xs, flag, i) && xs[i] == r.value
  {
    if xs == [] then None
    else if Truthy(Get(xs[0], flag)) then Some(xs[0])
    else
      var r := FirstFlagged(xs[1..], flag);
      assert r.Some? ==> exists i :: FlaggedFirstAt(xs, flag, i) && xs[i] == r.value by {
        if r.Some? {
          var i :| FlaggedFirstAt(xs[1..], flag, i) && xs[1..][i] == r.value;
          assert FlaggedFirstAt(xs, flag, i + 1);
        }
      }
      r
  }

  /** The competitors of `keep`: `xs.filter(x => x[flag] && x.id !== keep)`. */
  function OtherDefaults(xs: seq<Obj>, flag: string, keep: Value): (ys: seq<Obj>)
    ensures forall x :: x in ys <==> x in xs && Truthy(Get(x, flag)) && !IdIs(x, keep)
    ensures |ys| <= |xs|
  {
    Filter(xs, x => Truthy(Get(x, flag)) && !IdIs(x, keep))
  }

  /** The ids of `xs`, in order. */
  function IdsOf(xs: seq<Obj>): (ids: seq<Value>)
    ensures |ids| == |xs| && forall i :: 0 <= i < |xs| ==> IdIs(xs[i], ids[i])
  {
    seq(|xs|, i requires 0 <= i < |xs| => Get(xs[i], "id"))
  }

  /** The local reconcile of the single-default enforcer:
      `xs.map(x => x.id !== keep && x[flag] ? {...x, [flag]: false} : x)`. */
  function ClearDefaults(xs: seq<Obj>, flag: string, keep: Value): (ys: seq<Obj>)
    requires flag != "id"
    ensures |ys| == |xs|
    ensures forall i :: 0 <= i < |xs| ==> (IdIs(ys[i], keep) <==> IdIs(xs[i], keep))
    ensures forall i :: 0 <= i < |xs| && !IdIs(xs[i], keep) ==> !Truthy(Get(ys[i], flag))
    ensures forall i :: 0 <= i < |xs| && (IdIs(xs[i], keep) || !Truthy(Get(xs[i], flag))) ==> ys[i] == xs[i]
    ensures forall i :: 0 <= i < |xs| && !IdIs(xs[i], keep) && Truthy(Get(xs[i], flag)) ==> Get(ys[i], flag) == Bool(false)
    ensures forall i :: 0 <= i < |xs| ==> (ys[i].Keys == xs[i].Keys &&
      forall f :: f in xs[i] && f != flag ==> ys[i][f] == xs[i][f])
  {
    seq(|xs|, i requires 0 <= i < |xs| =>
      if !IdIs(xs[i], keep) && Truthy(Get(xs[i], flag)) then Spread(xs[i], ClearPatch(flag)) else xs[i])
  }

  /** After the reconcile nobody competes with `keep`: a second enforcement
      finds nothing to clear. */
  lemma NoOtherDefaultsAfterClear(xs: seq<Obj>, flag: string, keep: Value)
    requires flag != "id"
    ensures OtherDefaults(ClearDefaults(xs, flag, keep), flag, keep) == []
  {
    FilterNone(ClearDefaults(xs, flag, keep), x => Truthy(Get(x, flag)) && !IdIs(x, keep));
  }

  /** The reconcile is idempotent. */
  lemma ClearDefaultsIdempotent(xs: seq<Obj>, flag: string, keep: Value)
    requires flag != "id"
    ensures ClearDefaults(ClearDefaults(xs, flag, keep), flag, keep) == ClearDefaults(xs, flag, keep)
  {
  }

  /** After the reconcile, the derived "default" lookup yields either nothing
      or a record carrying the id that was made default. */
  lemma FirstFlaggedAfterClear(xs: seq<Obj>, flag: string, keep: Value)
    requires flag != "id"
    ensures var r := FirstFlagged(ClearDefaults(xs, flag, keep), flag);
      r.None? || IdIs(r.value, keep)
  {
  }

  /** An update that sets the flag, applied after the reconcile, leaves the
      flag only on records carrying the updated id (the response names the
      record it updated, or no id at all). */
  lemma SingleDefaultAfterUpdate(xs: seq<Obj>, flag: string, id: Value, response: Obj)
    requires flag != "id"
    requires "id" in response ==> response["id"] == id
    ensures forall y :: y in MergeWhere(ClearDefaults(xs, flag, id), id, response) && Truthy(Get(y, flag)) ==>
      IdIs(y, id)
  {
    var ys := ClearDefaults(xs, flag, id);
    var zs := MergeWhere(ys, id, response);
    forall y | y in zs && Truthy(Get(y, flag))
      ensures IdIs(y, id)
    {
      var i :| 0 <= i < |zs| && zs[i] == y;
    }
  }

  /** The backend accepts the clearing write of every competitor of `keep`. */
  predicate ClearingAccepted(xs: seq<Obj>, flag: string, keep: Value, update: (Value, Obj) -> Outcome<Obj>) {
    forall j :: 0 <= j < |OtherDefaults(xs, flag, keep)| ==>
      update(IdsOf(OtherDefaults(xs, flag, keep))[j], ClearPatch(flag)).Ok?
  }

  /** What a run of the clearing loop over `xs` does when the backend answers
      with `update`: the writes are the competitors' ids in store order up to
      and including the first rejected one, and the run succeeds exactly when
      every write is accepted. */
  predicate ClearingRun(xs: seq<Obj>, flag: string, keep: Value, update: (Value, Obj) -> Outcome<Obj>,
                        writes: seq<Value>, ok: bool) {
    var ids := IdsOf(OtherDefaults(xs, flag, keep));
    && writes <= ids
    && (ok <==> ClearingAccepted(xs, flag, keep, update))
    && (ok ==> writes == ids)
    && (!ok ==> |writes| > 0 && update(writes[|writes| - 1], ClearPatch(flag)).Failed?)
    && (forall j :: 0 <= j < |writes| - 1 ==> update(writes[j], ClearPatch(flag)).Ok?)
    && (ok && |writes| > 0 ==> update(writes[|writes| - 1], ClearPatch(flag)).Ok?)
  }

  /** The index of the first id whose clearing write the backend rejects, or
      the number of ids when it accepts them all. */
  function FirstRejected(ids: seq<Value>, flag: string, update: (Value, Obj) -> Outcome<Obj>): (r: nat)
    ensures r <= |ids|
    ensures forall j :: 0 <= j < r ==> update(ids[j], ClearPatch(flag)).Ok?
    ensures r < |ids| ==> update(ids[r], ClearPatch(flag)).Failed?
  {
    if ids == [] then 0
    else if update(ids[0], ClearPatch(flag)).Failed? then 0
    else 1 + FirstRejected(ids[1..], flag, update)
  }

  /** A run stops right after the first rejected write, or after the last
      write when none is rejected. */
  lemma RunStopsAtFirstRejection(xs: seq<Obj>, flag: string, keep: Value, update: (Value, Obj) -> Outcome<Obj>,
                                 writes: seq<Value>, ok: bool)
    requires ClearingRun(xs, flag, keep, update, writes, ok)
    ensures var ids := IdsOf(OtherDefaults(xs, flag, keep));
      writes == ids[..if ok then |ids| else FirstRejected(ids, flag, update) + 1]
  {
    var ids := IdsOf(OtherDefaults(xs, flag, keep));
    var r := FirstRejected(ids, flag, update);
    assert forall j :: 0 <= j < |writes| ==> writes[j] == ids[j];
    assert !ok ==> r == |writes| - 1;
    assert writes == ids[..|writes|];
  }

  /** A run is determined by the snapshot and the backend's answers: two runs
      over the same inputs issue the same writes with the same outcome. */
  lemma ClearingRunUnique(xs: seq<Obj>, flag: string, keep: Value, update: (Value, Obj) -> Outcome<Obj>,
                          writes1: seq<Value>, ok1: bool, writes2: seq<Value>, ok2: bool)
    requires ClearingRun(xs, flag, keep, update, writes1, ok1)
    requires ClearingRun(xs, flag, keep, update, writes2, ok2)
    ensures ok1 == ok2 && writes1 == writes2
  {
    RunStopsAtFirstRejection(xs, flag, keep, update, writes1, ok1);
    RunStopsAtFirstRejection(xs, flag, keep, update, writes2, ok2);
  }

  /** The clearing writes of the single-default enforcer:
      `for (const x of others) await update(x.id, {[flag]: false})`.
      The writes go one at a time, in store order, to the ids of the records
      other than `keep` whose flag is set in `snapshot`; the loop has no
      `try`, so the first rejected write ends it (`ok` false) and the
      rejection propagates to the caller. */
  method IssueClearingWrites(snapshot: seq<Obj>, flag: string, keep: Value,
                             update: (Value, Obj) -> Outcome<Obj>)
    returns (writes: seq<Value>, ok: bool)
    ensures ClearingRun(snapshot, flag, keep, update, writes, ok)
    ensures writes <= IdsOf(OtherDefaults(snapshot, flag, keep))
    ensures ok ==> writes == IdsOf(OtherDefaults(snapshot, flag, keep))
    ensures ok ==> forall j :: 0 <= j < |writes| ==> update(writes[j], ClearPatch(flag)).Ok?
    ensures !ok ==> (|writes| > 0 && update(writes[|writes| - 1], ClearPatch(flag)).Failed? &&
      forall j :: 0 <= j < |writes| - 1 ==> update(writes[j], ClearPatch(flag)).Ok?)
    ensures ok <==> ClearingAccepted(snapshot, flag, keep, update)
  {
    var others := OtherDefaults(snapshot, flag, keep);
    var ids := IdsOf(others);
    writes, ok := [], true;
    var i := 0;
    while i < |others|
      invariant 0 <= i <= |others|
      invariant writes == ids[..i]
      invariant forall j :: 0 <= j < i ==> update(writes[j], ClearPatch(flag)).Ok?
    {
      var id := Get(others[i], "id");
      writes := writes + [id];
      if update(id, ClearPatch(flag)).Failed? {
        ok := false;
        assert ids[i] == writes[i];
        assert update(ids[i], ClearPatch(flag)).Failed?;
        return;
      }
      i := i + 1;
    }
    assert writes == ids;
  }

  /** Running the enforcer on a list it already reconciled issues no write and
      succeeds, whatever the backend would answer. */
  lemma SecondRunIsQuiet(xs: seq<Obj>, flag: string, keep: Value, update: (Value, Obj) -> Outcome<Obj>,
                         writes: seq<Value>, ok: bool)
    requires flag != "id"
    requires ClearingRun(ClearDefaults(xs, flag, keep), flag, keep, update, writes, ok)
    ensures writes == [] && ok
  {
    NoOtherDefaultsAfterClear(xs, flag, keep);
  }

  // ---------------------------------------------------------------------------
  // Realtime events

  /** A push notification: `{action, record}`. */
  datatype Event = Event(action: string, record: Obj)

  /** The subscription handler of the project, task and tag stores: a created
      record is appended, an updated one replaces every element with its id, a
      deleted one removes them; any other action leaves the list alone. */
  function Reduce(xs: seq<Obj>, e: Event): (ys: seq<Obj>)
    ensures e.action == "create" ==> |ys| == |xs| + 1 && ys[..|xs|] == xs && ys[|xs|] == e.record
    ensures e.action == "update" ==> (|ys| == |xs| &&
      forall i :: 0 <= i < |xs| ==> ys[i] == if IdIs(xs[i], Get(e.record, "id")) then e.record else xs[i])
    ensures e.action == "delete" ==> forall x :: x in ys <==> x in xs && !IdIs(x, Get(e.record, "id"))
    ensures e.action !in {"create", "update", "delete"} ==> ys == xs
  {
    if e.action == "create" then xs + [e.record]
    else if e.action == "update" then ReplaceWhere(xs, Get(e.record, "id"), e.record)
    else if e.action == "delete" then RemoveWhere(xs, Get(e.record, "id"))
    else xs
  }

  /** A creation pushed and then deleted leaves the collection as if every
      record with that id had been deleted; in particular a fresh id leaves it
      exactly as it was. */
  lemma CreateThenDelete(xs: seq<Obj>, r: Obj)
    ensures Reduce(Reduce(xs, Event("create", r)), Event("delete", r)) == RemoveWhere(xs, Get(r, "id"))
    ensures (forall i :: 0 <= i < |xs| ==> !IdIs(xs[i], Get(r, "id"))) ==>
      Reduce(Reduce(xs, Event("create", r)), Event("delete", r)) == xs
  {
    RemoveWhereAppend(xs, [r], Get(r, "id"));
  }

  /** Replaying an update or a delete event a second time changes nothing. */
  lemma ReplayIdempotent(xs: seq<Obj>, e: Event)
    requires e.action in {"update", "delete"}
    ensures Reduce(Reduce(xs, e), e) == Reduce(xs, e)
  {
    if e.action == "delete" {
      RemoveWhereIdempotent(xs, Get(e.record, "id"));
    }
  }
}
