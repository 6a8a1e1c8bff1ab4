/** The user store: the signed-in user's profile, or null, and the derived
    profile-completion percentage. */
module UserStore {
  import opened JsValues
  import opened Gateway

  /** The fields the completion checklist looks at. */
  const Checklist: seq<string> := ["name", "username", "avatar", "themePreference",
                                   "languagePreference", "timezonePreference", "notificationPreferences"]

  /** A checklist field counts when it is defined, not null and not `''`. */
  predicate Filled(u: Obj, field: string) {
    Get(u, field) != Undefined && Get(u, field) != Null && Get(u, field) != Str("")
  }

  /** How many of `fields` the profile fills. */
  function CountFilled(u: Obj, fields: seq<string>): (c: nat)
    ensures c <= |fields|
  {
    if fields == [] then 0 else (if Filled(u, fields[0]) then 1 else 0) + CountFilled(u, fields[1..])
  }

  /** `profileCompletion`: 0 for no user, else the filled share of the
      checklist as a whole percentage, rounded as Math.round rounds. */
  function ProfileCompletion(user: Option<Obj>): (pct: int)
    ensures 0 <= pct <= 100
    ensures user.None? ==> pct == 0
    ensures user.Some? ==> pct == (200 * CountFilled(user.value, Checklist) + 7) / 14
  {
    match user
    case None => 0
    case Some(u) =>
      var c := CountFilled(u, Checklist);
      CompletionRounding(c);
      JsRound((c as real / |Checklist| as real) * 100.0)
  }

  /** Math.round of `c / 7 * 100` is floor division of `200c + 7` by 14. */
  lemma CompletionRounding(c: int)
    ensures JsRound((c as real / 7.0) * 100.0) == (200 * c + 7) / 14
  {
    var q := (200 * c + 7) / 14;
    var r := (200 * c + 7) % 14;
    assert 200 * c + 7 == 14 * q + r && 0 <= r < 14;
    assert (c as real / 7.0) * 100.0 == q as real + (r - 7) as real / 14.0;
    JsRoundIs((c as real / 7.0) * 100.0, q);
  }

  /** Every listed field filled gives 100; none filled gives 0. */
  lemma CompletionExtremes(u: Obj)
    ensures (forall i :: 0 <= i < |Checklist| ==> Filled(u, Checklist[i])) ==> ProfileCompletion(Some(u)) == 100
    ensures (forall i :: 0 <= i < |Checklist| ==> !Filled(u, Checklist[i])) ==> ProfileCompletion(Some(u)) == 0
  {
    CountAll(u, Checklist);
    CountNone(u, Checklist);
  }

  lemma {:induction false} CountAll(u: Obj, fields: seq<string>)
    ensures (forall i :: 0 <= i < |fields| ==> Filled(u, fields[i])) ==> CountFilled(u, fields) == |fields|
  {
    if fields != [] {
      CountAll(u, fields[1..]);
    }
  }

  lemma {:induction false} CountNone(u: Obj, fields: seq<string>)
    ensures (forall i :: 0 <= i < |fields| ==> !Filled(u, fields[i])) ==> CountFilled(u, fields) == 0
  {
    if fields != [] {
      CountNone(u, fields[1..]);
    }
  }

  lemma {:induction false} CountMonotone(u: Obj, v: Obj, fields: seq<string>)
    requires forall i :: 0 <= i < |fields| && Filled(u, fields[i]) ==> Filled(v, fields[i])
    ensures CountFilled(u, fields) <= CountFilled(v, fields)
  {
    if fields != [] {
      CountMonotone(u, v, fields[1..]);
    }
  }

  /** Filling more of the listed fields never lowers the percentage. */
  lemma CompletionMonotone(u: Obj, v: Obj)
    requires forall i :: 0 <= i < |Checklist| && Filled(u, Checklist[i]) ==> Filled(v, Checklist[i])
    ensures ProfileCompletion(Some(u)) <= ProfileCompletion(Some(v))
  {
    CountMonotone(u, v, Checklist);
  }

  /** `userStore`. */
  class Profile {
    var user: Option<Obj>

    constructor ()
      ensures user == None
    {
      user := None;
    }

    /** `updateUserProfile`: on success the response is spread over the
        current profile (or becomes the profile when there is none) and is
        what the call returns; on failure nothing changes. */
    method UpdateUserProfile(id: string, data: Obj, users: Collection) returns (updated: Option<Obj>)
      modifies this
      ensures users.update(Str(id), data).Failed? ==> updated.None? && user == old(user)
      ensures users.update(Str(id), data).Ok? ==>
        var response := users.update(Str(id), data).value;
        updated == Some(response) &&
        user == Some(if old(user).Some? then Spread(old(user).value, response) else response)
    {
      match users.update(Str(id), data)
      case Failed => updated := None;
      case Ok(response) =>
        user := Some(if user.Some? then Spread(user.value, response) else response);
        updated := Some(response);
    }

    /** `initUserStore`. */
    method InitUserStore(initial: Option<Obj>)
      modifies this
      ensures user == initial
    {
      user := initial;
    }
  }
}
