/** Time helpers: the `HH:MM` rendering of a duration in seconds and the
    grouping of time entries into days, newest day first. */
module TimeUtils {
  import opened JsValues
  import opened RecordLists

  // ---------------------------------------------------------------------------
  // formatDuration

  /** The quotient of `a / b` truncated toward zero. */
  function TruncDiv(a: int, b: int): int
    requires b > 0
  {
    if a >= 0 then a / b else -((-a) / b)
  }

  /** JavaScript's `%`: the remainder of the division truncated toward zero,
      so it takes the sign of the dividend. */
  function JsRem(a: int, b: int): (r: int)
    requires b > 0
    ensures a == TruncDiv(a, b) * b + r
    ensures a >= 0 ==> 0 <= r < b
    ensures a < 0 ==> -b < r <= 0
    ensures a >= 0 ==> r == a % b
  {
    if a >= 0 then a % b else -((-a) % b)
  }

  function DigitChar(d: nat): char
    requires d < 10
  {
    "0123456789"[d]
  }

  predicate IsDigit(c: char) {
    '0' <= c <= '9'
  }

  /** The decimal digits of `n`, without leading zeros (`Number#toString`). */
  function Digits(n: nat): (s: string)
    ensures |s| >= 1
    ensures forall i :: 0 <= i < |s| ==> IsDigit(s[i])
    ensures n < 10 <==> |s| == 1
  {
    if n < 10 then [DigitChar(n)] else Digits(n / 10) + [DigitChar(n % 10)]
  }

  /** `Number#toString` of an integer. */
  function IntToString(n: int): string {
    if n < 0 then "-" + Digits(-n) else Digits(n)
  }

  /** `padStart(2, '0')`. */
  function PadStart2(s: string): (p: string)
    ensures |p| == if |s| >= 2 then |s| else 2
    ensures |s| >= 2 ==> p == s
  {
    if |s| >= 2 then s else seq(2 - |s|, _ => '0') + s
  }

  /** `formatDuration`: whole hours, then the minutes of the last started hour,
      each at least two characters wide. */
  function FormatDuration(seconds: int): (r: string)
    ensures seconds >= 0 ==> ParseClock(r) == Some((seconds / 3600, seconds % 3600 / 60))
    ensures seconds >= 0 ==> |r| == (if seconds < 36000 then 5 else |Digits(seconds / 3600)| + 3)
    ensures seconds >= 0 ==> r[|r| - 3] == ':'
  {
    var hours := seconds / 3600;
    var minutes := JsRem(seconds, 3600) / 60;
    var r := PadStart2(IntToString(hours)) + ":" + PadStart2(IntToString(minutes));
    if seconds >= 0 then
      ClockRoundTrip(hours, minutes);
      r
    else r
  }

  /** The value of a non-empty run of decimal digits, leading zeros allowed. */
  function ParseDigits(s: string): Option<nat> {
    if s == [] then None
    else if !IsDigit(s[|s| - 1]) then None
    else if |s| == 1 then Some((s[0] - '0') as nat)
    else match ParseDigits(s[..|s| - 1])
      case None => None
      case Some(v) => Some(v * 10 + (s[|s| - 1] - '0') as nat)
  }

  /** Reads `H:M` back into hours and minutes. */
  function ParseClock(s: string): Option<(nat, nat)> {
    match SplitAt(s, ':')
    case None => None
    case Some((h, m)) =>
      match (ParseDigits(h), ParseDigits(m))
      case (Some(hv), Some(mv)) => Some((hv, mv))
      case _ => None
  }

  lemma {:induction false} DigitsRoundTrip(n: nat)
    ensures ParseDigits(Digits(n)) == Some(n)
  {
    if n >= 10 {
      var s := Digits(n);
      assert s[..|s| - 1] == Digits(n / 10);
      DigitsRoundTrip(n / 10);
    }
  }

  /** Padding with a leading zero does not change the value read back. */
  lemma PaddedRoundTrip(n: nat)
    ensures ParseDigits(PadStart2(Digits(n))) == Some(n)
    ensures ':' !in PadStart2(Digits(n))
  {
    DigitsRoundTrip(n);
    var p := PadStart2(Digits(n));
    if n < 10 {
      assert p == ['0', DigitChar(n)];
      assert p[..1] == "0";
    }
    assert forall i :: 0 <= i < |p| ==> IsDigit(p[i]);
  }

  lemma ClockRoundTrip(h: nat, m: nat)
    ensures ParseClock(PadStart2(IntToString(h)) + ":" + PadStart2(IntToString(m))) == Some((h, m))
  {
    PaddedRoundTrip(h);
    PaddedRoundTrip(m);
    SplitAtOf(PadStart2(Digits(h)), ':', PadStart2(Digits(m)));
  }

  /** For a non-negative duration the minutes are a clock reading and the two
      fields together account for every whole minute of the duration: nothing
      is lost to a wrap of the hours, however many there are. */
  lemma DurationFields(seconds: nat)
    ensures var (h, m) := ParseClock(FormatDuration(seconds)).value;
      0 <= m < 60 && h * 3600 + m * 60 == seconds - seconds % 60
  {
  }

  // ---------------------------------------------------------------------------
  // groupEntriesByDay

  datatype DayGroup = DayGroup(date: string, entries: seq<Obj>, expanded: bool)

  /** The day an entry is grouped under: none when its start time is falsy,
      else `dayOf` its start time (`new Date(startTime).toISOString()` up to
      the `T`). */
  function StartDay(e: Obj, dayOf: Value -> string): Option<string> {
    if Truthy(Get(e, "startTime")) then Some(dayOf(Get(e, "startTime"))) else None
  }

  /** The entries that fall on day `d`, in their original order. */
  function OnDay(entries: seq<Obj>, d: string, dayOf: Value -> string): seq<Obj>
  {
    Filter(entries, e => StartDay(e, dayOf) == Some(d))
  }

  /** The days of the entries, each once, in order of first appearance. */
  function DayKeys(entries: seq<Obj>, dayOf: Value -> string): (ks: seq<string>)
    ensures forall a, b :: 0 <= a < b < |ks| ==> ks[a] != ks[b]
  {
    if entries == [] then []
    else
      var init := entries[..|entries| - 1];
      var ks := DayKeys(init, dayOf);
      match StartDay(entries[|entries| - 1], dayOf)
      case None => ks
      case Some(d) => if d in ks then ks else ks + [d]
  }

  /** A day is among the keys exactly when some entry starts on it. */
  lemma {:induction false} DayKeysMembers(entries: seq<Obj>, dayOf: Value -> string)
    ensures forall d :: d in DayKeys(entries, dayOf) <==>
      exists i :: 0 <= i < |entries| && StartDay(entries[i], dayOf) == Some(d)
  {
    if entries != [] {
      var init := entries[..|entries| - 1];
      DayKeysMembers(init, dayOf);
      assert forall i :: 0 <= i < |init| ==> init[i] == entries[i];
    }
  }

  lemma OnDaySnoc(entries: seq<Obj>, x: Obj, d: string, dayOf: Value -> string)
    ensures OnDay(entries + [x], d, dayOf) ==
      OnDay(entries, d, dayOf) + (if StartDay(x, dayOf) == Some(d) then [x] else [])
  {
    FilterAppend(entries, [x], e => StartDay(e, dayOf) == Some(d));
  }

  /** Strict lexicographic order of strings, the order of the ISO day keys. */
  predicate LexLess(a: string, b: string) {
    if b == [] then false
    else if a == [] then true
    else if a[0] != b[0] then a[0] < b[0]
    else LexLess(a[1..], b[1..])
  }

  lemma {:induction false} LexIrreflexive(a: string)
    ensures !LexLess(a, a)
  {
    if a != [] {
      LexIrreflexive(a[1..]);
    }
  }

  lemma {:induction false} LexTransitive(a: string, b: string, c: string)
    requires LexLess(a, b) && LexLess(b, c)
    ensures LexLess(a, c)
  {
    if a != [] && a[0] == b[0] && b[0] == c[0] {
      LexTransitive(a[1..], b[1..], c[1..]);
    }
  }

  lemma {:induction false} LexTotal(a: string, b: string)
    requires a != b
    ensures LexLess(a, b) || LexLess(b, a)
  {
    if a != [] && b != [] && a[0] == b[0] {
      assert a == [a[0]] + a[1..] && b == [b[0]] + b[1..];
      LexTotal(a[1..], b[1..]);
    }
  }

  /** Days strictly descending: the newest day first, no day twice. */
  ghost predicate NewestFirst(gs: seq<DayGroup>) {
    forall j, k :: 0 <= j < k < |gs| ==> LexLess(gs[k].date, gs[j].date)
  }

  /** Places `g` before the first group not newer than it. */
  function InsertByDate(g: DayGroup, gs: seq<DayGroup>): (r: seq<DayGroup>)
    ensures multiset(r) == multiset(gs) + multiset{g}
    ensures |r| == |gs| + 1
  {
    if gs == [] || !LexLess(g.date, gs[0].date) then [g] + gs
    else
      assert gs == [gs[0]] + gs[1..];
      [gs[0]] + InsertByDate(g, gs[1..])
  }

  lemma {:induction false} InsertKeepsNewestFirst(g: DayGroup, gs: seq<DayGroup>)
    requires NewestFirst(gs)
    requires forall i :: 0 <= i < |gs| ==> gs[i].date != g.date
    ensures NewestFirst(InsertByDate(g, gs))
  {
    var r := InsertByDate(g, gs);
    if gs == [] || !LexLess(g.date, gs[0].date) {
      if gs != [] {
        LexTotal(g.date, gs[0].date);
        forall k | 1 <= k < |r|
          ensures LexLess(r[k].date, r[0].date)
        {
          if k > 1 {
            LexTransitive(gs[k - 1].date, gs[0].date, g.date);
          }
        }
      }
    } else {
      InsertKeepsNewestFirst(g, gs[1..]);
      var tail := InsertByDate(g, gs[1..]);
      forall k | 0 <= k < |tail|
        ensures LexLess(tail[k].date, gs[0].date)
      {
        assert tail[k] in multiset(tail);
        assert tail[k] in multiset(gs[1..]) + multiset{g};
        if tail[k] != g {
          assert tail[k] in gs[1..];
          var j :| 0 <= j < |gs[1..]| && gs[1..][j] == tail[k];
          assert gs[j + 1] == tail[k];
        }
      }
    }
  }

  /** Sorts the groups by day, newest first (the comparator of the sort). */
  function SortNewestFirst(gs: seq<DayGroup>): (r: seq<DayGroup>)
    ensures multiset(r) == multiset(gs)
  {
    if gs == [] then []
    else
      assert gs == [gs[0]] + gs[1..];
      InsertByDate(gs[0], SortNewestFirst(gs[1..]))
  }

  /** Groups with distinct days come out strictly newest first. */
  lemma {:induction false} SortedNewestFirst(gs: seq<DayGroup>)
    requires forall j, k :: 0 <= j < k < |gs| ==> gs[j].date != gs[k].date
    ensures NewestFirst(SortNewestFirst(gs))
  {
    if gs != [] {
      SortedNewestFirst(gs[1..]);
      var sorted := SortNewestFirst(gs[1..]);
      forall i | 0 <= i < |sorted|
        ensures sorted[i].date != gs[0].date
      {
        assert sorted[i] in multiset(gs[1..]);
        var j :| 0 <= j < |gs[1..]| && gs[1..][j] == sorted[i];
        assert gs[j + 1] == sorted[i];
      }
      InsertKeepsNewestFirst(gs[0], sorted);
    }
  }

  lemma DayKeysSnoc(xs: seq<Obj>, x: Obj, dayOf: Value -> string)
    ensures DayKeys(xs + [x], dayOf) ==
      match StartDay(x, dayOf)
      case None => DayKeys(xs, dayOf)
      case Some(d) => if d in DayKeys(xs, dayOf) then DayKeys(xs, dayOf) else DayKeys(xs, dayOf) + [d]
  {
    assert (xs + [x])[..|xs|] == xs;
  }

  /** A day none of the entries falls on has no entries. */
  lemma UnseenDayIsEmpty(xs: seq<Obj>, d: string, dayOf: Value -> string)
    requires d !in DayKeys(xs, dayOf)
    ensures OnDay(xs, d, dayOf) == []
  {
    DayKeysMembers(xs, dayOf);
    FilterNone(xs, e => StartDay(e, dayOf) == Some(d));
  }

  /** What the `forEach` has built after the entries `xs`. */
  ghost predicate Collected(xs: seq<Obj>, dayOf: Value -> string, keys: seq<string>, groups: map<string, seq<Obj>>) {
    && keys == DayKeys(xs, dayOf)
    && (forall k :: k in groups <==> k in keys)
    && (forall k :: k in groups ==> groups[k] == OnDay(xs, k, dayOf) && groups[k] != [])
  }

  /** An entry without a start time changes nothing. */
  lemma CollectedSkip(xs: seq<Obj>, x: Obj, dayOf: Value -> string, keys: seq<string>,
                      groups: map<string, seq<Obj>>)
    requires Collected(xs, dayOf, keys, groups)
    requires StartDay(x, dayOf).None?
    ensures Collected(xs + [x], dayOf, keys, groups)
  {
    DayKeysSnoc(xs, x, dayOf);
    forall k | k in groups
      ensures groups[k] == OnDay(xs + [x], k, dayOf)
    {
      OnDaySnoc(xs, x, k, dayOf);
    }
  }

  /** An entry on a day already seen is appended to that day's group. */
  lemma CollectedAppend(xs: seq<Obj>, x: Obj, dayOf: Value -> string, keys: seq<string>,
                        groups: map<string, seq<Obj>>, d: string)
    requires Collected(xs, dayOf, keys, groups)
    requires StartDay(x, dayOf) == Some(d) && d in groups
    ensures Collected(xs + [x], dayOf, keys, groups[d := groups[d] + [x]])
  {
    assert d in keys;
    SeenDayKeys(xs, x, dayOf, d);
    assert keys == DayKeys(xs + [x], dayOf);
    AppendedGroups(xs, x, dayOf, keys, groups, d);
  }

  lemma SeenDayKeys(xs: seq<Obj>, x: Obj, dayOf: Value -> string, d: string)
    requires StartDay(x, dayOf) == Some(d) && d in DayKeys(xs, dayOf)
    ensures DayKeys(xs + [x], dayOf) == DayKeys(xs, dayOf)
  {
    DayKeysSnoc(xs, x, dayOf);
  }

  /** The group part of `CollectedAppend`, kept apart from the day keys. */
  lemma AppendedGroups(xs: seq<Obj>, x: Obj, dayOf: Value -> string, keys: seq<string>,
                       groups: map<string, seq<Obj>>, d: string)
    requires forall k :: k in groups <==> k in keys
    requires forall k :: k in groups ==> groups[k] == OnDay(xs, k, dayOf) && groups[k] != []
    requires StartDay(x, dayOf) == Some(d) && d in groups
    ensures forall k :: k in groups[d := groups[d] + [x]] <==> k in keys
    ensures forall k :: k in groups[d := groups[d] + [x]] ==>
      groups[d := groups[d] + [x]][k] == OnDay(xs + [x], k, dayOf) && groups[d := groups[d] + [x]][k] != []
  {
    forall k | k in groups[d := groups[d] + [x]]
      ensures groups[d := groups[d] + [x]][k] == OnDay(xs + [x], k, dayOf)
    {
      OnDaySnoc(xs, x, k, dayOf);
    }
  }

  /** The first entry on a day opens a group of its own and adds the day. */
  lemma CollectedOpen(xs: seq<Obj>, x: Obj, dayOf: Value -> string, keys: seq<string>,
                      groups: map<string, seq<Obj>>, d: string)
    requires Collected(xs, dayOf, keys, groups)
    requires StartDay(x, dayOf) == Some(d) && d !in groups
    ensures Collected(xs + [x], dayOf, keys + [d], groups[d := [x]])
  {
    UnseenDayKeys(xs, x, dayOf, d);
    UnseenDayIsEmpty(xs, d, dayOf);
    OpenedGroups(xs, x, dayOf, keys, groups, d);
  }

  lemma UnseenDayKeys(xs: seq<Obj>, x: Obj, dayOf: Value -> string, d: string)
    requires StartDay(x, dayOf) == Some(d) && d !in DayKeys(xs, dayOf)
    ensures DayKeys(xs + [x], dayOf) == DayKeys(xs, dayOf) + [d]
  {
    DayKeysSnoc(xs, x, dayOf);
  }

  /** The group part of `CollectedOpen`, kept apart from the day keys. */
  lemma OpenedGroups(xs: seq<Obj>, x: Obj, dayOf: Value -> string, keys: seq<string>,
                     groups: map<string, seq<Obj>>, d: string)
    requires forall k :: k in groups <==> k in keys
    requires forall k :: k in groups ==> groups[k] == OnDay(xs, k, dayOf) && groups[k] != []
    requires StartDay(x, dayOf) == Some(d) && d !in groups && OnDay(xs, d, dayOf) == []
    ensures forall k :: k in groups[d := [x]] <==> k in keys + [d]
    ensures forall k :: k in groups[d := [x]] ==>
      groups[d := [x]][k] == OnDay(xs + [x], k, dayOf) && groups[d := [x]][k] != []
  {
    forall k | k in groups[d := [x]]
      ensures groups[d := [x]][k] == OnDay(xs + [x], k, dayOf)
    {
      OnDaySnoc(xs, x, k, dayOf);
    }
  }

  /** The `forEach` of `groupEntriesByDay`: the days in order of first
      appearance, and for each day the entries on it in their order. */
  method CollectByDay(entries: seq<Obj>, dayOf: Value -> string)
    returns (keys: seq<string>, groups: map<string, seq<Obj>>)
    ensures keys == DayKeys(entries, dayOf)
    ensures forall k :: k in groups <==> k in keys
    ensures forall k :: k in groups ==> groups[k] == OnDay(entries, k, dayOf) && groups[k] != []
  {
    keys := [];
    groups := map[];
    var i := 0;
    while i < |entries|
      invariant 0 <= i <= |entries|
      invariant Collected(entries[..i], dayOf, keys, groups)
    {
      var x := entries[i];
      assert entries[..i + 1] == entries[..i] + [x];
      match StartDay(x, dayOf) {
        case None =>
          CollectedSkip(entries[..i], x, dayOf, keys, groups);
        case Some(d) =>
          if d !in groups {
            CollectedOpen(entries[..i], x, dayOf, keys, groups, d);
            groups := groups[d := []];
            keys := keys + [d];
          } else {
            CollectedAppend(entries[..i], x, dayOf, keys, groups, d);
          }
          groups := groups[d := groups[d] + [x]];
      }
      i := i + 1;
    }
    assert entries[..i] == entries;
  }

  /** The `map` of `groupEntriesByDay`: one collapsed group per day. */
  function ToGroups(keys: seq<string>, groups: map<string, seq<Obj>>): (gs: seq<DayGroup>)
    requires forall k :: k in keys ==> k in groups
    ensures |gs| == |keys|
    ensures forall j :: 0 <= j < |gs| ==> gs[j] == DayGroup(keys[j], groups[keys[j]], false)
  {
    seq(|keys|, j requires 0 <= j < |keys| => DayGroup(keys[j], groups[keys[j]], false))
  }

  /** Sorting keeps exactly the groups it is given. */
  lemma SortKeepsGroups(gs: seq<DayGroup>)
    ensures forall g :: g in SortNewestFirst(gs) <==> g in gs
  {
    var r := SortNewestFirst(gs);
    forall g
      ensures g in r <==> g in gs
    {
      assert g in r <==> g in multiset(r);
      assert g in gs <==> g in multiset(gs);
    }
  }

  /** Every group of the days is the whole of its day, collapsed. */
  lemma GroupsAreDays(entries: seq<Obj>, dayOf: Value -> string, keys: seq<string>,
                      groups: map<string, seq<Obj>>)
    requires forall k :: k in keys ==> k in groups
    requires forall k :: k in groups ==> groups[k] == OnDay(entries, k, dayOf) && groups[k] != []
    ensures forall g :: g in SortNewestFirst(ToGroups(keys, groups)) ==>
      g.entries == OnDay(entries, g.date, dayOf) && g.entries != [] && !g.expanded
  {
    var unsorted := ToGroups(keys, groups);
    SortKeepsGroups(unsorted);
    forall g | g in unsorted
      ensures g.entries == OnDay(entries, g.date, dayOf) && g.entries != [] && !g.expanded
    {
      var j :| 0 <= j < |unsorted| && unsorted[j] == g;
      assert g.date == keys[j];
    }
  }

  /** Every day of the entries has its group. */
  lemma DaysHaveGroups(entries: seq<Obj>, dayOf: Value -> string, keys: seq<string>,
                       groups: map<string, seq<Obj>>)
    requires keys == DayKeys(entries, dayOf)
    requires forall k :: k in keys ==> k in groups
    ensures forall i :: 0 <= i < |entries| && StartDay(entries[i], dayOf).Some? ==>
      exists g :: g in SortNewestFirst(ToGroups(keys, groups)) && g.date == StartDay(entries[i], dayOf).value
  {
    var unsorted := ToGroups(keys, groups);
    SortKeepsGroups(unsorted);
    DayKeysMembers(entries, dayOf);
    forall i | 0 <= i < |entries| && StartDay(entries[i], dayOf).Some?
      ensures exists g :: g in SortNewestFirst(unsorted) && g.date == StartDay(entries[i], dayOf).value
    {
      var d := StartDay(entries[i], dayOf).value;
      var j :| 0 <= j < |keys| && keys[j] == d;
      assert unsorted[j] in SortNewestFirst(unsorted);
    }
  }

  /** The days collected are distinct, so the sort leaves them strictly
      newest first. */
  lemma DaysNewestFirst(entries: seq<Obj>, dayOf: Value -> string, keys: seq<string>,
                        groups: map<string, seq<Obj>>)
    requires keys == DayKeys(entries, dayOf)
    requires forall k :: k in keys ==> k in groups
    ensures NewestFirst(SortNewestFirst(ToGroups(keys, groups)))
  {
    SortedNewestFirst(ToGroups(keys, groups));
  }

  /** `groupEntriesByDay`: collects the entries that have a start time into
      one group per day, keeping their order within a day, and returns the
      groups collapsed and newest day first. */
  method GroupEntriesByDay(entries: seq<Obj>, dayOf: Value -> string) returns (result: seq<DayGroup>)
    ensures entries == [] ==> result == []
    ensures NewestFirst(result)
    ensures forall g :: g in result ==>
      g.entries == OnDay(entries, g.date, dayOf) && g.entries != [] && !g.expanded
    ensures forall i :: 0 <= i < |entries| && StartDay(entries[i], dayOf).Some? ==>
      exists g :: g in result && g.date == StartDay(entries[i], dayOf).value
  {
    if |entries| == 0 {
      return [];
    }
    var keys, groups := CollectByDay(entries, dayOf);
    result := SortNewestFirst(ToGroups(keys, groups));
    GroupsAreDays(entries, dayOf, keys, groups);
    DaysHaveGroups(entries, dayOf, keys, groups);
    DaysNewestFirst(entries, dayOf, keys, groups);
  }
}
