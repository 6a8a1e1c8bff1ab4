/** JavaScript values and plain objects as the stores see them.

    Every record the stores hold (time entries, projects, tasks, tags, the user
    profile) is a plain JavaScript object. The stores copy them with object
    spread and compare their `id` fields with `===`, so a record is modelled as
    a finite map from field names to values, and `{...a, ...b}` is the map
    union `a + b` (fields of `b` win). */
module JsValues {

  datatype Value =
    | Undefined
    | Null
    | Bool(b: bool)
    | Num(n: int)
    | Str(s: string)
    | Arr(elems: seq<Value>)
    | Obj(fields: map<string, Value>)

  type Obj = map<string, Value>

  /** A value or JavaScript's `null` / "not found". */
  datatype Option<+T> = None | Some(value: T)

  /** `o[f]`: an absent field reads as `undefined`. */
  function Get(o: Obj, f: string): (v: Value)
    ensures f !in o ==> v == Undefined
    ensures f in o ==> v == o[f]
  {
    if f in o then o[f] else Undefined
  }

  /** JavaScript truthiness (`if (v)`, `!v`); NaN is not modelled. */
  predicate Truthy(v: Value) {
    match v
    case Undefined => false
    case Null => false
    case Bool(b) => b
    case Num(n) => n != 0
    case Str(s) => s != ""
    case Arr(_) => true
    case Obj(_) => true
  }

  /** `{...a, ...b}`: every field of `b`, and the fields of `a` that `b` lacks. */
  function Spread(a: Obj, b: Obj): (r: Obj)
    ensures r.Keys == a.Keys + b.Keys
    ensures forall f :: f in b ==> r[f] == b[f]
    ensures forall f :: f in a && f !in b ==> r[f] == a[f]
  {
    a + b
  }

  /** `o.id === id`, for the string ids the stores compare against. */
  predicate IdIs(o: Obj, id: Value) {
    Get(o, "id") == id
  }

  /** Math.round as JavaScript defines it: the nearest integer, halves rounded up. */
  function JsRound(x: real): int {
    (x + 0.5).Floor
  }

  /** Math.round gives `k` exactly for the reals within half a unit below or
      less than half a unit above `k`. */
  lemma JsRoundIs(x: real, k: int)
    requires k as real - 0.5 <= x < k as real + 0.5
    ensures JsRound(x) == k
  {
  }

  /** `s` is `v + [sep] + rest` with no `sep` in `v`: `(v, rest)`. */
  function SplitAt(s: string, sep: char): (r: Option<(string, string)>)
    ensures r.Some? ==> sep !in r.value.0 && s == r.value.0 + [sep] + r.value.1
  {
    if s == [] then None
    else if s[0] == sep then Some(("", s[1..]))
    else match SplitAt(s[1..], sep)
      case None => None
      case Some((v, rest)) => Some(([s[0]] + v, rest))
  }

  /** Splitting finds the first separator: it undoes the join of a piece
      without the separator and any rest. */
  lemma {:induction false} SplitAtOf(v: string, sep: char, rest: string)
    requires sep !in v
    ensures SplitAt(v + [sep] + rest, sep) == Some((v, rest))
  {
    if v != [] {
      assert v[0] in v;
      assert (v + [sep] + rest)[0] == v[0];
      assert (v + [sep] + rest)[1..] == v[1..] + [sep] + rest;
      SplitAtOf(v[1..], sep, rest);
      assert [v[0]] + v[1..] == v;
    }
  }
}
