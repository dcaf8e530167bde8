/** The JSON value of serde_json as the runner uses it: lookups that yield
    `Null` for anything missing, the `as_*` views, and the in-place
    insertion through `value[a][b] = v`. Parsing and printing JSON text are
    not modelled here; callers receive them as function parameters. */
module JsonValue {
  import opened Common

  /** Numbers that serde_json holds as `u64`/`i64` are `Int`; every other
      number (a float) is `Float`, whose value the model never inspects. */
  datatype Json =
    | Null
    | Bool(b: bool)
    | Int(i: int)
    | Float(f: real)
    | Str(s: string)
    | Arr(items: seq<Json>)
    | Obj(fields: map<string, Json>)

  const U64_LIMIT: int := 0x1_0000_0000_0000_0000

  /** `value[key]`: the member, or `Null` when `value` is not an object or
      has no such member. */
  function Get(v: Json, key: string): (r: Json)
    ensures v.Obj? && key in v.fields ==> r == v.fields[key]
    ensures !(v.Obj? && key in v.fields) ==> r == Null
  {
    if v.Obj? && key in v.fields then v.fields[key] else Null
  }

  /** `value.get(key)`: present only for an object holding `key`. */
  function GetOpt(v: Json, key: string): (r: Option<Json>)
    ensures r.Some? <==> v.Obj? && key in v.fields
    ensures r.Some? ==> r.value == Get(v, key)
  {
    if v.Obj? && key in v.fields then Some(v.fields[key]) else None
  }

  /** `path.iter().fold(root, |acc, k| &acc[k])`. */
  function Fold(root: Json, path: seq<string>): Json
    decreases |path|
  {
    if path == [] then root else Fold(Get(root, path[0]), path[1..])
  }

  function AsStr(v: Json): (r: Option<string>)
    ensures r.Some? <==> v.Str?
    ensures r.Some? ==> r.value == v.s
  {
    if v.Str? then Some(v.s) else None
  }

  /** `as_u64`: an integer number in the range of `u64`. */
  function AsU64(v: Json): (r: Option<nat>)
    ensures r.Some? <==> v.Int? && 0 <= v.i < U64_LIMIT
    ensures r.Some? ==> r.value == v.i && r.value < U64_LIMIT
  {
    if v.Int? && 0 <= v.i < U64_LIMIT then Some(v.i) else None
  }

  function AsArray(v: Json): (r: Option<seq<Json>>)
    ensures r.Some? <==> v.Arr?
    ensures r.Some? ==> r.value == v.items
  {
    if v.Arr? then Some(v.items) else None
  }

  function AsBool(v: Json): (r: Option<bool>)
    ensures r.Some? <==> v.Bool?
    ensures r.Some? ==> r.value == v.b
  {
    if v.Bool? then Some(v.b) else None
  }

  predicate IsNumber(v: Json)
  {
    v.Int? || v.Float?
  }

  /** Index `value[key]` used as a place (`IndexMut`): `Null` is first turned
      into an empty object; the place must then be an object (anything else
      makes serde_json panic). */
  predicate Indexable(v: Json)
  {
    v.Null? || v.Obj?
  }

  /** `value[key] = member` on an indexable value. */
  function SetMember(v: Json, key: string, member: Json): (r: Json)
    requires Indexable(v)
    ensures r.Obj? && key in r.fields && r.fields[key] == member
    ensures v.Obj? ==> forall k :: k in v.fields && k != key ==> k in r.fields && r.fields[k] == v.fields[k]
    ensures v.Obj? ==> r.fields.Keys == v.fields.Keys + {key}
    ensures v.Null? ==> r.fields.Keys == {key}
  {
    match v
    case Null => Obj(map[key := member])
    case Obj(m) => Obj(m[key := member])
  }

  /** `value[outer][inner] = member` on an object value. */
  function SetPath2(v: Json, outer: string, inner: string, member: Json): (r: Json)
    requires v.Obj? && Indexable(Get(v, outer))
    ensures r.Obj? && r.fields.Keys == v.fields.Keys + {outer}
    ensures Get(r, outer).Obj? && Get(Get(r, outer), inner) == member
    ensures forall k :: k in v.fields && k != outer ==> r.fields[k] == v.fields[k]
    ensures forall q :: q != inner ==> Get(Get(r, outer), q) == Get(Get(v, outer), q)
  {
    Obj(v.fields[outer := SetMember(Get(v, outer), inner, member)])
  }

  /** A lookup path can be split anywhere. */
  lemma {:induction false} FoldAppend(root: Json, p: seq<string>, q: seq<string>)
    ensures Fold(root, p + q) == Fold(Fold(root, p), q)
    decreases |p|
  {
    if p == [] {
      assert p + q == q;
    } else {
      assert (p + q)[1..] == p[1..] + q;
      FoldAppend(Get(root, p[0]), p[1..], q);
    }
  }

  /** Below a missing member every lookup stays `Null`. */
  lemma {:induction false} FoldNull(path: seq<string>)
    ensures Fold(Null, path) == Null
    decreases |path|
  {
    if path != [] {
      FoldNull(path[1..]);
    }
  }

  /** A two-key path is two lookups. */
  lemma FoldPair(root: Json, a: string, b: string)
    ensures Fold(root, [a, b]) == Get(Get(root, a), b)
  {
    calc {
      Fold(root, [a, b]);
      { assert [a, b][1..] == [b]; }
      Fold(Get(root, a), [b]);
      { assert [b][1..] == []; }
      Fold(Get(Get(root, a), b), []);
    }
  }
}
