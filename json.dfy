/**
 * The JavaScript values the `toJSON` transforms read and build: a document
 * as Mongoose hands it to `transform` (`ret`), and the plain object the
 * transform returns. An object is its own entries in insertion order;
 * reading a key it lacks gives `undefined`.
 */
module Json {

  datatype Json =
    | Undefined
    | Null
    | Bool(b: bool)
    | Num(n: int)
    | Str(s: string)
    | Arr(items: seq<Json>)
    | Obj(entries: seq<(string, Json)>)

  /** `o[key]`: the value of the first entry named `key`, `undefined` if there is none or `o` is no object. */
  function Get(o: Json, key: string): Json
    decreases if o.Obj? then |o.entries| else 0
  {
    if !o.Obj? || o.entries == [] then Undefined
    else if o.entries[0].0 == key then o.entries[0].1
    else Get(Obj(o.entries[1..]), key)
  }

  /** `o[key] = x` on an object: the entry is replaced in place, or appended when new. */
  function Put(o: Json, key: string, x: Json): Json
    requires o.Obj?
    decreases |o.entries|
  {
    if o.entries == [] then Obj([(key, x)])
    else if o.entries[0].0 == key then Obj([(key, x)] + o.entries[1..])
    else Obj([o.entries[0]] + Put(Obj(o.entries[1..]), key, x).entries)
  }

  /** The keys of an object's entries, in order. */
  function Keys(o: Json): seq<string>
  {
    if o.Obj? then seq(|o.entries|, i requires 0 <= i < |o.entries| => o.entries[i].0) else []
  }

  /** JavaScript truthiness; numbers are integers here, so NaN does not arise. */
  predicate Truthy(v: Json)
  {
    match v
    case Undefined => false
    case Null => false
    case Bool(b) => b
    case Num(n) => n != 0
    case Str(s) => s != ""
    case Arr(_) => true
    case Obj(_) => true
  }

  /** `a || b`. */
  function Or(a: Json, b: Json): Json
  {
    if Truthy(a) then a else b
  }

  /**
   * `getFormattedDate(value)` (src/helper/data_format_helper.ts): `undefined`
   * for a falsy value, otherwise the string moment formats; the formatting
   * itself is the parameter `format`.
   */
  function FormattedDate(value: Json, format: Json -> string): Json
  {
    if Truthy(value) then Str(format(value)) else Undefined
  }

  /** Reading back a written key gives the written value; other keys are untouched. */
  lemma {:induction false} GetPut(o: Json, key: string, x: Json, k: string)
    requires o.Obj?
    ensures Get(Put(o, key, x), k) == if k == key then x else Get(o, k)
    decreases |o.entries|
  {
    var p := Put(o, key, x);
    if o.entries == [] {
    } else if o.entries[0].0 == key {
      assert p.entries[1..] == o.entries[1..];
    } else {
      var rest := Obj(o.entries[1..]);
      GetPut(rest, key, x, k);
      assert p.entries[1..] == Put(rest, key, x).entries;
    }
  }

  /** Reading the key of an entry no earlier entry shares gives that entry's value. */
  lemma {:induction false} GetAt(o: Json, i: nat)
    requires o.Obj? && i < |o.entries|
    requires forall j :: 0 <= j < i ==> o.entries[j].0 != o.entries[i].0
    ensures Get(o, o.entries[i].0) == o.entries[i].1
    decreases i
  {
    if i > 0 {
      var rest := Obj(o.entries[1..]);
      assert rest.entries[i - 1] == o.entries[i];
      GetAt(rest, i - 1);
    }
  }
}
