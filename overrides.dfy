/**
 * The dotted-path override lookup of the schema metadata plugin
 * (`getOverride` in src/plugins/commonStatics.ts). An override
 * configuration is a tree: a leaf is a component-type string, a node maps
 * path segments to subtrees (`Record<string, string | Record<...>>`).
 */
module Overrides {
  import opened Wrappers
  import opened Strings

  datatype OTree = Leaf(value: string) | Node(children: map<string, OTree>)

  /**
   * The subtree reached from `t` by following `keys` one segment at a time;
   * None as soon as a segment is missing. A leaf is terminal: indexing into
   * it finds nothing.
   */
  function Descend(t: OTree, keys: seq<string>): Option<OTree>
    decreases |keys|
  {
    if keys == [] then Some(t)
    else
      match t
      case Leaf(_) => None
      case Node(m) => if keys[0] in m then Descend(m[keys[0]], keys[1..]) else None
  }

  /** The override at `keys`: only a string reached at the end of the walk counts. */
  function Lookup(t: OTree, keys: seq<string>): Option<string>
  {
    match Descend(t, keys)
    case Some(Leaf(s)) => Some(s)
    case _ => None
  }

  /**
   * `getOverride(fieldName, overrides)`: split the name at dots, walk the
   * cursor `current` down one segment per iteration and give up on the first
   * missing segment; at the end only a string is an override.
   */
  method GetOverride(fieldName: string, overrides: map<string, OTree>) returns (r: Option<string>)
    ensures r == Lookup(Node(overrides), Split(fieldName, '.'))
  {
    var keys := Split(fieldName, '.');
    var current := Node(overrides);
    for i := 0 to |keys|
      invariant Descend(Node(overrides), keys) == Descend(current, keys[i..])
    {
      var key := keys[i];
      assert keys[i..][0] == key && keys[i..][1..] == keys[i + 1..];
      if current.Node? && key in current.children {
        current := current.children[key];
      } else {
        return None;
      }
    }
    assert keys[|keys|..] == [];
    r := if current.Leaf? then Some(current.value) else None;
  }

  /** Walking `a + b` is walking `a`, then walking `b` from where `a` ended. */
  lemma {:induction false} DescendAppend(t: OTree, a: seq<string>, b: seq<string>)
    ensures Descend(t, a + b) == match Descend(t, a) case None => None case Some(u) => Descend(u, b)
  {
    if a != [] {
      assert (a + b)[0] == a[0] && (a + b)[1..] == a[1..] + b;
      if t.Node? && a[0] in t.children {
        DescendAppend(t.children[a[0]], a[1..], b);
      }
    } else {
      assert a + b == b;
    }
  }

  /**
   * An override is found only if every segment is present along the way
   * and the walk ends on a string; conversely such a walk finds it.
   */
  lemma {:induction false} LookupFound(t: OTree, keys: seq<string>, v: string)
    ensures Lookup(t, keys) == Some(v) <==>
      (forall i :: 0 <= i < |keys| ==> SegmentPresent(t, keys, i)) && Descend(t, keys) == Some(Leaf(v))
  {
    if Lookup(t, keys) == Some(v) {
      forall i | 0 <= i < |keys| ensures SegmentPresent(t, keys, i) {
        PresentBeforeSuccess(t, keys, i);
      }
    }
  }

  /** Segment `i` of `keys` exists in the node reached by the first `i` segments. */
  predicate SegmentPresent(t: OTree, keys: seq<string>, i: nat)
    requires i < |keys|
  {
    match Descend(t, keys[..i])
    case Some(Node(m)) => keys[i] in m
    case _ => false
  }

  lemma {:induction false} PresentBeforeSuccess(t: OTree, keys: seq<string>, i: nat)
    requires i < |keys|
    requires Descend(t, keys).Some?
    ensures SegmentPresent(t, keys, i)
  {
    assert keys == keys[..i] + keys[i..];
    DescendAppend(t, keys[..i], keys[i..]);
    var u := Descend(t, keys[..i]);
    assert u.Some?;
    assert keys[i..][0] == keys[i];
  }

  /** A missing segment anywhere on the path means no override. */
  lemma {:induction false} MissingSegment(t: OTree, keys: seq<string>, i: nat)
    requires i < |keys|
    requires !SegmentPresent(t, keys, i)
    ensures Lookup(t, keys) == None
  {
    if Descend(t, keys).Some? {
      PresentBeforeSuccess(t, keys, i);
    }
  }

  /** A walk that stops on a nested mapping rather than a string finds no override. */
  lemma StopsAtMapping(t: OTree, keys: seq<string>, m: map<string, OTree>)
    requires Descend(t, keys) == Some(Node(m))
    ensures Lookup(t, keys) == None
  {
  }

  /** The override tree holding only `v` at path `keys`. */
  function Singleton(keys: seq<string>, v: string): OTree
    decreases |keys|
  {
    if keys == [] then Leaf(v) else Node(map[keys[0] := Singleton(keys[1..], v)])
  }

  /** An override placed at a path is found again at that path. */
  lemma {:induction false} SingletonFound(keys: seq<string>, v: string)
    ensures Lookup(Singleton(keys, v), keys) == Some(v)
  {
    SingletonDescend(keys, v);
  }

  lemma {:induction false} SingletonDescend(keys: seq<string>, v: string)
    ensures Descend(Singleton(keys, v), keys) == Some(Leaf(v))
  {
    if keys != [] {
      SingletonDescend(keys[1..], v);
    }
  }

  /** For a flat override map, lookup of an undotted name is plain dictionary lookup. */
  lemma FlatLookup(m: map<string, OTree>, name: string)
    requires '.' !in name
    ensures Lookup(Node(m), Split(name, '.')) ==
      if name in m && m[name].Leaf? then Some(m[name].value) else None
  {
    SplitNoSep(name, '.');
    var keys := [name];
    assert keys[0] == name && keys[1..] == [];
    if name in m {
      assert Descend(Node(m), keys) == Descend(m[name], []) == Some(m[name]);
    } else {
      assert Descend(Node(m), keys) == None;
    }
  }
}
