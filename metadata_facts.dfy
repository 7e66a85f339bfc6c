/**
 * What `getFieldMetadata` guarantees: which keys appear and in what order,
 * that no excluded name appears at any depth, and what each record holds.
 */
module MetadataFacts {
  import opened Wrappers
  import opened Strings
  import opened Overrides
  import opened Metadata

  /** The keys of a metadata map, in order. */
  function Keys(es: seq<(string, Meta)>): seq<string>
  {
    seq(|es|, i requires 0 <= i < |es| => es[i].0)
  }

  /** The field names that are not excluded, in declaration order. */
  function KeptNames(ps: seq<Field>): seq<string>
  {
    if ps == [] then []
    else KeptNames(ps[..|ps| - 1]) + (if Excluded(ps[|ps| - 1].name) then [] else [ps[|ps| - 1].name])
  }

  /** The positions of the non-excluded fields among the first `n`. */
  function KeptIndices(s: Schema, n: nat): seq<nat>
    requires n <= |s.paths|
  {
    if n == 0 then []
    else KeptIndices(s, n - 1) + (if Excluded(s.paths[n - 1].name) then [] else [n - 1])
  }

  /** Every key at every depth of a metadata value is a non-excluded name. */
  predicate AllKeysKept(m: Meta)
    decreases m
  {
    match m
    case Nested(es) => forall i :: 0 <= i < |es| ==> !Excluded(es[i].0) && AllKeysKept(es[i].1)
    case _ => true
  }

  /** The output keys are the schema's field names, in path order, minus the excluded ones. */
  lemma {:induction false} EntriesKeys(s: Schema, n: nat, prefix: string, p: Plugin)
    requires n <= |s.paths| && WellFormed(s)
    ensures Keys(Entries(s, n, prefix, p)) == KeptNames(s.paths[..n])
  {
    if n > 0 {
      EntriesKeys(s, n - 1, prefix, p);
      assert s.paths[..n][..n - 1] == s.paths[..n - 1];
      var rest := Entries(s, n - 1, prefix, p);
      if !Excluded(s.paths[n - 1].name) {
        var x := Entry(s.paths[n - 1], prefix, p);
        assert Keys(rest + [x]) == Keys(rest) + [x.0];
      }
    }
  }

  /** The kept positions are increasing, all below `n`, and are exactly the non-excluded ones. */
  lemma {:induction false} KeptIndicesExact(s: Schema, n: nat)
    requires n <= |s.paths|
    ensures forall j :: 0 <= j < |KeptIndices(s, n)| ==>
      KeptIndices(s, n)[j] < n && !Excluded(s.paths[KeptIndices(s, n)[j]].name)
    ensures forall j, k :: 0 <= j < k < |KeptIndices(s, n)| ==> KeptIndices(s, n)[j] < KeptIndices(s, n)[k]
    ensures forall i :: 0 <= i < n && !Excluded(s.paths[i].name) ==> i in KeptIndices(s, n)
  {
    if n > 0 {
      KeptIndicesExact(s, n - 1);
    }
  }

  /**
   * The output is "map FieldMeta over the kept fields": entry `j` is the
   * `j`-th non-excluded field, keyed by its own name.
   */
  lemma {:induction false} EntriesAt(s: Schema, n: nat, prefix: string, p: Plugin)
    requires n <= |s.paths| && WellFormed(s)
    ensures |Entries(s, n, prefix, p)| == |KeptIndices(s, n)|
    ensures forall j :: 0 <= j < |KeptIndices(s, n)| ==>
      KeptIndices(s, n)[j] < n &&
      Entries(s, n, prefix, p)[j] == Entry(s.paths[KeptIndices(s, n)[j]], prefix, p)
  {
    if n > 0 {
      EntriesAt(s, n - 1, prefix, p);
      EntriesStep(s, n, prefix, p);
      if !Excluded(s.paths[n - 1].name) {
        var e, r := Entries(s, n, prefix, p), Entries(s, n - 1, prefix, p);
        var ki, kr := KeptIndices(s, n), KeptIndices(s, n - 1);
        assert ki == kr + [n - 1];
        forall j | 0 <= j < |ki| ensures ki[j] < n && e[j] == Entry(s.paths[ki[j]], prefix, p) {
          if j < |kr| { assert ki[j] == kr[j] && e[j] == r[j]; }
        }
      }
    }
  }

  /** No excluded name is a key anywhere in the metadata, at any nesting depth. */
  lemma {:induction false} NoExcludedKeys(s: Schema, n: nat, prefix: string, p: Plugin)
    requires n <= |s.paths| && WellFormed(s)
    ensures AllKeysKept(Nested(Entries(s, n, prefix, p)))
    decreases s, n
  {
    if n > 0 {
      NoExcludedKeys(s, n - 1, prefix, p);
      EntriesStep(s, n, prefix, p);
      if !Excluded(s.paths[n - 1].name) {
        FieldMetaKeysKept(s.paths[n - 1], prefix, p);
        var e, r := Entries(s, n, prefix, p), Entries(s, n - 1, prefix, p);
        forall i | 0 <= i < |e| ensures !Excluded(e[i].0) && AllKeysKept(e[i].1) {
          if i < |r| { assert e[i] == r[i]; }
        }
      }
    }
  }

  lemma {:induction false} FieldMetaKeysKept(f: Field, prefix: string, p: Plugin)
    requires WellFormedField(f)
    ensures AllKeysKept(FieldMeta(f, prefix, p))
    decreases f
  {
    if HasSubSchema(f) && !IsSubdocArray(f) {
      var sub := f.schema.value;
      NoExcludedKeys(sub, |sub.paths|, FullName(prefix, f.name), p);
    }
  }

  /** The whole `getFieldMetadata` result: ordered keys and no excluded name at any depth. */
  lemma MetadataShape(s: Schema, p: Plugin)
    requires WellFormed(s)
    ensures Keys(FieldMetadata(s, p)) == KeptNames(s.paths)
    ensures AllKeysKept(Nested(FieldMetadata(s, p)))
  {
    EntriesKeys(s, |s.paths|, "", p);
    assert s.paths[..|s.paths|] == s.paths;
    NoExcludedKeys(s, |s.paths|, "", p);
  }

  /**
   * Where an excluded field sits in the schema does not matter: removing it
   * leaves the metadata unchanged.
   */
  lemma SkipExcludedField(ps: seq<Field>, x: Field, qs: seq<Field>, prefix: string, p: Plugin)
    requires Excluded(x.name)
    requires WellFormed(Schema(ps + [x] + qs))
    ensures WellFormed(Schema(ps + qs))
    ensures Entries(Schema(ps + [x] + qs), |ps| + |qs| + 1, prefix, p) ==
            Entries(Schema(ps + qs), |ps| + |qs|, prefix, p)
  {
    WellFormedAppend(ps + [x], qs);
    WellFormedAppend(ps, [x]);
    WellFormedAppend(ps, qs);
    SkipAt(ps, x, qs, prefix, p);
  }

  lemma SkipAt(ps: seq<Field>, x: Field, qs: seq<Field>, prefix: string, p: Plugin)
    requires Excluded(x.name)
    requires WellFormed(Schema(ps + [x] + qs)) && WellFormed(Schema(ps + qs))
    ensures Entries(Schema(ps + [x] + qs), |ps| + |qs| + 1, prefix, p) ==
            Entries(Schema(ps + qs), |ps| + |qs|, prefix, p)
  {
    RemoveAt(ps, x, qs);
    SkipAbove(Schema(ps + [x] + qs), Schema(ps + qs), |ps|, |ps| + |qs|, prefix, p);
  }

  /** How the positions of `ps + [x] + qs` and `ps + qs` correspond. */
  lemma RemoveAt<T>(ps: seq<T>, x: T, qs: seq<T>)
    ensures var a, b := ps + [x] + qs, ps + qs;
      && |a| == |b| + 1 && a[|ps|] == x
      && (forall i :: 0 <= i < |ps| ==> a[i] == b[i])
      && (forall i :: |ps| < i < |a| ==> a[i] == b[i - 1])
  {
    var a, b := ps + [x] + qs, ps + qs;
    forall i | |ps| < i < |a| ensures a[i] == b[i - 1] {
      assert a[i] == qs[i - |ps| - 1];
    }
  }

  lemma {:induction false} SkipAbove(a: Schema, b: Schema, k: nat, n: nat, prefix: string, p: Plugin)
    requires WellFormed(a) && WellFormed(b)
    requires |a.paths| == |b.paths| + 1 && k <= n < |a.paths|
    requires Excluded(a.paths[k].name)
    requires forall i :: 0 <= i < k ==> a.paths[i] == b.paths[i]
    requires forall i :: k < i < |a.paths| ==> a.paths[i] == b.paths[i - 1]
    ensures Entries(a, n + 1, prefix, p) == Entries(b, n, prefix, p)
  {
    if n == k {
      EntriesPrefix(a, b, k, prefix, p);
      EntriesStep(a, k + 1, prefix, p);
    } else {
      SkipAbove(a, b, k, n - 1, prefix, p);
      assert a.paths[n] == b.paths[n - 1];
      EntriesStep(a, n + 1, prefix, p);
      EntriesStep(b, n, prefix, p);
    }
  }

  /** One more path: an excluded name leaves the entries as they were, any other appends its record. */
  lemma EntriesStep(s: Schema, n: nat, prefix: string, p: Plugin)
    requires 0 < n <= |s.paths| && WellFormed(s)
    ensures !Excluded(s.paths[n - 1].name) ==>
      Entries(s, n, prefix, p) == Entries(s, n - 1, prefix, p) + [Entry(s.paths[n - 1], prefix, p)]
    ensures Excluded(s.paths[n - 1].name) ==> Entries(s, n, prefix, p) == Entries(s, n - 1, prefix, p)
  {
  }

  /** While no path is excluded, entry `i` is path `i` and its record. */
  lemma {:induction false} AllKeptEntries(s: Schema, n: nat, prefix: string, p: Plugin)
    requires n <= |s.paths| && WellFormed(s)
    requires forall i :: 0 <= i < n ==> !Excluded(s.paths[i].name)
    ensures |Entries(s, n, prefix, p)| == n
    ensures forall i :: 0 <= i < n ==> Entries(s, n, prefix, p)[i] == Entry(s.paths[i], prefix, p)
  {
    if n > 0 {
      AllKeptEntries(s, n - 1, prefix, p);
      EntriesStep(s, n, prefix, p);
    }
  }

  /** A plain String path: no sub-schema, no ref, no dependency hint, kept, and an undotted name. */
  predicate PlainString(f: Field)
  {
    f.instance == String && f.schema.None? && f.ref.None? && DependsOn(f.name).None?
    && !Excluded(f.name) && '.' !in f.name
  }

  /** The leaf record of a plain String path. */
  function StringRecord(componentType: string, required: bool, enumValues: seq<string>): Meta
  {
    FieldRecord(componentType, required, None, "String", false, enumValues, None, None)
  }

  /** The component type of a top-level String path under a flat override map. */
  function FlatComponentType(m: map<string, OTree>, name: string): string
  {
    if name in m && m[name].Leaf? && m[name].value != "" then m[name].value else "TextField"
  }

  /**
   * A run of plain String paths under a registered plugin: one record per
   * path, with the flat override at the top level and 'TextField' below a
   * top-level name the overrides do not mention.
   */
  lemma {:induction false} StringEntries(s: Schema, n: nat, prefix: string, options: PluginOptions)
    requires n <= |s.paths| && WellFormed(s)
    requires forall i :: 0 <= i < n ==> PlainString(s.paths[i])
    requires prefix == "" || ('.' !in prefix && prefix !in options.defaultComponentOverrides)
    ensures |Entries(s, n, prefix, Register(options))| == n
    ensures forall i :: 0 <= i < n ==>
      var f := s.paths[i];
      Entries(s, n, prefix, Register(options))[i] ==
        (f.name, StringRecord(if prefix == "" then FlatComponentType(options.defaultComponentOverrides, f.name) else "TextField",
                              f.isRequired, f.enumValues))
  {
    AllKeptEntries(s, n, prefix, Register(options));
    forall i | 0 <= i < n
      ensures FieldMeta(s.paths[i], prefix, Register(options)) ==
        StringRecord(if prefix == "" then FlatComponentType(options.defaultComponentOverrides, s.paths[i].name) else "TextField",
                     s.paths[i].isRequired, s.paths[i].enumValues)
    {
      if prefix == "" {
        TopLevelComponentType(options, s.paths[i].name, s.paths[i]);
      } else {
        NestedComponentType(options, prefix, s.paths[i].name, s.paths[i]);
      }
    }
  }

  /** Well-formedness of a schema is well-formedness of each run of its paths. */
  lemma WellFormedAppend(a: seq<Field>, b: seq<Field>)
    ensures WellFormed(Schema(a + b)) <==> WellFormed(Schema(a)) && WellFormed(Schema(b))
  {
    var ab := a + b;
    assert forall i :: 0 <= i < |a| ==> ab[i] == a[i];
    assert forall i :: 0 <= i < |b| ==> ab[|a| + i] == b[i];
    if WellFormed(Schema(a)) && WellFormed(Schema(b)) {
      forall i | 0 <= i < |ab| ensures WellFormedField(ab[i]) {
        if i >= |a| { assert ab[i] == b[i - |a|]; }
      }
    }
  }

  /** Entries depend only on the paths they have read. */
  lemma {:induction false} EntriesPrefix(s: Schema, t: Schema, n: nat, prefix: string, p: Plugin)
    requires WellFormed(s) && WellFormed(t) && n <= |s.paths| && n <= |t.paths|
    requires forall i :: 0 <= i < n ==> s.paths[i] == t.paths[i]
    ensures Entries(s, n, prefix, p) == Entries(t, n, prefix, p)
  {
    if n > 0 {
      EntriesPrefix(s, t, n - 1, prefix, p);
    }
  }

  /**
   * Paths after the declared ones whose names are all excluded — those
   * Mongoose and its plugins add — leave the metadata as it was.
   */
  lemma {:induction false} ExcludedTail(a: seq<Field>, b: seq<Field>, prefix: string, p: Plugin)
    requires WellFormed(Schema(a + b))
    requires forall i :: 0 <= i < |b| ==> Excluded(b[i].name)
    ensures WellFormed(Schema(a))
    ensures Entries(Schema(a + b), |a + b|, prefix, p) == Entries(Schema(a), |a|, prefix, p)
  {
    WellFormedAppend(a, b);
    var ab := Schema(a + b);
    forall j | |a| <= j < |ab.paths| ensures Excluded(ab.paths[j].name) {
      assert ab.paths[j] == b[j - |a|];
    }
    ExcludedRun(ab, |a|, |ab.paths|, prefix, p);
    EntriesPrefix(ab, Schema(a), |a|, prefix, p);
  }

  lemma {:induction false} ExcludedRun(s: Schema, k: nat, n: nat, prefix: string, p: Plugin)
    requires WellFormed(s) && k <= n <= |s.paths|
    requires forall j :: k <= j < n ==> Excluded(s.paths[j].name)
    ensures Entries(s, n, prefix, p) == Entries(s, k, prefix, p)
    decreases n
  {
    if n > k {
      calc {
        Entries(s, n, prefix, p);
        == { assert Excluded(s.paths[n - 1].name); EntriesStep(s, n, prefix, p); }
        Entries(s, n - 1, prefix, p);
        == { ExcludedRun(s, k, n - 1, prefix, p); }
        Entries(s, k, prefix, p);
      }
    }
  }

  /** Inference: 'MultiSelect' exactly for an Array of String, 'TextField' for everything else. */
  lemma InferredType(f: Field)
    ensures InferComponentType(f) == "MultiSelect" <==> f.instance == Array && f.casterInstance == Some(String)
    ensures InferComponentType(f) != "MultiSelect" ==> InferComponentType(f) == "TextField"
  {
  }

  /** Precedence: a non-empty runtime override, then a non-empty default override, then inference. */
  lemma ComponentTypePrecedence(p: Plugin, full: string, f: Field)
    ensures full in p.runtimeOverrides && p.runtimeOverrides[full] != "" ==>
      ResolveComponentType(p, full, f) == p.runtimeOverrides[full]
    ensures !(full in p.runtimeOverrides && p.runtimeOverrides[full] != "") && Truthy(DefaultOverride(p, full)) ==>
      ResolveComponentType(p, full, f) == DefaultOverride(p, full).value
    ensures !(full in p.runtimeOverrides && p.runtimeOverrides[full] != "") && !Truthy(DefaultOverride(p, full)) ==>
      ResolveComponentType(p, full, f) == InferComponentType(f)
  {
  }

  /**
   * For a registered plugin the runtime overrides never contribute: the
   * component type is the default override when it is a non-empty string,
   * otherwise the inferred type (an empty-string override falls through).
   */
  lemma RegisteredComponentType(options: PluginOptions, full: string, f: Field)
    ensures ResolveComponentType(Register(options), full, f) ==
      var d := Lookup(Node(options.defaultComponentOverrides), Split(full, '.'));
      if d.Some? && d.value != "" then d.value else InferComponentType(f)
  {
  }

  /**
   * The override of a nested field is looked up under its parent's path:
   * the walk for `prefix.name` is the walk for `prefix` followed by the walk
   * for `name`.
   */
  lemma {:induction false} ScopedOverride(overrides: map<string, OTree>, prefix: string, name: string)
    requires prefix != ""
    ensures Lookup(Node(overrides), Split(FullName(prefix, name), '.')) ==
      match Descend(Node(overrides), Split(prefix, '.'))
      case None => None
      case Some(t) => Lookup(t, Split(name, '.'))
  {
    assert FullName(prefix, name) == prefix + ['.'] + name;
    SplitAppend(prefix, name, '.');
    DescendAppend(Node(overrides), Split(prefix, '.'), Split(name, '.'));
  }

  /** A top-level field's component type under a registered plugin, with a flat override entry. */
  lemma TopLevelComponentType(options: PluginOptions, name: string, f: Field)
    requires '.' !in name
    ensures var m := options.defaultComponentOverrides;
      ResolveComponentType(Register(options), name, f) ==
        if name in m && m[name].Leaf? && m[name].value != "" then m[name].value else InferComponentType(f)
  {
    RegisteredComponentType(options, name, f);
    FlatLookup(options.defaultComponentOverrides, name);
  }

  /** Below a top-level name the overrides do not mention, every field gets its inferred type. */
  lemma NestedComponentType(options: PluginOptions, prefix: string, name: string, f: Field)
    requires prefix != "" && '.' !in prefix && prefix !in options.defaultComponentOverrides
    ensures ResolveComponentType(Register(options), FullName(prefix, name), f) == InferComponentType(f)
  {
    var m := options.defaultComponentOverrides;
    RegisteredComponentType(options, FullName(prefix, name), f);
    ScopedOverride(m, prefix, name);
    SplitNoSep(prefix, '.');
    var keys := [prefix];
    assert keys[0] == prefix;
    assert Descend(Node(m), keys) == None;
  }

  /** The dependency policy: only 'expert' and 'weekDay' get hints. */
  lemma DependsOnPolicy(name: string)
    ensures DependsOn(name) == Some("center") <==> name == "expert"
    ensures DependsOn(name) == Some("center,expert") <==> name == "weekDay"
    ensures DependsOn(name) == None <==> name != "expert" && name != "weekDay"
  {
  }

  /** The record of a scalar, scalar-array or reference field. */
  lemma LeafFacts(f: Field, prefix: string, p: Plugin)
    requires WellFormedField(f) && !HasSubSchema(f)
    ensures var m := FieldMeta(f, prefix, p);
      && m.FieldRecord?
      && m.componentType == ResolveComponentType(p, FullName(prefix, f.name), f)
      && m.required == f.isRequired
      && m.typeName == InstanceName(f.instance)
      && (m.isArray <==> f.instance == Array)
      && m.enumValues == f.enumValues
      && m.filterField == m.dependsOn
      && (m.dependsOn == Some("center") <==> f.name == "expert")
      && (m.dependsOn == Some("center,expert") <==> f.name == "weekDay")
      && (m.dependsOn.None? <==> f.name != "expert" && f.name != "weekDay")
      && (f.ref.None? || f.ref == Some("") ==> m.ref.None?)
      && (f.ref.Some? && f.ref.value in p.options.refFieldMapping && f.ref.value != "" ==>
            m.ref == Some(p.options.refFieldMapping[f.ref.value]))
      && (f.ref.Some? && f.ref.value !in p.options.refFieldMapping && f.ref.value != "" ==>
            m.ref == Some(RefTarget(f.ref.value, "")))
  {
  }

  /**
   * An array of sub-documents with a member schema: one record, its question
   * and description fields the member schema's first and second path names
   * (excluded names included), undefined when there are fewer.
   */
  lemma SubdocArrayFacts(f: Field, prefix: string, p: Plugin)
    requires WellFormedField(f) && HasSubSchema(f) && IsSubdocArray(f)
    ensures var m := FieldMeta(f, prefix, p);
      var member := f.typeOption.member.value.paths;
      && m.ArrayRecord?
      && m.componentType == ResolveComponentType(p, FullName(prefix, f.name), f)
      && m.required == f.isRequired
      && m.isArray && m.typeName == "Array"
      && m.ref == RefOf(f, p.options.refFieldMapping)
      && (|member| >= 1 ==> m.questionField == Some(member[0].name))
      && (|member| >= 2 ==> m.descriptionField == Some(member[1].name))
      && (|member| == 0 ==> m.questionField.None?)
      && (|member| <= 1 ==> m.descriptionField.None?)
  {
  }

  /**
   * An embedded schema, or an array of sub-documents without a usable member
   * schema, is not dropped: it becomes a nested map keyed by the sub-schema's
   * own kept names, built with the dotted path as prefix.
   */
  lemma {:induction false} NestedFacts(f: Field, prefix: string, p: Plugin)
    requires WellFormedField(f) && HasSubSchema(f) && !IsSubdocArray(f)
    ensures f.schema.Some?
    ensures var m := FieldMeta(f, prefix, p);
      && m.Nested?
      && m.entries == Entries(f.schema.value, |f.schema.value.paths|, FullName(prefix, f.name), p)
      && Keys(m.entries) == KeptNames(f.schema.value.paths)
  {
    var sub := f.schema.value;
    EntriesKeys(sub, |sub.paths|, FullName(prefix, f.name), p);
    assert sub.paths[..|sub.paths|] == sub.paths;
  }
}
