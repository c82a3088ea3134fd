/** What each schema keyword means for redaction, one equation per keyword: which positions a
    schema that has only this keyword marks, in terms of what its subschemas mark. */
module Keywords {

  import opened Redaction
  import opened Wrappers

  /** The schema marks the position, by a derivation of any length. */
  ghost predicate Marked(re: Regex, root: Schema, v: Json, s: Schema, path: seq<Key>) {
    exists n :: Marks(re, root, v, s, path, n)
  }

  /** The position is marked by the subschema, if there is one. */
  ghost predicate MarkedBy(re: Regex, root: Schema, v: Json, sub: Json, path: seq<Key>) {
    sub.Obj? && Marked(re, root, v, sub.fields, path)
  }

  ghost predicate MarkedInPlace(re: Regex, root: Schema, v: Json, s: Schema, path: seq<Key>) {
    exists t :: t in InPlace(s, root, v) && Marked(re, root, v, t, path)
  }

  ghost predicate MarkedBelow(re: Regex, root: Schema, v: Json, s: Schema, path: seq<Key>) {
    path != [] && Child(v, path[0]).Some? &&
    exists t :: t in OnChild(re, s, path[0]) && Marked(re, root, Child(v, path[0]).value, t, path[1..])
  }

  lemma MarkedByPlace(re: Regex, root: Schema, v: Json, s: Schema, path: seq<Key>)
    requires MarkedInPlace(re, root, v, s, path)
    ensures Marked(re, root, v, s, path)
  {
    var t :| t in InPlace(s, root, v) && Marked(re, root, v, t, path);
    var n: nat :| Marks(re, root, v, t, path, n);
    hide InPlace;
    assert MarksAny(re, root, v, InPlace(s, root, v), path, n);
    assert Marks(re, root, v, s, path, n + 1);
  }

  lemma MarkedByChild(re: Regex, root: Schema, v: Json, s: Schema, path: seq<Key>)
    requires MarkedBelow(re, root, v, s, path)
    ensures Marked(re, root, v, s, path)
  {
    var child := Child(v, path[0]).value;
    var t :| t in OnChild(re, s, path[0]) && Marked(re, root, child, t, path[1..]);
    var n: nat :| Marks(re, root, child, t, path[1..], n);
    hide OnChild, Child;
    assert MarksAny(re, root, child, OnChild(re, s, path[0]), path[1..], n);
    assert Marks(re, root, v, s, path, n + 1);
  }

  lemma MarkedFrom(re: Regex, root: Schema, v: Json, s: Schema, path: seq<Key>, n: nat)
    requires Marks(re, root, v, s, path, n)
    ensures (path == [] && WriteOnly(s)) || MarkedInPlace(re, root, v, s, path) || MarkedBelow(re, root, v, s, path)
  {
    hide InPlace, OnChild, Child, WriteOnly;
    if path == [] && WriteOnly(s) {
    } else if n > 0 && MarksAny(re, root, v, InPlace(s, root, v), path, n - 1) {
      var t :| t in InPlace(s, root, v) && Marks(re, root, v, t, path, n - 1);
      assert Marked(re, root, v, t, path);
    } else {
      var child := Child(v, path[0]).value;
      var t :| t in OnChild(re, s, path[0]) && Marks(re, root, child, t, path[1..], n - 1);
      assert Marked(re, root, child, t, path[1..]);
    }
  }

  /** A mark is the schema's own, one of a schema at the same place, or one of a child's schema. */
  lemma MarkedUnfolds(re: Regex, root: Schema, v: Json, s: Schema, path: seq<Key>)
    ensures Marked(re, root, v, s, path) <==>
              (path == [] && WriteOnly(s)) || MarkedInPlace(re, root, v, s, path) || MarkedBelow(re, root, v, s, path)
  {
    if path == [] && WriteOnly(s) {
      assert Marks(re, root, v, s, path, 0);
    }
    hide Marks, MarkedInPlace, MarkedBelow;
    if n: nat :| Marks(re, root, v, s, path, n) {
      MarkedFrom(re, root, v, s, path, n);
    }
    if MarkedInPlace(re, root, v, s, path) {
      MarkedByPlace(re, root, v, s, path);
    }
    if MarkedBelow(re, root, v, s, path) {
      MarkedByChild(re, root, v, s, path);
    }
  }

  // ----- schemas at the same place

  /** Has none of the keywords that apply schemas to the same value. */
  predicate NoPlaceKeys(s: Schema) {
    "$ref" !in s && "allOf" !in s && "anyOf" !in s && "oneOf" !in s && "then" !in s && "else" !in s && "dependentSchemas" !in s
  }

  /** Has none of the keywords that apply schemas to fields or elements. */
  predicate NoChildKeys(s: Schema) {
    && "properties" !in s && "patternProperties" !in s && "additionalProperties" !in s && "unevaluatedProperties" !in s
    && "prefixItems" !in s && "items" !in s
  }

  lemma NoPlace(s: Schema, root: Schema, v: Json)
    requires NoPlaceKeys(s)
    ensures InPlace(s, root, v) == {}
  {
  }

  lemma NoChild(re: Regex, s: Schema, k: Key)
    requires NoChildKeys(s)
    ensures OnChild(re, s, k) == {}
  {
    assert Table(s, "properties") == map[] && Table(s, "patternProperties") == map[];
  }

  lemma NotWriteOnly(s: Schema)
    requires "writeOnly" !in s
    ensures !WriteOnly(s)
  {
  }

  lemma PlaceOnly(re: Regex, root: Schema, v: Json, s: Schema, path: seq<Key>)
    requires "writeOnly" !in s && NoChildKeys(s)
    ensures Marked(re, root, v, s, path) <==> MarkedInPlace(re, root, v, s, path)
  {
    hide *;
    MarkedUnfolds(re, root, v, s, path);
    NotWriteOnly(s);
    NothingBelow(re, root, v, s, path);
  }

  lemma NothingBelow(re: Regex, root: Schema, v: Json, s: Schema, path: seq<Key>)
    requires NoChildKeys(s)
    ensures !MarkedBelow(re, root, v, s, path)
  {
    hide NoChildKeys, OnChild, Marked;
    if path != [] {
      NoChild(re, s, path[0]);
    }
  }

  lemma ChildOnly(re: Regex, root: Schema, v: Json, s: Schema, path: seq<Key>)
    requires "writeOnly" !in s && NoPlaceKeys(s)
    ensures Marked(re, root, v, s, path) <==> MarkedBelow(re, root, v, s, path)
  {
    hide NoPlaceKeys, Marked, MarkedBelow, InPlace, WriteOnly;
    MarkedUnfolds(re, root, v, s, path);
    NotWriteOnly(s);
    NoPlace(s, root, v);
  }

  /** What a schema marks whose schemas at the same place are these. */
  lemma PlaceMarks(re: Regex, root: Schema, v: Json, s: Schema, path: seq<Key>, ts: set<Schema>)
    requires "writeOnly" !in s && NoChildKeys(s) && InPlace(s, root, v) == ts
    ensures Marked(re, root, v, s, path) <==> exists t :: t in ts && Marked(re, root, v, t, path)
  {
    hide NoChildKeys, Marked, InPlace;
    PlaceOnly(re, root, v, s, path);
  }

  /** `writeOnly` marks the value itself. */
  lemma WriteOnlyMarks(re: Regex, root: Schema, v: Json, s: Schema, path: seq<Key>)
    requires s.Keys == {"writeOnly"}
    ensures Marked(re, root, v, s, path) <==> path == [] && s["writeOnly"] == Bool(true)
  {
    assert NoPlaceKeys(s) && NoChildKeys(s);
    hide NoPlaceKeys, NoChildKeys, Marked, MarkedBelow, InPlace;
    MarkedUnfolds(re, root, v, s, path);
    NothingBelow(re, root, v, s, path);
    NoPlace(s, root, v);
  }

  lemma BranchPlace(root: Schema, v: Json, s: Schema, key: string)
    requires (key == "allOf" || key == "anyOf" || key == "oneOf") && s.Keys == {key}
    ensures "writeOnly" !in s && NoChildKeys(s) && InPlace(s, root, v) == Branches(List(s, key))
  {
    assert Maybe(RefTarget(s, root)) == {} && Conditional(s) == {} && Dependent(s, v) == {};
  }

  /** `allOf`, `anyOf` and `oneOf` mark what any of their branches marks. */
  lemma BranchesMark(re: Regex, root: Schema, v: Json, s: Schema, key: string, path: seq<Key>)
    requires (key == "allOf" || key == "anyOf" || key == "oneOf") && s.Keys == {key}
    ensures Marked(re, root, v, s, path) <==> exists i :: 0 <= i < |List(s, key)| && MarkedBy(re, root, v, List(s, key)[i], path)
  {
    var branches := List(s, key);
    hide Marked, InPlace, NoChildKeys, List;
    BranchPlace(root, v, s, key);
    PlaceMarks(re, root, v, s, path, Branches(branches));
    if i :| 0 <= i < |branches| && MarkedBy(re, root, v, branches[i], path) {
      assert branches[i].fields in Branches(branches);
    }
    if t :| t in Branches(branches) && Marked(re, root, v, t, path) {
      var b :| b in branches && b.Obj? && b.fields == t;
      var i :| 0 <= i < |branches| && branches[i] == b;
      assert MarkedBy(re, root, v, branches[i], path);
    }
  }

  lemma OutcomePlace(root: Schema, v: Json, s: Schema, key: string)
    requires (key == "then" || key == "else") && s.Keys == {key}
    ensures "writeOnly" !in s && NoChildKeys(s) && InPlace(s, root, v) == Maybe(Sub(s, key))
  {
    assert Maybe(RefTarget(s, root)) == {} && Combined(s) == {} && Dependent(s, v) == {};
  }

  /** `then` and `else` mark what their schema marks, whatever the condition is. */
  lemma OutcomeMarks(re: Regex, root: Schema, v: Json, s: Schema, key: string, path: seq<Key>)
    requires (key == "then" || key == "else") && s.Keys == {key}
    ensures Marked(re, root, v, s, path) <==> MarkedBy(re, root, v, s[key], path)
  {
    hide Marked, InPlace, NoChildKeys;
    OutcomePlace(root, v, s, key);
    PlaceMarks(re, root, v, s, path, Maybe(Sub(s, key)));
  }

  lemma ReferencePlace(root: Schema, v: Json, s: Schema)
    requires s.Keys == {"$ref"}
    ensures "writeOnly" !in s && NoChildKeys(s) && InPlace(s, root, v) == Maybe(RefTarget(s, root))
  {
    assert Combined(s) == {} && Conditional(s) == {} && Dependent(s, v) == {};
    hide RefTarget;
  }

  /** A local reference marks what the schema it points to marks, and one that points nowhere
      nothing. */
  lemma ReferenceMarks(re: Regex, root: Schema, v: Json, s: Schema, path: seq<Key>)
    requires s.Keys == {"$ref"}
    ensures Marked(re, root, v, s, path) <==> RefTarget(s, root).Some? && Marked(re, root, v, RefTarget(s, root).value, path)
  {
    hide Marked, InPlace, NoChildKeys, RefTarget;
    ReferencePlace(root, v, s);
    PlaceMarks(re, root, v, s, path, Maybe(RefTarget(s, root)));
  }

  lemma DependentPlace(root: Schema, v: Json, s: Schema)
    requires s.Keys == {"dependentSchemas"}
    ensures "writeOnly" !in s && NoChildKeys(s) && InPlace(s, root, v) == Dependent(s, v)
  {
    assert Maybe(RefTarget(s, root)) == {} && Combined(s) == {} && Conditional(s) == {};
    hide Dependent;
  }

  /** `dependentSchemas` marks what the schemas of the fields that are present mark. */
  lemma DependentsMark(re: Regex, root: Schema, v: Json, s: Schema, path: seq<Key>)
    requires s.Keys == {"dependentSchemas"}
    ensures var table := Table(s, "dependentSchemas");
      Marked(re, root, v, s, path) <==>
        exists name :: v.Obj? && name in v.fields && name in table && MarkedBy(re, root, v, table[name], path)
  {
    var table := Table(s, "dependentSchemas");
    hide Marked, InPlace, NoChildKeys, Table;
    DependentPlace(root, v, s);
    PlaceMarks(re, root, v, s, path, Dependent(s, v));
    if name :| v.Obj? && name in v.fields && name in table && MarkedBy(re, root, v, table[name], path) {
      assert table[name].fields in Dependent(s, v);
    }
    if t :| t in Dependent(s, v) && Marked(re, root, v, t, path) {
      var name :| name in v.fields.Keys && name in table && table[name].Obj? && table[name].fields == t;
      assert MarkedBy(re, root, v, table[name], path);
    }
  }

  // ----- schemas of fields and elements

  /** What a schema marks below a value when these are the schemas of its child. */
  lemma ChildMarks(re: Regex, root: Schema, v: Json, s: Schema, path: seq<Key>, ts: set<Schema>)
    requires "writeOnly" !in s && NoPlaceKeys(s) && path != [] && Child(v, path[0]).Some? && OnChild(re, s, path[0]) == ts
    ensures Marked(re, root, v, s, path) <==> exists t :: t in ts && Marked(re, root, Child(v, path[0]).value, t, path[1..])
  {
    hide NoPlaceKeys, Marked, OnChild, Child;
    ChildOnly(re, root, v, s, path);
  }

  lemma NoChildThere(re: Regex, root: Schema, v: Json, s: Schema, path: seq<Key>)
    requires "writeOnly" !in s && NoPlaceKeys(s) && (path == [] || Child(v, path[0]).None? || OnChild(re, s, path[0]) == {})
    ensures !Marked(re, root, v, s, path)
  {
    hide NoPlaceKeys, Marked, OnChild, Child;
    ChildOnly(re, root, v, s, path);
  }

  lemma ItemSchemas(re: Regex, s: Schema, k: Key)
    requires s.Keys <= {"prefixItems", "items"}
    ensures "writeOnly" !in s && NoPlaceKeys(s)
    ensures OnChild(re, s, k) == if k.Index? then Maybe(OnItem(s, k.i)) else {}
  {
    if k.Field? {
      assert Table(s, "properties") == map[] && Table(s, "patternProperties") == map[] && Fallbacks(s) == {};
    }
  }

  /** The schema entry for element `i`: that of `prefixItems` while there are any, then `items`. */
  function ItemEntry(s: Schema, i: nat): Json {
    if "prefixItems" in s && s["prefixItems"].Arr? && i < |s["prefixItems"].items| then s["prefixItems"].items[i]
    else if "items" in s then s["items"]
    else Null
  }

  /** Element `i` of an array is governed by entry `i` of `prefixItems`, and from its end on by
      `items`. */
  lemma ItemsMark(re: Regex, root: Schema, v: Json, s: Schema, path: seq<Key>)
    requires s.Keys <= {"prefixItems", "items"}
    ensures Marked(re, root, v, s, path) <==>
              path != [] && path[0].Index? && Child(v, path[0]).Some? &&
              MarkedBy(re, root, Child(v, path[0]).value, ItemEntry(s, path[0].i), path[1..])
  {
    if path == [] || path[0].Field? || Child(v, path[0]).None? {
      ItemSchemas(re, s, if path == [] then Index(0) else path[0]);
      hide Marked, OnChild, NoPlaceKeys, Child;
      NoChildThere(re, root, v, s, path);
    } else {
      var i := path[0].i;
      assert OnItem(s, i) == AsSchema(Some(ItemEntry(s, i)));
      hide Marked, OnChild, NoPlaceKeys, Child, OnItem, ItemEntry;
      ItemSchemas(re, s, path[0]);
      ChildMarks(re, root, v, s, path, Maybe(OnItem(s, i)));
    }
  }

  predicate FieldKeys(s: Schema) {
    s.Keys <= {"properties", "patternProperties", "additionalProperties", "unevaluatedProperties"}
  }

  lemma FieldKeysOnly(re: Regex, s: Schema, k: Key)
    requires FieldKeys(s)
    ensures "writeOnly" !in s && NoPlaceKeys(s)
    ensures OnChild(re, s, k) == if k.Field? then OnField(re, s, k.name) else {}
  {
    if k.Index? {
      assert List(s, "prefixItems") == [] && Sub(s, "items").None?;
    }
    hide OnField;
  }

  /** No property and no pattern is for the field. */
  predicate Unclaimed(re: Regex, s: Schema, name: string) {
    var props, patterns := Table(s, "properties"), Table(s, "patternProperties");
    !(name in props && props[name].Obj?) && forall pattern :: pattern in patterns ==> !re.matches(pattern, name)
  }

  lemma ClaimedExactly(re: Regex, s: Schema, name: string)
    ensures Claimed(re, s, name) <==> !Unclaimed(re, s, name)
  {
    hide Table;
    if pattern :| pattern in Table(s, "patternProperties") && re.matches(pattern, name) {
      assert pattern in Matching(re, s, name);
    }
  }

  ghost predicate ByProperty(re: Regex, root: Schema, child: Json, s: Schema, name: string, rest: seq<Key>) {
    name in Table(s, "properties") && MarkedBy(re, root, child, Table(s, "properties")[name], rest)
  }

  ghost predicate ByPattern(re: Regex, root: Schema, child: Json, s: Schema, name: string, rest: seq<Key>) {
    var patterns := Table(s, "patternProperties");
    exists pattern :: pattern in patterns && re.matches(pattern, name) && MarkedBy(re, root, child, patterns[pattern], rest)
  }

  ghost predicate ByFallback(re: Regex, root: Schema, child: Json, s: Schema, rest: seq<Key>) {
    || ("additionalProperties" in s && MarkedBy(re, root, child, s["additionalProperties"], rest))
    || ("unevaluatedProperties" in s && MarkedBy(re, root, child, s["unevaluatedProperties"], rest))
  }

  ghost predicate AnyMarks(re: Regex, root: Schema, child: Json, ts: set<Schema>, rest: seq<Key>) {
    exists t :: t in ts && Marked(re, root, child, t, rest)
  }

  lemma PropertyMarks(re: Regex, root: Schema, child: Json, s: Schema, name: string, rest: seq<Key>)
    ensures AnyMarks(re, root, child, Maybe(Sub(Table(s, "properties"), name)), rest) <==> ByProperty(re, root, child, s, name, rest)
  {
    hide Marked, Table;
  }

  lemma PatternMarks(re: Regex, root: Schema, child: Json, s: Schema, name: string, rest: seq<Key>)
    ensures AnyMarks(re, root, child, DependentOn(Table(s, "patternProperties"), Matching(re, s, name)), rest) <==>
              ByPattern(re, root, child, s, name, rest)
  {
    hide Marked, Table;
    var patterns := Table(s, "patternProperties");
    var ts := DependentOn(patterns, Matching(re, s, name));
    if pattern :| pattern in patterns && re.matches(pattern, name) && MarkedBy(re, root, child, patterns[pattern], rest) {
      assert pattern in Matching(re, s, name) && patterns[pattern].fields in ts;
    }
    if t :| t in ts && Marked(re, root, child, t, rest) {
      var pattern :| pattern in Matching(re, s, name) && pattern in patterns && patterns[pattern].Obj? && patterns[pattern].fields == t;
      assert MarkedBy(re, root, child, patterns[pattern], rest);
    }
  }

  lemma FallbackMarks(re: Regex, root: Schema, child: Json, s: Schema, rest: seq<Key>)
    ensures AnyMarks(re, root, child, Fallbacks(s), rest) <==> ByFallback(re, root, child, s, rest)
  {
    hide Marked;
  }

  lemma AnyOfThree(re: Regex, root: Schema, child: Json, a: set<Schema>, b: set<Schema>, c: set<Schema>, rest: seq<Key>)
    ensures AnyMarks(re, root, child, a + b + c, rest) <==>
              AnyMarks(re, root, child, a, rest) || AnyMarks(re, root, child, b, rest) || AnyMarks(re, root, child, c, rest)
  {
    hide Marked;
  }

  /** A field's own schema and every pattern its name matches apply; only a field none of them
      claims is left to the fallbacks, both of them. */
  lemma FieldsMark(re: Regex, root: Schema, v: Json, s: Schema, path: seq<Key>)
    requires FieldKeys(s)
    ensures Marked(re, root, v, s, path) <==>
              path != [] && path[0].Field? && Child(v, path[0]).Some? &&
              var child, name, rest := Child(v, path[0]).value, path[0].name, path[1..];
              || ByProperty(re, root, child, s, name, rest)
              || ByPattern(re, root, child, s, name, rest)
              || (Unclaimed(re, s, name) && ByFallback(re, root, child, s, rest))
  {
    FieldKeysOnly(re, s, if path == [] then Index(0) else path[0]);
    hide FieldKeys, NoPlaceKeys, Marked, OnChild, Child, Claimed, Unclaimed, ByProperty, ByPattern, ByFallback, Fallbacks, Table, Matching, DependentOn, Sub;
    if path == [] || path[0].Index? || Child(v, path[0]).None? {
      NoChildThere(re, root, v, s, path);
    } else {
      var child, name, rest := Child(v, path[0]).value, path[0].name, path[1..];
      ChildMarks(re, root, v, s, path, OnField(re, s, name));
      ClaimedExactly(re, s, name);
      PropertyMarks(re, root, child, s, name, rest);
      PatternMarks(re, root, child, s, name, rest);
      FallbackMarks(re, root, child, s, rest);
      AnyOfThree(re, root, child, Maybe(Sub(Table(s, "properties"), name)), DependentOn(Table(s, "patternProperties"), Matching(re, s, name)),
                 if Claimed(re, s, name) then {} else Fallbacks(s), rest);
    }
  }
}
