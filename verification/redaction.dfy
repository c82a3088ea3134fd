/** Redaction of tool input for display, driven by the tool's JSON Schema.

    `Marks` says, independently of the traversal, which positions of a value a schema
    marks writeOnly (section 9.4 of JSON Schema Validation 2020-12) through the keywords
    that are handled. `Redact` is the recursive traversal with its shared work budget;
    it is proved against `Marks` for every schema (cyclic `$ref`s included), every input
    and every order in which map entries are visited. */
module Redaction {

  import opened Wrappers

  datatype Json = Null | Bool(b: bool) | Num(n: int) | Str(s: string) | Arr(items: seq<Json>) | Obj(fields: map<string, Json>)

  type Schema = map<string, Json>

  /** The regular-expression engine: which patterns compile, and what they match. */
  datatype Regex = Regex(compiles: string -> bool, matches: (string, string) -> bool)

  const MARK: Json := Str("[sensitive field supplied]")
  const WORK_BUDGET: nat := 4096
  const MAX_DEPTH: nat := 64

  // ----- reading schemas

  function Get(m: map<string, Json>, key: string): Option<Json> {
    if key in m then Some(m[key]) else None
  }

  function AsSchema(j: Option<Json>): Option<Schema> {
    if j.Some? && j.value.Obj? then Some(j.value.fields) else None
  }

  function Sub(s: Schema, key: string): Option<Schema> {
    AsSchema(Get(s, key))
  }

  /** A keyword whose value is a map of named things; absent or ill-typed reads as empty. */
  function Table(s: Schema, key: string): map<string, Json> {
    if Sub(s, key).Some? then Sub(s, key).value else map[]
  }

  function List(s: Schema, key: string): seq<Json> {
    if key in s && s[key].Arr? then s[key].items else []
  }

  predicate WriteOnly(s: Schema) {
    Get(s, "writeOnly") == Some(Bool(true))
  }

  // ----- local references (section 4 of RFC 6901)

  function Split(s: string): (parts: seq<string>)
    ensures parts != []
  {
    if s == "" then [""]
    else
      var rest := Split(s[1..]);
      if s[0] == '/' then [""] + rest else [[s[0]] + rest[0]] + rest[1..]
  }

  /** Replaces every occurrence of the two characters `a`, `b` by `c`, left to right. */
  function ReplacePair(s: string, a: char, b: char, c: char): string {
    if |s| < 2 then s
    else if s[0] == a && s[1] == b then [c] + ReplacePair(s[2..], a, b, c)
    else [s[0]] + ReplacePair(s[1..], a, b, c)
  }

  function Unescape(part: string): string {
    ReplacePair(ReplacePair(part, '~', '1', '/'), '~', '0', '~')
  }

  function Walk(node: Option<Json>, parts: seq<string>): Option<Json>
    decreases |parts|
  {
    if parts == [] then node
    else
      Walk(if AsSchema(node).Some? then Get(AsSchema(node).value, Unescape(parts[0])) else None, parts[1..])
  }

  predicate LocalRef(s: Schema) {
    var ref := Get(s, "$ref");
    ref.Some? && ref.value.Str? && "#/" <= ref.value.s
  }

  function RefParts(s: Schema): seq<string>
    requires LocalRef(s)
  {
    Split(s["$ref"].s[2..])
  }

  function RefTarget(s: Schema, root: Schema): Option<Schema> {
    if LocalRef(s) then AsSchema(Walk(Some(Obj(root)), RefParts(s))) else None
  }

  // ----- which positions a schema marks

  datatype Key = Field(name: string) | Index(i: nat)

  function Child(v: Json, k: Key): Option<Json> {
    match k
    case Field(name) => if v.Obj? then Get(v.fields, name) else None
    case Index(i) => if v.Arr? && i < |v.items| then Some(v.items[i]) else None
  }

  function At(v: Json, path: seq<Key>): Option<Json>
    decreases |path|
  {
    if path == [] then Some(v)
    else if Child(v, path[0]).None? then None
    else At(Child(v, path[0]).value, path[1..])
  }

  /** The position, or one of its ancestors, has been replaced. */
  predicate Hidden(v: Json, path: seq<Key>)
    decreases |path|
  {
    v == MARK || (path != [] && Child(v, path[0]).Some? && Hidden(Child(v, path[0]).value, path[1..]))
  }

  function Maybe(s: Option<Schema>): set<Schema> {
    if s.Some? then {s.value} else {}
  }

  function Branches(branches: seq<Json>): set<Schema> {
    set b | b in branches && b.Obj? :: b.fields
  }

  function Combined(s: Schema): set<Schema> {
    Branches(List(s, "allOf")) + Branches(List(s, "anyOf")) + Branches(List(s, "oneOf"))
  }

  function Conditional(s: Schema): set<Schema> {
    Maybe(Sub(s, "then")) + Maybe(Sub(s, "else"))
  }

  function DependentOn(table: map<string, Json>, names: set<string>): set<Schema> {
    set name | name in names && name in table && table[name].Obj? :: table[name].fields
  }

  function Dependent(s: Schema, v: Json): set<Schema> {
    if v.Obj? then DependentOn(Table(s, "dependentSchemas"), v.fields.Keys) else {}
  }

  /** The schemas applied to the same value as `s`. */
  function InPlace(s: Schema, root: Schema, v: Json): set<Schema> {
    Maybe(RefTarget(s, root)) + Combined(s) + Conditional(s) + Dependent(s, v)
  }

  function Matched(re: Regex, patterns: set<string>, name: string): set<string> {
    set pattern | pattern in patterns && re.matches(pattern, name)
  }

  function Matching(re: Regex, s: Schema, name: string): set<string> {
    Matched(re, Table(s, "patternProperties").Keys, name)
  }

  /** Some property or pattern claims the field, so the fallbacks do not apply to it. */
  predicate Claimed(re: Regex, s: Schema, name: string) {
    Sub(Table(s, "properties"), name).Some? || Matching(re, s, name) != {}
  }

  function Fallbacks(s: Schema): set<Schema> {
    Maybe(Sub(s, "additionalProperties")) + Maybe(Sub(s, "unevaluatedProperties"))
  }

  function OnField(re: Regex, s: Schema, name: string): set<Schema> {
    Maybe(Sub(Table(s, "properties"), name)) +
    DependentOn(Table(s, "patternProperties"), Matching(re, s, name)) +
    (if Claimed(re, s, name) then {} else Fallbacks(s))
  }

  function OnItem(s: Schema, i: nat): Option<Schema> {
    var prefix := List(s, "prefixItems");
    if i < |prefix| then AsSchema(Some(prefix[i])) else Sub(s, "items")
  }

  /** The schemas applied to the child of the value at `k`. */
  function OnChild(re: Regex, s: Schema, k: Key): set<Schema> {
    match k
    case Field(name) => OnField(re, s, name)
    case Index(i) => Maybe(OnItem(s, i))
  }

  /** Schema `s` marks the position at `path` of `v`, by a derivation of at most `n` steps. */
  ghost predicate Marks(re: Regex, root: Schema, v: Json, s: Schema, path: seq<Key>, n: nat)
    decreases n, 0
  {
    || (path == [] && WriteOnly(s))
    || (n > 0 && MarksAny(re, root, v, InPlace(s, root, v), path, n - 1))
    || (n > 0 && path != [] && Child(v, path[0]).Some? &&
        MarksAny(re, root, Child(v, path[0]).value, OnChild(re, s, path[0]), path[1..], n - 1))
  }

  ghost predicate MarksAny(re: Regex, root: Schema, v: Json, ts: set<Schema>, path: seq<Key>, n: nat)
    decreases n, 1
  {
    exists t :: t in ts && Marks(re, root, v, t, path, n)
  }

  /** Every position that one of the schemas marks in `v` is hidden in `out`. */
  ghost predicate Covers(re: Regex, root: Schema, v: Json, ts: set<Schema>, out: Json) {
    forall path, n :: MarksAny(re, root, v, ts, path, n) ==> Hidden(out, path)
  }

  /** `out` newly shows the marker only where one of the schemas marks `v`. */
  ghost predicate Justified(re: Regex, root: Schema, v: Json, ts: set<Schema>, out: Json) {
    forall path :: At(out, path) == Some(MARK) && At(v, path) != Some(MARK) ==> exists n :: MarksAny(re, root, v, ts, path, n)
  }

  /** `out` is `v` with some positions replaced by the marker and nothing else changed. */
  ghost predicate Masked(v: Json, out: Json)
    decreases v
  {
    || out == MARK || out == v
    || (match v
        case Arr(items) =>
          out.Arr? && |out.items| == |items| && forall i :: 0 <= i < |items| ==> Masked(items[i], out.items[i])
        case Obj(fields) =>
          out.Obj? && out.fields.Keys == fields.Keys && forall k :: k in fields ==> Masked(fields[k], out.fields[k])
        case _ => false)
  }

  ghost predicate HasMarker(v: Json) {
    exists path :: At(v, path) == Some(MARK)
  }

  // ----- how masking and marking interact

  lemma MaskedTrans(u: Json, v: Json, w: Json)
    requires Masked(u, v) && Masked(v, w)
    ensures Masked(u, w)
  {
  }

  lemma MaskedChild(v: Json, out: Json, k: Key)
    requires Masked(v, out) && out != MARK
    ensures Child(v, k).Some? <==> Child(out, k).Some?
    ensures Child(v, k).Some? ==> Masked(Child(v, k).value, Child(out, k).value)
  {
  }

  lemma {:induction false} HiddenStays(v: Json, out: Json, path: seq<Key>)
    requires Masked(v, out) && Hidden(v, path)
    ensures Hidden(out, path)
    decreases |path|
  {
    if out != MARK && v != MARK {
      MaskedChild(v, out, path[0]);
      HiddenStays(Child(v, path[0]).value, Child(out, path[0]).value, path[1..]);
    }
  }

  lemma {:induction false} MarkerStaysAt(v: Json, out: Json, path: seq<Key>)
    requires Masked(v, out) && At(v, path) == Some(MARK)
    ensures HasMarker(out)
    decreases |path|
  {
    if out == MARK || path == [] {
      assert At(out, []) == Some(MARK);
    } else {
      MaskedChild(v, out, path[0]);
      MarkerStaysAt(Child(v, path[0]).value, Child(out, path[0]).value, path[1..]);
      MarkerBelow(out, path[0]);
    }
  }

  lemma MarkerBelow(v: Json, k: Key)
    requires Child(v, k).Some? && HasMarker(Child(v, k).value)
    ensures HasMarker(v)
  {
    var path :| At(Child(v, k).value, path) == Some(MARK);
    assert At(v, [k] + path) == Some(MARK);
  }

  lemma InPlaceMasked(s: Schema, root: Schema, v: Json, out: Json)
    requires Masked(v, out)
    ensures InPlace(s, root, out) <= InPlace(s, root, v)
    ensures out != MARK ==> InPlace(s, root, out) == InPlace(s, root, v)
  {
  }

  /** Masking loses no mark unless it hides the position. */
  lemma {:induction false} MarksKept(re: Regex, root: Schema, v: Json, out: Json, ts: set<Schema>, path: seq<Key>, n: nat)
    requires Masked(v, out) && !Hidden(out, path) && MarksAny(re, root, v, ts, path, n)
    ensures MarksAny(re, root, out, ts, path, n)
    decreases n
  {
    var s :| s in ts && Marks(re, root, v, s, path, n);
    InPlaceMasked(s, root, v, out);
    if path == [] && WriteOnly(s) {
    } else if MarksAny(re, root, v, InPlace(s, root, v), path, n - 1) {
      MarksKept(re, root, v, out, InPlace(s, root, v), path, n - 1);
    } else {
      MaskedChild(v, out, path[0]);
      MarksKept(re, root, Child(v, path[0]).value, Child(out, path[0]).value, OnChild(re, s, path[0]), path[1..], n - 1);
    }
    assert Marks(re, root, out, s, path, n);
  }

  lemma MarksMore(re: Regex, root: Schema, v: Json, ts: set<Schema>, more: set<Schema>, path: seq<Key>, n: nat)
    requires ts <= more && MarksAny(re, root, v, ts, path, n)
    ensures MarksAny(re, root, v, more, path, n)
  {
  }

  /** Masking adds no mark. */
  lemma {:induction false} MarksReflected(re: Regex, root: Schema, v: Json, out: Json, ts: set<Schema>, path: seq<Key>, n: nat)
    requires Masked(v, out) && MarksAny(re, root, out, ts, path, n)
    ensures MarksAny(re, root, v, ts, path, n)
    decreases n, 1
  {
    var s :| s in ts && Marks(re, root, out, s, path, n);
    MarkReflected(re, root, v, out, s, path, n);
  }

  lemma {:induction false} MarkReflected(re: Regex, root: Schema, v: Json, out: Json, s: Schema, path: seq<Key>, n: nat)
    requires Masked(v, out) && Marks(re, root, out, s, path, n)
    ensures Marks(re, root, v, s, path, n)
    decreases n, 0
  {
    if path == [] && WriteOnly(s) {
    } else if MarksAny(re, root, out, InPlace(s, root, out), path, n - 1) {
      InPlaceMasked(s, root, v, out);
      hide InPlace, Masked, MarksAny;
      MarksReflected(re, root, v, out, InPlace(s, root, out), path, n - 1);
      MarksMore(re, root, v, InPlace(s, root, out), InPlace(s, root, v), path, n - 1);
    } else {
      hide InPlace, OnChild, Masked, MarksAny;
      var k := path[0];
      MaskedChild(v, out, k);
      var child, child' := Child(v, k).value, Child(out, k).value;
      MarksReflected(re, root, child, child', OnChild(re, s, k), path[1..], n - 1);
    }
  }

  // ----- how much work an input is

  ghost function SumSet<T>(keys: set<T>, cost: T -> nat): nat {
    if keys == {} then 0
    else
      var k :| k in keys;
      cost(k) + SumSet(keys - {k}, cost)
  }

  function Left(depth: nat): nat {
    if depth > MAX_DEPTH then 0 else MAX_DEPTH + 1 - depth
  }

  /** The units of work the traversal may spend on a value, read off the schema and the value.
      A schema nested too deep and a pattern that does not compile count as a whole budget. */
  ghost function Work(re: Regex, root: Schema, s: Option<Schema>, v: Json, depth: nat): (work: nat)
    ensures work >= 1
    decreases Left(depth), 6
  {
    if s.None? || v == MARK || WriteOnly(s.value) then 1
    else if depth > MAX_DEPTH then WORK_BUDGET
    else 1 + InPlaceWork(re, root, s.value, v, depth) + ChildWork(re, root, s.value, v, depth)
  }

  ghost function InPlaceWork(re: Regex, root: Schema, s: Schema, v: Json, depth: nat): nat
    requires depth <= MAX_DEPTH
    decreases Left(depth), 3
  {
    RefWork(re, root, s, v, depth) + CombinedWork(re, root, s, v, depth) + ConditionalWork(re, root, s, v, depth) +
    DependentWork(re, root, Table(s, "dependentSchemas"), v, depth)
  }

  ghost function RefWork(re: Regex, root: Schema, s: Schema, v: Json, depth: nat): nat
    requires depth <= MAX_DEPTH
    decreases Left(depth), 1
  {
    if LocalRef(s) then |RefParts(s)| + MaybeWork(re, root, RefTarget(s, root), v, depth) else 0
  }

  ghost function MaybeWork(re: Regex, root: Schema, s: Option<Schema>, v: Json, depth: nat): nat
    requires depth <= MAX_DEPTH
    decreases Left(depth), 0
  {
    if s.Some? then Work(re, root, s, v, depth + 1) else 0
  }

  ghost function BranchWork(re: Regex, root: Schema, branches: seq<Json>, v: Json, depth: nat): nat
    requires depth <= MAX_DEPTH
    decreases Left(depth), 1, |branches|
  {
    if branches == [] then 0
    else
      var n := |branches| - 1;
      BranchWork(re, root, branches[..n], v, depth) + 1 + MaybeWork(re, root, AsSchema(Some(branches[n])), v, depth)
  }

  ghost function CombinedWork(re: Regex, root: Schema, s: Schema, v: Json, depth: nat): nat
    requires depth <= MAX_DEPTH
    decreases Left(depth), 2
  {
    BranchWork(re, root, List(s, "allOf"), v, depth) + BranchWork(re, root, List(s, "anyOf"), v, depth) +
    BranchWork(re, root, List(s, "oneOf"), v, depth)
  }

  ghost function ConditionalWork(re: Regex, root: Schema, s: Schema, v: Json, depth: nat): nat
    requires depth <= MAX_DEPTH
    decreases Left(depth), 1
  {
    MaybeWork(re, root, Sub(s, "then"), v, depth) + MaybeWork(re, root, Sub(s, "else"), v, depth)
  }

  ghost function DependentCost(re: Regex, root: Schema, table: map<string, Json>, v: Json, depth: nat): string -> nat
    requires depth <= MAX_DEPTH
    decreases Left(depth), 1
  {
    name =>
      1 + if v.Obj? && name in v.fields && name in table then MaybeWork(re, root, AsSchema(Some(table[name])), v, depth) else 0
  }

  ghost function DependentWork(re: Regex, root: Schema, table: map<string, Json>, v: Json, depth: nat): nat
    requires depth <= MAX_DEPTH
    decreases Left(depth), 2
  {
    if v.Obj? then SumSet(table.Keys, DependentCost(re, root, table, v, depth)) else 0
  }

  ghost function MatchWork(re: Regex, root: Schema, child: Option<Schema>, pattern: string, name: string, v: Json, depth: nat): nat
    requires depth <= MAX_DEPTH
    decreases Left(depth), 0
  {
    if !re.compiles(pattern) then WORK_BUDGET
    else if re.matches(pattern, name) then Work(re, root, child, v, depth + 1)
    else 0
  }

  ghost function PatternCost(re: Regex, root: Schema, patterns: map<string, Json>, name: string, v: Json, depth: nat): string -> nat
    requires depth <= MAX_DEPTH
    decreases Left(depth), 1
  {
    pattern => 1 + if pattern in patterns then MatchWork(re, root, AsSchema(Some(patterns[pattern])), pattern, name, v, depth) else 0
  }

  ghost function PatternWork(re: Regex, root: Schema, patterns: map<string, Json>, name: string, v: Json, depth: nat): nat
    requires depth <= MAX_DEPTH
    decreases Left(depth), 2
  {
    SumSet(patterns.Keys, PatternCost(re, root, patterns, name, v, depth))
  }

  ghost function FallbackWork(re: Regex, root: Schema, s: Schema, v: Json, depth: nat): nat
    requires depth <= MAX_DEPTH
    decreases Left(depth), 0
  {
    Work(re, root, Sub(s, "additionalProperties"), v, depth + 1) + Work(re, root, Sub(s, "unevaluatedProperties"), v, depth + 1)
  }

  ghost function FieldWork(re: Regex, root: Schema, s: Schema, name: string, v: Json, depth: nat): nat
    requires depth <= MAX_DEPTH
    decreases Left(depth), 3
  {
    Work(re, root, Sub(Table(s, "properties"), name), v, depth + 1) +
    PatternWork(re, root, Table(s, "patternProperties"), name, v, depth) +
    if Claimed(re, s, name) then 0 else FallbackWork(re, root, s, v, depth)
  }

  ghost function FieldCost(re: Regex, root: Schema, s: Schema, fields: map<string, Json>, depth: nat): string -> nat
    requires depth <= MAX_DEPTH
    decreases Left(depth), 4
  {
    name => if name in fields then FieldWork(re, root, s, name, fields[name], depth) else 0
  }

  ghost function ItemWork(re: Regex, root: Schema, s: Schema, items: seq<Json>, depth: nat): nat
    requires depth <= MAX_DEPTH
    decreases Left(depth), 0, |items|
  {
    if items == [] then 0
    else
      var n := |items| - 1;
      ItemWork(re, root, s, items[..n], depth) + Work(re, root, OnItem(s, n), items[n], depth + 1)
  }

  ghost function ChildWork(re: Regex, root: Schema, s: Schema, v: Json, depth: nat): nat
    requires depth <= MAX_DEPTH
    decreases Left(depth), 5
  {
    match v
    case Obj(fields) => SumSet(fields.Keys, FieldCost(re, root, s, fields, depth))
    case Arr(items) => ItemWork(re, root, s, items, depth)
    case _ => 0
  }

  // ----- sums, and that masking makes no work

  lemma {:induction false} SumRemove<T>(keys: set<T>, k: T, cost: T -> nat)
    requires k in keys
    ensures SumSet(keys, cost) == cost(k) + SumSet(keys - {k}, cost)
    decreases |keys|
  {
    var first :| first in keys && SumSet(keys, cost) == cost(first) + SumSet(keys - {first}, cost);
    if first == k {
    } else {
      SumRemove(keys - {first}, k, cost);
      SumRemove(keys - {k}, first, cost);
      assert keys - {first} - {k} == keys - {k} - {first};
    }
  }

  lemma SumAdd<T>(keys: set<T>, k: T, cost: T -> nat)
    requires k !in keys
    ensures SumSet(keys + {k}, cost) == SumSet(keys, cost) + cost(k)
  {
    SumRemove(keys + {k}, k, cost);
    assert keys + {k} - {k} == keys;
  }

  lemma {:induction false} SumSubset<T>(few: set<T>, many: set<T>, cost: T -> nat)
    requires few <= many
    ensures SumSet(few, cost) <= SumSet(many, cost)
    decreases |many - few|
  {
    if few == many {
    } else {
      assert !(many <= few);
      var k :| k in many && k !in few;
      SumAdd(few, k, cost);
      assert many - (few + {k}) < many - few;
      SumSubset(few + {k}, many, cost);
    }
  }

  lemma {:induction false} SumLess<T>(keys: set<T>, low: T -> nat, high: T -> nat)
    requires forall k :: k in keys ==> low(k) <= high(k)
    ensures SumSet(keys, low) <= SumSet(keys, high)
    decreases |keys|
  {
    if keys == {} {
    } else {
      var k :| k in keys;
      SumRemove(keys, k, low);
      SumRemove(keys, k, high);
      SumLess(keys - {k}, low, high);
    }
  }

  /** Masking a value makes none of it more work. */
  lemma {:induction false} WorkLess(re: Regex, root: Schema, s: Option<Schema>, v: Json, out: Json, depth: nat)
    requires Masked(v, out)
    ensures Work(re, root, s, out, depth) <= Work(re, root, s, v, depth)
    decreases Left(depth), 6
  {
    if s.None? || out == MARK || WriteOnly(s.value) || depth > MAX_DEPTH {
    } else {
      InPlaceLess(re, root, s.value, v, out, depth);
      ChildLess(re, root, s.value, v, out, depth);
      hide InPlaceWork, ChildWork, Masked;
    }
  }

  lemma {:induction false} MaybeLess(re: Regex, root: Schema, s: Option<Schema>, v: Json, out: Json, depth: nat)
    requires Masked(v, out) && depth <= MAX_DEPTH
    ensures MaybeWork(re, root, s, out, depth) <= MaybeWork(re, root, s, v, depth)
    decreases Left(depth), 0
  {
    hide Masked, Work;
    if s.Some? {
      WorkLess(re, root, s, v, out, depth + 1);
    }
  }

  lemma {:induction false} BranchLess(re: Regex, root: Schema, branches: seq<Json>, v: Json, out: Json, depth: nat)
    requires Masked(v, out) && depth <= MAX_DEPTH
    ensures BranchWork(re, root, branches, out, depth) <= BranchWork(re, root, branches, v, depth)
    decreases Left(depth), 1, |branches|
  {
    hide Masked, MaybeWork;
    if branches == [] {
    } else {
      var n := |branches| - 1;
      BranchLess(re, root, branches[..n], v, out, depth);
      MaybeLess(re, root, AsSchema(Some(branches[n])), v, out, depth);
    }
  }

  lemma {:induction false} CombinedLess(re: Regex, root: Schema, s: Schema, v: Json, out: Json, depth: nat)
    requires Masked(v, out) && depth <= MAX_DEPTH
    ensures CombinedWork(re, root, s, out, depth) <= CombinedWork(re, root, s, v, depth)
    decreases Left(depth), 2
  {
    hide Masked, BranchWork;
    BranchLess(re, root, List(s, "allOf"), v, out, depth);
    BranchLess(re, root, List(s, "anyOf"), v, out, depth);
    BranchLess(re, root, List(s, "oneOf"), v, out, depth);
  }

  lemma {:induction false} ConditionalLess(re: Regex, root: Schema, s: Schema, v: Json, out: Json, depth: nat)
    requires Masked(v, out) && depth <= MAX_DEPTH
    ensures ConditionalWork(re, root, s, out, depth) <= ConditionalWork(re, root, s, v, depth)
    decreases Left(depth), 2
  {
    hide Masked, MaybeWork;
    MaybeLess(re, root, Sub(s, "then"), v, out, depth);
    MaybeLess(re, root, Sub(s, "else"), v, out, depth);
  }

  lemma {:induction false} DependentLess(re: Regex, root: Schema, table: map<string, Json>, v: Json, out: Json, depth: nat)
    requires Masked(v, out) && depth <= MAX_DEPTH
    ensures DependentWork(re, root, table, out, depth) <= DependentWork(re, root, table, v, depth)
    decreases Left(depth), 2
  {
    if out.Obj? {
      assert v.Obj? && v.fields.Keys == out.fields.Keys;
      hide Masked, MaybeWork;
      forall name | name in table.Keys
        ensures DependentCost(re, root, table, out, depth)(name) <= DependentCost(re, root, table, v, depth)(name)
      {
        MaybeLess(re, root, AsSchema(Some(table[name])), v, out, depth);
      }
      SumLess(table.Keys, DependentCost(re, root, table, out, depth), DependentCost(re, root, table, v, depth));
    }
  }

  lemma {:induction false} InPlaceLess(re: Regex, root: Schema, s: Schema, v: Json, out: Json, depth: nat)
    requires Masked(v, out) && depth <= MAX_DEPTH
    ensures InPlaceWork(re, root, s, out, depth) <= InPlaceWork(re, root, s, v, depth)
    decreases Left(depth), 3
  {
    hide Masked, MaybeWork, CombinedWork, ConditionalWork, DependentWork;
    MaybeLess(re, root, RefTarget(s, root), v, out, depth);
    CombinedLess(re, root, s, v, out, depth);
    ConditionalLess(re, root, s, v, out, depth);
    DependentLess(re, root, Table(s, "dependentSchemas"), v, out, depth);
  }

  lemma {:induction false} PatternLess(re: Regex, root: Schema, patterns: map<string, Json>, name: string, v: Json, out: Json, depth: nat)
    requires Masked(v, out) && depth <= MAX_DEPTH
    ensures PatternWork(re, root, patterns, name, out, depth) <= PatternWork(re, root, patterns, name, v, depth)
    decreases Left(depth), 2
  {
    hide Masked, Work;
    forall pattern | pattern in patterns.Keys
      ensures PatternCost(re, root, patterns, name, out, depth)(pattern) <= PatternCost(re, root, patterns, name, v, depth)(pattern)
    {
      WorkLess(re, root, AsSchema(Some(patterns[pattern])), v, out, depth + 1);
    }
    SumLess(patterns.Keys, PatternCost(re, root, patterns, name, out, depth), PatternCost(re, root, patterns, name, v, depth));
  }

  lemma {:induction false} FallbackLess(re: Regex, root: Schema, s: Schema, v: Json, out: Json, depth: nat)
    requires Masked(v, out) && depth <= MAX_DEPTH
    ensures FallbackWork(re, root, s, out, depth) <= FallbackWork(re, root, s, v, depth)
    decreases Left(depth), 2
  {
    hide Masked, Work;
    WorkLess(re, root, Sub(s, "additionalProperties"), v, out, depth + 1);
    WorkLess(re, root, Sub(s, "unevaluatedProperties"), v, out, depth + 1);
  }

  lemma {:induction false} FieldLess(re: Regex, root: Schema, s: Schema, name: string, v: Json, out: Json, depth: nat)
    requires Masked(v, out) && depth <= MAX_DEPTH
    ensures FieldWork(re, root, s, name, out, depth) <= FieldWork(re, root, s, name, v, depth)
    decreases Left(depth), 3
  {
    hide Masked, Work, PatternWork, FallbackWork;
    WorkLess(re, root, Sub(Table(s, "properties"), name), v, out, depth + 1);
    PatternLess(re, root, Table(s, "patternProperties"), name, v, out, depth);
    FallbackLess(re, root, s, v, out, depth);
  }

  lemma {:induction false} ItemLess(re: Regex, root: Schema, s: Schema, items: seq<Json>, outs: seq<Json>, depth: nat)
    requires |items| == |outs| && (forall i :: 0 <= i < |items| ==> Masked(items[i], outs[i])) && depth <= MAX_DEPTH
    ensures ItemWork(re, root, s, outs, depth) <= ItemWork(re, root, s, items, depth)
    decreases Left(depth), 1, |items|
  {
    hide Masked, Work;
    if items == [] {
    } else {
      var n := |items| - 1;
      ItemLess(re, root, s, items[..n], outs[..n], depth);
      WorkLess(re, root, OnItem(s, n), items[n], outs[n], depth + 1);
    }
  }

  lemma {:induction false} ChildLess(re: Regex, root: Schema, s: Schema, v: Json, out: Json, depth: nat)
    requires Masked(v, out) && depth <= MAX_DEPTH
    ensures ChildWork(re, root, s, out, depth) <= ChildWork(re, root, s, v, depth)
    decreases Left(depth), 5
  {
    if out == v || out == MARK {
    } else if v.Arr? {
      ItemLess(re, root, s, v.items, out.items, depth);
    } else {
      FieldsLess(re, root, s, v.fields, out.fields, depth);
    }
  }

  lemma {:induction false} FieldsLess(re: Regex, root: Schema, s: Schema, fields: map<string, Json>, outs: map<string, Json>, depth: nat)
    requires fields.Keys == outs.Keys && (forall k :: k in fields ==> Masked(fields[k], outs[k])) && depth <= MAX_DEPTH
    ensures SumSet(outs.Keys, FieldCost(re, root, s, outs, depth)) <= SumSet(fields.Keys, FieldCost(re, root, s, fields, depth))
    decreases Left(depth), 4
  {
    hide Masked, FieldWork;
    forall name | name in fields.Keys
      ensures FieldCost(re, root, s, outs, depth)(name) <= FieldCost(re, root, s, fields, depth)(name)
    {
      FieldLess(re, root, s, name, fields[name], outs[name], depth);
    }
    SumLess(fields.Keys, FieldCost(re, root, s, outs, depth), FieldCost(re, root, s, fields, depth));
  }

  // ----- what one traversal step owes its caller

  /** Why a traversal gave up on classifying part of the value: the budget is gone, or a schema
      is nested too deep or holds a pattern that does not compile. */
  datatype Limit = Unlimited | BudgetSpent | Unclassifiable

  function First(a: Limit, b: Limit): Limit {
    if a.Unlimited? then b else a
  }

  /** The units spent are covered by the work of the input, and a limit is reported only when
      the input really is that much work. */
  ghost predicate Paid(budget: nat, left: nat, work: nat, limit: Limit) {
    && left <= budget <= left + work
    && (limit.BudgetSpent? ==> left == 0)
    && (limit.Unclassifiable? ==> work >= WORK_BUDGET)
  }

  lemma PaidMore(budget: nat, left: nat, work: nat, more: nat, limit: Limit)
    requires Paid(budget, left, work, limit) && work <= more
    ensures Paid(budget, left, more, limit)
  {
  }

  /** One unit for looking, and then what was looked at. */
  lemma PaidStep(budget: nat, middle: nat, left: nat, work: nat, more: nat, total: nat, limit: Limit, limit': Limit)
    requires Paid(budget, middle + 1, work, limit) && Paid(middle, left, more, limit') && work + 1 + more <= total
    ensures Paid(budget, left, total, First(limit, limit'))
  {
  }

  lemma PaidThen(budget: nat, middle: nat, left: nat, work: nat, more: nat, total: nat, limit: Limit, limit': Limit)
    requires Paid(budget, middle, work, limit) && Paid(middle, left, more, limit') && work + more <= total
    ensures Paid(budget, left, total, First(limit, limit'))
  {
  }

  lemma PaidNothing(budget: nat)
    ensures Paid(budget, budget, 0, Unlimited)
  {
  }

  lemma PaidUnit(budget: nat, left: nat, work: nat, total: nat, limit: Limit)
    requires Paid(budget, left, work, limit) && left > 0 && work + 1 <= total
    ensures Paid(budget, left - 1, total, limit)
  {
  }

  lemma PaidOut(budget: nat, work: nat, more: nat, limit: Limit)
    requires Paid(budget, 0, work, limit) && work <= more
    ensures Paid(budget, 0, more, BudgetSpent)
  {
  }

  /** `out` is `v` after the schemas `ts` have been applied to it: everything they mark is
      hidden and, unless a limit was hit, nothing else is. */
  ghost predicate Handled(re: Regex, root: Schema, v: Json, ts: set<Schema>, out: Json, limit: Limit) {
    && Masked(v, out)
    && Covers(re, root, v, ts, out)
    && (limit.Unlimited? ==> Justified(re, root, v, ts, out))
  }

  lemma MarkerStays(re: Regex, root: Schema, v: Json, ts: set<Schema>, out: Json, limit: Limit)
    requires Handled(re, root, v, ts, out, limit) && HasMarker(v)
    ensures HasMarker(out)
  {
    var path :| At(v, path) == Some(MARK);
    MarkerStaysAt(v, out, path);
  }

  lemma MarkerInField(re: Regex, root: Schema, fields: map<string, Json>, name: string, ts: set<Schema>, field: Json, limit: Limit)
    requires name in fields && Handled(re, root, fields[name], ts, field, limit)
    requires HasMarker(Obj(fields)) || HasMarker(field)
    ensures HasMarker(Obj(fields[name := field]))
  {
    var out := Obj(fields[name := field]);
    if HasMarker(field) {
      MarkerBelow(out, Field(name));
    } else {
      var path :| At(Obj(fields), path) == Some(MARK);
      MarkerStaysAt(Obj(fields), out, path);
    }
  }

  lemma MarkerInItem(re: Regex, root: Schema, items: seq<Json>, i: nat, ts: set<Schema>, item: Json, limit: Limit)
    requires i < |items| && Handled(re, root, items[i], ts, item, limit)
    requires HasMarker(Arr(items)) || HasMarker(item)
    ensures HasMarker(Arr(items[i := item]))
  {
    var out := Arr(items[i := item]);
    if HasMarker(item) {
      MarkerBelow(out, Index(i));
    } else {
      var path :| At(Arr(items), path) == Some(MARK);
      MarkerStaysAt(Arr(items), out, path);
    }
  }

  lemma HandledMasked(re: Regex, root: Schema, v: Json, ts: set<Schema>, out: Json, limit: Limit)
    requires Handled(re, root, v, ts, out, limit)
    ensures Masked(v, out)
  {
  }

  lemma HandledNothing(re: Regex, root: Schema, v: Json)
    ensures Handled(re, root, v, {}, v, Unlimited)
  {
  }

  lemma HandledByGivingUp(re: Regex, root: Schema, v: Json, ts: set<Schema>, limit: Limit)
    requires !limit.Unlimited?
    ensures Handled(re, root, v, ts, MARK, limit)
  {
  }

  /** A value that is already replaced satisfies any further schema. */
  lemma HandledMarker(re: Regex, root: Schema, v: Json, ts: set<Schema>, more: set<Schema>, limit: Limit)
    requires Handled(re, root, v, ts, MARK, limit) && ts <= more
    ensures Handled(re, root, v, more, MARK, limit)
  {
    forall path | limit.Unlimited? && At(MARK, path) == Some(MARK) && At(v, path) != Some(MARK)
      ensures exists n :: MarksAny(re, root, v, more, path, n)
    {
      var n: nat :| MarksAny(re, root, v, ts, path, n);
      assert MarksAny(re, root, v, more, path, n);
    }
  }

  /** Applying one group of schemas after another applies both. */
  lemma HandledTwice(re: Regex, root: Schema, v: Json, ts: set<Schema>, cur: Json, limit: Limit, us: set<Schema>, out: Json, limit': Limit)
    requires Handled(re, root, v, ts, cur, limit) && Handled(re, root, cur, us, out, limit')
    ensures Handled(re, root, v, ts + us, out, First(limit, limit'))
    ensures HasMarker(cur) ==> HasMarker(out)
  {
    if HasMarker(cur) {
      MarkerStays(re, root, cur, us, out, limit');
    }
    MaskedTrans(v, cur, out);
    forall path, n: nat | MarksAny(re, root, v, ts + us, path, n)
      ensures Hidden(out, path)
    {
      CoveredTwice(re, root, v, ts, cur, us, out, path, n);
    }
    if limit.Unlimited? && limit'.Unlimited? {
      forall path | At(out, path) == Some(MARK) && At(v, path) != Some(MARK)
        ensures exists n :: MarksAny(re, root, v, ts + us, path, n)
      {
        JustifiedTwice(re, root, v, ts, cur, us, out, path);
      }
    }
  }

  lemma CoveredTwice(re: Regex, root: Schema, v: Json, ts: set<Schema>, cur: Json, us: set<Schema>, out: Json, path: seq<Key>, n: nat)
    requires Masked(v, cur) && Masked(cur, out) && Covers(re, root, v, ts, cur) && Covers(re, root, cur, us, out)
    requires MarksAny(re, root, v, ts + us, path, n)
    ensures Hidden(out, path)
  {
    if Hidden(cur, path) {
      HiddenStays(cur, out, path);
    } else {
      assert !MarksAny(re, root, v, ts, path, n);
      assert MarksAny(re, root, v, us, path, n);
      MarksKept(re, root, v, cur, us, path, n);
    }
  }

  lemma JustifiedTwice(re: Regex, root: Schema, v: Json, ts: set<Schema>, cur: Json, us: set<Schema>, out: Json, path: seq<Key>)
    requires Masked(v, cur) && Justified(re, root, v, ts, cur) && Justified(re, root, cur, us, out)
    requires At(out, path) == Some(MARK) && At(v, path) != Some(MARK)
    ensures exists n :: MarksAny(re, root, v, ts + us, path, n)
  {
    if At(cur, path) == Some(MARK) {
      var n: nat :| MarksAny(re, root, v, ts, path, n);
      assert MarksAny(re, root, v, ts + us, path, n);
    } else {
      var n: nat :| MarksAny(re, root, cur, us, path, n);
      MarksReflected(re, root, v, cur, us, path, n);
      assert MarksAny(re, root, v, ts + us, path, n);
    }
  }

  /** All children of `cur` have been handled, giving `out`. */
  ghost predicate ChildrenHandled(re: Regex, root: Schema, s: Schema, cur: Json, out: Json, limit: Limit) {
    && cur != MARK && out != MARK && Masked(cur, out)
    && forall k :: Child(cur, k).Some? ==>
         Child(out, k).Some? && Handled(re, root, Child(cur, k).value, OnChild(re, s, k), Child(out, k).value, limit)
  }

  lemma ChildrenCover(re: Regex, root: Schema, s: Schema, cur: Json, out: Json, limit: Limit, path: seq<Key>, n: nat)
    requires ChildrenHandled(re, root, s, cur, out, limit)
    requires path != [] && Child(cur, path[0]).Some?
    requires MarksAny(re, root, Child(cur, path[0]).value, OnChild(re, s, path[0]), path[1..], n)
    ensures Hidden(out, path)
  {
  }

  lemma ChildrenJustify(re: Regex, root: Schema, s: Schema, cur: Json, out: Json, path: seq<Key>)
    requires ChildrenHandled(re, root, s, cur, out, Unlimited)
    requires At(out, path) == Some(MARK) && At(cur, path) != Some(MARK)
    ensures exists n :: Marks(re, root, cur, s, path, n)
  {
    var k := path[0];
    MaskedChild(cur, out, k);
    var child, child' := Child(cur, k).value, Child(out, k).value;
    assert Handled(re, root, child, OnChild(re, s, k), child', Unlimited);
    assert At(child', path[1..]) == Some(MARK) && At(child, path[1..]) != Some(MARK);
    var n: nat :| MarksAny(re, root, child, OnChild(re, s, k), path[1..], n);
    assert Marks(re, root, cur, s, path, n + 1);
  }

  lemma SchemaCovers(re: Regex, root: Schema, s: Schema, v: Json, cur: Json, limit: Limit, out: Json, limit': Limit, path: seq<Key>, n: nat)
    requires !WriteOnly(s) && Marks(re, root, v, s, path, n)
    requires Handled(re, root, v, InPlace(s, root, v), cur, limit)
    requires ChildrenHandled(re, root, s, cur, out, limit')
    ensures Hidden(out, path)
  {
    if Hidden(cur, path) {
      HiddenStays(cur, out, path);
    } else {
      assert !MarksAny(re, root, v, InPlace(s, root, v), path, n - 1);
      MaskedChild(v, cur, path[0]);
      MarksKept(re, root, Child(v, path[0]).value, Child(cur, path[0]).value, OnChild(re, s, path[0]), path[1..], n - 1);
      ChildrenCover(re, root, s, cur, out, limit', path, n - 1);
    }
  }

  lemma SchemaJustifies(re: Regex, root: Schema, s: Schema, v: Json, cur: Json, out: Json, path: seq<Key>)
    requires Handled(re, root, v, InPlace(s, root, v), cur, Unlimited)
    requires ChildrenHandled(re, root, s, cur, out, Unlimited)
    requires At(out, path) == Some(MARK) && At(v, path) != Some(MARK)
    ensures exists n :: Marks(re, root, v, s, path, n)
  {
    if At(cur, path) == Some(MARK) {
      var n: nat :| MarksAny(re, root, v, InPlace(s, root, v), path, n);
      assert Marks(re, root, v, s, path, n + 1);
    } else {
      ChildrenJustify(re, root, s, cur, out, path);
      var n: nat :| Marks(re, root, cur, s, path, n);
      MarkReflected(re, root, v, cur, s, path, n);
    }
  }

  /** In-place schemas and then the children: together that is the schema itself. */
  lemma SchemaHandled(re: Regex, root: Schema, s: Schema, v: Json, cur: Json, limit: Limit, out: Json, limit': Limit)
    requires !WriteOnly(s)
    requires Handled(re, root, v, InPlace(s, root, v), cur, limit)
    requires ChildrenHandled(re, root, s, cur, out, limit')
    ensures Handled(re, root, v, {s}, out, First(limit, limit'))
  {
    MaskedTrans(v, cur, out);
    forall path, n: nat | MarksAny(re, root, v, {s}, path, n)
      ensures Hidden(out, path)
    {
      SchemaCovers(re, root, s, v, cur, limit, out, limit', path, n);
    }
    if limit.Unlimited? && limit'.Unlimited? {
      forall path | At(out, path) == Some(MARK) && At(v, path) != Some(MARK)
        ensures exists n :: MarksAny(re, root, v, {s}, path, n)
      {
        SchemaJustifies(re, root, s, v, cur, out, path);
        var n: nat :| Marks(re, root, v, s, path, n);
        assert MarksAny(re, root, v, {s}, path, n);
      }
    }
  }

  lemma SchemaReplaces(re: Regex, root: Schema, s: Schema, v: Json, limit: Limit)
    requires Handled(re, root, v, InPlace(s, root, v), MARK, limit)
    ensures Handled(re, root, v, {s}, MARK, limit)
  {
    if limit.Unlimited? && v != MARK {
      assert At(MARK, []) == Some(MARK);
      var n: nat :| MarksAny(re, root, v, InPlace(s, root, v), [], n);
      assert Marks(re, root, v, s, [], n + 1);
      assert MarksAny(re, root, v, {s}, [], n + 1);
    }
  }

  lemma HandledAlready(re: Regex, root: Schema, ts: set<Schema>)
    ensures Handled(re, root, MARK, ts, MARK, Unlimited)
  {
  }

  lemma HandledWriteOnly(re: Regex, root: Schema, v: Json, s: Schema)
    requires WriteOnly(s)
    ensures Handled(re, root, v, {s}, MARK, Unlimited)
  {
    assert Marks(re, root, v, s, [], 0);
    assert MarksAny(re, root, v, {s}, [], 0);
  }

  lemma HandledShape(re: Regex, root: Schema, v: Json, ts: set<Schema>, out: Json, limit: Limit)
    requires Handled(re, root, v, ts, out, limit) && out != MARK
    ensures v.Obj? <==> out.Obj?
    ensures v.Obj? ==> v.fields.Keys == out.fields.Keys
  {
  }

  /** A value without children is handled once the in-place schemas are. */
  lemma ScalarChildren(re: Regex, root: Schema, s: Schema, v: Json)
    requires !v.Obj? && !v.Arr? && v != MARK
    ensures ChildrenHandled(re, root, s, v, v, Unlimited)
  {
  }

  // ----- the traversal

  method Redact(re: Regex, root: Schema, v: Json, s: Option<Schema>, depth: nat, budget: nat)
    returns (out: Json, changed: bool, left: nat, ghost limit: Limit)
    ensures Handled(re, root, v, Maybe(s), out, limit)
    ensures Paid(budget, left, Work(re, root, s, v, depth), limit) && left <= budget && (budget > 0 ==> left < budget)
    ensures if changed then HasMarker(out) else out == v
    ensures s.None? && budget > 0 ==> out == v && !changed && limit.Unlimited?
    decreases budget, 4
  {
    hide Handled, ChildrenHandled, InPlaceWork, ChildWork;
    assert At(MARK, []) == Some(MARK);
    if budget == 0 {
      HandledByGivingUp(re, root, v, Maybe(s), BudgetSpent);
      return MARK, true, 0, BudgetSpent;
    }
    left := budget - 1;
    if s.None? {
      HandledNothing(re, root, v);
      return v, false, left, Unlimited;
    }
    if v == MARK {
      HandledAlready(re, root, Maybe(s));
      return v, true, left, Unlimited;
    }
    if WriteOnly(s.value) {
      HandledWriteOnly(re, root, v, s.value);
      return MARK, true, left, Unlimited;
    }
    if depth > MAX_DEPTH {
      HandledByGivingUp(re, root, v, Maybe(s), Unclassifiable);
      return MARK, true, left, Unclassifiable;
    }
    var cur;
    cur, changed, left, limit := RedactInPlace(re, root, v, s.value, depth, left);
    if cur == MARK {
      SchemaReplaces(re, root, s.value, v, limit);
      return cur, true, left, limit;
    }
    HandledMasked(re, root, v, InPlace(s.value, root, v), cur, limit);
    ChildLess(re, root, s.value, v, cur, depth);
    var below;
    ghost var limit';
    out, below, left, limit' := RedactChildren(re, root, cur, s.value, depth, left);
    if out == MARK && !limit'.Unlimited? {
      HandledByGivingUp(re, root, v, Maybe(s), First(limit, limit'));
    } else {
      SchemaHandled(re, root, s.value, v, cur, limit, out, limit');
    }
    changed, limit := changed || below, First(limit, limit');
  }

  method RedactChildren(re: Regex, root: Schema, v: Json, s: Schema, depth: nat, budget: nat)
    returns (out: Json, changed: bool, left: nat, ghost limit: Limit)
    requires depth <= MAX_DEPTH && v != MARK
    ensures (out == MARK && !limit.Unlimited? && changed) || ChildrenHandled(re, root, s, v, out, limit)
    ensures Paid(budget, left, ChildWork(re, root, s, v, depth), limit) && left <= budget
    ensures if changed then HasMarker(out) else out == v
    decreases budget, 7
  {
    hide ChildrenHandled;
    match v {
      case Obj(_) => out, changed, left, limit := RedactFields(re, root, v, s, depth, budget);
      case Arr(_) => out, changed, left, limit := RedactItems(re, root, v, s, depth, budget);
      case _ =>
        ScalarChildren(re, root, s, v);
        out, changed, left, limit := v, false, budget, Unlimited;
    }
  }

  /** `$ref`, then allOf, anyOf and oneOf, then both conditional outcomes, then the
      dependent schemas of an object: each sees the value the previous one left. */
  method RedactInPlace(re: Regex, root: Schema, v: Json, s: Schema, depth: nat, budget: nat)
    returns (out: Json, changed: bool, left: nat, ghost limit: Limit)
    requires depth <= MAX_DEPTH
    ensures Handled(re, root, v, InPlace(s, root, v), out, limit)
    ensures Paid(budget, left, InPlaceWork(re, root, s, v, depth), limit) && left <= budget
    ensures if changed then HasMarker(out) else out == v
    decreases budget, 6
  {
    hide *;
    ghost var done, all := Maybe(RefTarget(s, root)), InPlace(s, root, v);
    ghost var work, total, middle, l := RefWork(re, root, s, v, depth), InPlaceWork(re, root, s, v, depth), budget, Unlimited;
    var next, c;
    InPlaceParts(re, root, s, v, depth);
    out, changed, left, limit := RedactRef(re, root, v, s, depth, budget);
    if out == MARK {
      PaidMore(budget, left, work, total, limit);
      HandledMarker(re, root, v, done, all, limit);
      return;
    }
    HandledMasked(re, root, v, done, out, limit);
    CombinedLess(re, root, s, v, out, depth);
    ghost var more := CombinedWork(re, root, s, out, depth);
    middle := left;
    next, c, left, l := RedactCombined(re, root, out, s, depth, left);
    PaidThen(budget, middle, left, work, more, work + CombinedWork(re, root, s, v, depth), limit, l);
    work := work + CombinedWork(re, root, s, v, depth);
    HandledTwice(re, root, v, done, out, limit, Combined(s), next, l);
    out, changed, limit, done := next, changed || c, First(limit, l), done + Combined(s);
    if out == MARK {
      PaidMore(budget, left, work, total, limit);
      HandledMarker(re, root, v, done, all, limit);
      return;
    }
    HandledMasked(re, root, v, done, out, limit);
    ConditionalLess(re, root, s, v, out, depth);
    more, middle := ConditionalWork(re, root, s, out, depth), left;
    next, c, left, l := RedactConditional(re, root, out, s, depth, left);
    PaidThen(budget, middle, left, work, more, work + ConditionalWork(re, root, s, v, depth), limit, l);
    work := work + ConditionalWork(re, root, s, v, depth);
    HandledTwice(re, root, v, done, out, limit, Conditional(s), next, l);
    out, changed, limit, done := next, changed || c, First(limit, l), done + Conditional(s);
    PaidMore(budget, left, work, total, limit);
    if out == MARK {
      HandledMarker(re, root, v, done, all, limit);
      return;
    }
    HandledShape(re, root, v, done, out, limit);
    if out.Obj? {
      HandledMasked(re, root, v, done, out, limit);
      DependentLess(re, root, Table(s, "dependentSchemas"), v, out, depth);
      DependentParts(s, v, out);
      more, middle := DependentWork(re, root, Table(s, "dependentSchemas"), out, depth), left;
      next, c, left, l := RedactDependents(re, root, out, Table(s, "dependentSchemas"), depth, left);
      PaidThen(budget, middle, left, work, more, total, limit, l);
      HandledTwice(re, root, v, done, out, limit, Dependent(s, v), next, l);
      out, changed, limit := next, changed || c, First(limit, l);
    }
  }

  lemma InPlaceParts(re: Regex, root: Schema, s: Schema, v: Json, depth: nat)
    requires depth <= MAX_DEPTH
    ensures InPlace(s, root, v) == Maybe(RefTarget(s, root)) + Combined(s) + Conditional(s) + Dependent(s, v)
    ensures !v.Obj? ==> InPlace(s, root, v) == Maybe(RefTarget(s, root)) + Combined(s) + Conditional(s)
    ensures InPlaceWork(re, root, s, v, depth) ==
            RefWork(re, root, s, v, depth) + CombinedWork(re, root, s, v, depth) + ConditionalWork(re, root, s, v, depth) +
            DependentWork(re, root, Table(s, "dependentSchemas"), v, depth)
  {
    hide RefWork, CombinedWork, ConditionalWork, DependentWork, Combined, Conditional;
  }

  lemma DependentParts(s: Schema, v: Json, out: Json)
    requires v.Obj? && out.Obj? && v.fields.Keys == out.fields.Keys
    ensures Dependent(s, v) == DependentOn(Table(s, "dependentSchemas"), out.fields.Keys)
  {
  }

  method RedactRef(re: Regex, root: Schema, v: Json, s: Schema, depth: nat, budget: nat)
    returns (out: Json, changed: bool, left: nat, ghost limit: Limit)
    requires depth <= MAX_DEPTH
    ensures Handled(re, root, v, Maybe(RefTarget(s, root)), out, limit)
    ensures Paid(budget, left, RefWork(re, root, s, v, depth), limit) && left <= budget
    ensures if changed then HasMarker(out) else out == v
    decreases budget, 2
  {
    hide Handled, Work;
    assert At(MARK, []) == Some(MARK);
    out, changed, left, limit := v, false, budget, Unlimited;
    HandledNothing(re, root, v);
    if LocalRef(s) {
      var parts, node := RefParts(s), Some(Obj(root));
      for i := 0 to |parts|
        invariant left == budget - i && left >= 0
        invariant Walk(node, parts[i..]) == Walk(Some(Obj(root)), parts)
      {
        if left == 0 {
          HandledByGivingUp(re, root, v, Maybe(RefTarget(s, root)), BudgetSpent);
          return MARK, true, 0, BudgetSpent;
        }
        left := left - 1;
        node := if AsSchema(node).Some? then Get(AsSchema(node).value, Unescape(parts[i])) else None;
        assert parts[i..][1..] == parts[i + 1..];
      }
      if AsSchema(node).Some? {
        out, changed, left, limit := Redact(re, root, v, AsSchema(node), depth + 1, left);
      }
    }
  }

  lemma {:induction false} BranchPrefix(re: Regex, root: Schema, branches: seq<Json>, n: nat, v: Json, depth: nat)
    requires n <= |branches| && depth <= MAX_DEPTH
    ensures BranchWork(re, root, branches[..n], v, depth) <= BranchWork(re, root, branches, v, depth)
  {
    if n == |branches| {
      assert branches[..n] == branches;
    } else {
      var m := |branches| - 1;
      BranchPrefix(re, root, branches[..m], n, v, depth);
      assert branches[..m][..n] == branches[..n];
    }
  }

  lemma BranchSnoc(re: Regex, root: Schema, branches: seq<Json>, n: nat, v: Json, depth: nat)
    requires n < |branches| && depth <= MAX_DEPTH
    ensures BranchWork(re, root, branches[..n + 1], v, depth) ==
            BranchWork(re, root, branches[..n], v, depth) + 1 + MaybeWork(re, root, AsSchema(Some(branches[n])), v, depth)
  {
    assert branches[..n + 1][..n] == branches[..n];
  }

  method RedactBranches(re: Regex, root: Schema, v: Json, branches: seq<Json>, depth: nat, budget: nat)
    returns (out: Json, changed: bool, left: nat, ghost limit: Limit)
    requires depth <= MAX_DEPTH
    ensures Handled(re, root, v, Branches(branches), out, limit)
    ensures Paid(budget, left, BranchWork(re, root, branches, v, depth), limit) && left <= budget
    ensures if changed then HasMarker(out) else out == v
    decreases budget, 1
  {
    hide Handled, HasMarker, Masked, Work, BranchWork;
    assert At(MARK, []) == Some(MARK);
    MarkIsMarked();
    out, changed, left, limit := v, false, budget, Unlimited;
    HandledNothing(re, root, v);
    assert Branches(branches[..0]) == {};
    for i := 0 to |branches|
      invariant Paid(budget, left, BranchWork(re, root, branches[..i], v, depth), limit)
      invariant Handled(re, root, v, Branches(branches[..i]), out, limit)
      invariant if changed then HasMarker(out) else out == v
    {
      BranchPrefix(re, root, branches, i, v, depth);
      if left == 0 {
        HandledByGivingUp(re, root, v, Branches(branches), BudgetSpent);
        return MARK, true, 0, BudgetSpent;
      }
      left := left - 1;
      BranchSnoc(re, root, branches, i, v, depth);
      assert branches[..i + 1] == branches[..i] + [branches[i]];
      if branches[i].Obj? {
        var next, c;
        ghost var l;
        HandledMasked(re, root, v, Branches(branches[..i]), out, limit);
        WorkLess(re, root, Some(branches[i].fields), v, out, depth + 1);
        next, c, left, l := Redact(re, root, out, Some(branches[i].fields), depth + 1, left);
        HandledTwice(re, root, v, Branches(branches[..i]), out, limit, {branches[i].fields}, next, l);
        out, changed, limit := next, changed || c, First(limit, l);
        assert Branches(branches[..i + 1]) == Branches(branches[..i]) + {branches[i].fields};
        if out == MARK {
          BranchPrefix(re, root, branches, i + 1, v, depth);
          HandledMarker(re, root, v, Branches(branches[..i + 1]), Branches(branches), limit);
          return;
        }
      } else {
        assert Branches(branches[..i + 1]) == Branches(branches[..i]);
      }
    }
    assert branches[..|branches|] == branches;
  }

  lemma MarkIsMarked()
    ensures HasMarker(MARK)
  {
    assert At(MARK, []) == Some(MARK);
  }

  function Combiner(i: nat): string
    requires i < 3
  {
    if i == 0 then "allOf" else if i == 1 then "anyOf" else "oneOf"
  }

  function CombinedUpTo(s: Schema, n: nat): set<Schema> {
    (if n > 0 then Branches(List(s, "allOf")) else {}) + (if n > 1 then Branches(List(s, "anyOf")) else {}) +
    (if n > 2 then Branches(List(s, "oneOf")) else {})
  }

  ghost function CombinedWorkUpTo(re: Regex, root: Schema, s: Schema, v: Json, depth: nat, n: nat): nat
    requires depth <= MAX_DEPTH
  {
    (if n > 0 then BranchWork(re, root, List(s, "allOf"), v, depth) else 0) +
    (if n > 1 then BranchWork(re, root, List(s, "anyOf"), v, depth) else 0) +
    (if n > 2 then BranchWork(re, root, List(s, "oneOf"), v, depth) else 0)
  }

  lemma CombinedSets(s: Schema, n: nat)
    requires n <= 3
    ensures CombinedUpTo(s, 0) == {} && CombinedUpTo(s, n) <= CombinedUpTo(s, 3) == Combined(s)
    ensures n > 0 ==> CombinedUpTo(s, n) == CombinedUpTo(s, n - 1) + Branches(List(s, Combiner(n - 1)))
  {
    hide Branches, List;
  }

  lemma CombinedSteps(re: Regex, root: Schema, s: Schema, v: Json, depth: nat, n: nat)
    requires n <= 3 && depth <= MAX_DEPTH
    ensures CombinedWorkUpTo(re, root, s, v, depth, 0) == 0
    ensures CombinedWorkUpTo(re, root, s, v, depth, n) <= CombinedWorkUpTo(re, root, s, v, depth, 3) == CombinedWork(re, root, s, v, depth)
    ensures n > 0 ==> CombinedWorkUpTo(re, root, s, v, depth, n) ==
                      CombinedWorkUpTo(re, root, s, v, depth, n - 1) + BranchWork(re, root, List(s, Combiner(n - 1)), v, depth)
  {
    hide BranchWork, List;
  }

  method RedactCombined(re: Regex, root: Schema, v: Json, s: Schema, depth: nat, budget: nat)
    returns (out: Json, changed: bool, left: nat, ghost limit: Limit)
    requires depth <= MAX_DEPTH
    ensures Handled(re, root, v, Combined(s), out, limit)
    ensures Paid(budget, left, CombinedWork(re, root, s, v, depth), limit) && left <= budget
    ensures if changed then HasMarker(out) else out == v
    decreases budget, 2
  {
    hide *;
    out, changed, left, limit := v, false, budget, Unlimited;
    HandledNothing(re, root, v);
    PaidNothing(budget);
    CombinedSteps(re, root, s, v, depth, 0);
    CombinedSets(s, 0);
    for i := 0 to 3
      invariant Paid(budget, left, CombinedWorkUpTo(re, root, s, v, depth, i), limit) && left <= budget
      invariant Handled(re, root, v, CombinedUpTo(s, i), out, limit)
      invariant if changed then HasMarker(out) else out == v
    {
      var next, c;
      ghost var l, middle := Unlimited, left;
      CombinedSteps(re, root, s, v, depth, i + 1);
      CombinedSets(s, i + 1);
      HandledMasked(re, root, v, CombinedUpTo(s, i), out, limit);
      BranchLess(re, root, List(s, Combiner(i)), v, out, depth);
      next, c, left, l := RedactBranches(re, root, out, List(s, Combiner(i)), depth, left);
      PaidThen(budget, middle, left, CombinedWorkUpTo(re, root, s, v, depth, i), BranchWork(re, root, List(s, Combiner(i)), out, depth),
        CombinedWorkUpTo(re, root, s, v, depth, i + 1), limit, l);
      HandledTwice(re, root, v, CombinedUpTo(s, i), out, limit, Branches(List(s, Combiner(i))), next, l);
      out, changed, limit := next, changed || c, First(limit, l);
      if out == MARK {
        PaidMore(budget, left, CombinedWorkUpTo(re, root, s, v, depth, i + 1), CombinedWork(re, root, s, v, depth), limit);
        HandledMarker(re, root, v, CombinedUpTo(s, i + 1), Combined(s), limit);
        return;
      }
    }
  }

  lemma ConditionalParts(re: Regex, root: Schema, s: Schema, v: Json, depth: nat)
    requires depth <= MAX_DEPTH
    ensures Conditional(s) == Maybe(Sub(s, "then")) + Maybe(Sub(s, "else")) && Maybe(None) == {}
    ensures Sub(s, "else").None? ==> Conditional(s) == Maybe(Sub(s, "then"))
    ensures ConditionalWork(re, root, s, v, depth) ==
            (if Sub(s, "then").Some? then Work(re, root, Sub(s, "then"), v, depth + 1) else 0) +
            (if Sub(s, "else").Some? then Work(re, root, Sub(s, "else"), v, depth + 1) else 0)
  {
    hide Work, Sub;
  }

  method RedactConditional(re: Regex, root: Schema, v: Json, s: Schema, depth: nat, budget: nat)
    returns (out: Json, changed: bool, left: nat, ghost limit: Limit)
    requires depth <= MAX_DEPTH
    ensures Handled(re, root, v, Conditional(s), out, limit)
    ensures Paid(budget, left, ConditionalWork(re, root, s, v, depth), limit) && left <= budget
    ensures if changed then HasMarker(out) else out == v
    decreases budget, 5
  {
    hide *;
    ConditionalParts(re, root, s, v, depth);
    ghost var work, total := 0, ConditionalWork(re, root, s, v, depth);
    var then_, else_ := Sub(s, "then"), Sub(s, "else");
    out, changed, left, limit := v, false, budget, Unlimited;
    HandledNothing(re, root, v);
    PaidNothing(budget);
    if then_.Some? {
      work := Work(re, root, then_, v, depth + 1);
      out, changed, left, limit := Redact(re, root, v, then_, depth + 1, left);
      if out == MARK {
        PaidMore(budget, left, work, total, limit);
        HandledMarker(re, root, v, Maybe(then_), Conditional(s), limit);
        return;
      }
    }
    if else_.Some? {
      var next, c;
      ghost var l, middle, more := Unlimited, left, Work(re, root, else_, out, depth + 1);
      HandledMasked(re, root, v, Maybe(then_), out, limit);
      WorkLess(re, root, else_, v, out, depth + 1);
      next, c, left, l := Redact(re, root, out, else_, depth + 1, left);
      PaidThen(budget, middle, left, work, more, total, limit, l);
      HandledTwice(re, root, v, Maybe(then_), out, limit, Maybe(else_), next, l);
      out, changed, limit := next, changed || c, First(limit, l);
    }
  }

  lemma DependentStep(table: map<string, Json>, present: set<string>, todo: set<string>, name: string)
    requires name in todo && name in table
    ensures name in present && table[name].Obj? ==>
              DependentOn(table, present - (todo - {name})) == DependentOn(table, present - todo) + {table[name].fields}
    ensures !(name in present && table[name].Obj?) ==>
              DependentOn(table, present - (todo - {name})) == DependentOn(table, present - todo)
    ensures DependentOn(table, present - (todo - {name})) <= DependentOn(table, present)
  {
  }

  lemma DependentEnds(re: Regex, root: Schema, table: map<string, Json>, v: Json, depth: nat)
    requires v.Obj? && depth <= MAX_DEPTH
    ensures DependentOn(table, v.fields.Keys - table.Keys) == {} && DependentOn(table, v.fields.Keys - {}) == DependentOn(table, v.fields.Keys)
    ensures DependentWork(re, root, table, v, depth) == SumSet(table.Keys, DependentCost(re, root, table, v, depth))
  {
    hide DependentCost, SumSet;
    assert v.fields.Keys - {} == v.fields.Keys;
  }

  method RedactDependents(re: Regex, root: Schema, v: Json, table: map<string, Json>, depth: nat, budget: nat)
    returns (out: Json, changed: bool, left: nat, ghost limit: Limit)
    requires v.Obj? && depth <= MAX_DEPTH
    ensures Handled(re, root, v, DependentOn(table, v.fields.Keys), out, limit)
    ensures Paid(budget, left, DependentWork(re, root, table, v, depth), limit) && left <= budget
    ensures if changed then HasMarker(out) else out == v
    decreases budget, 2
  {
    hide *;
    MarkIsMarked();
    ghost var present, cost, total := v.fields.Keys, DependentCost(re, root, table, v, depth), DependentWork(re, root, table, v, depth);
    var todo := table.Keys;
    ghost var seen: set<string> := {};
    out, changed, left, limit := v, false, budget, Unlimited;
    HandledNothing(re, root, v);
    NothingPaid(budget, cost);
    DependentEnds(re, root, table, v, depth);
    while todo != {}
      invariant todo <= table.Keys && seen !! todo && seen + todo == table.Keys
      invariant Paid(budget, left, SumSet(seen, cost), limit) && left <= budget
      invariant out.Obj? && out.fields.Keys == present
      invariant Handled(re, root, v, DependentOn(table, present - todo), out, limit)
      invariant if changed then HasMarker(out) else out == v
      decreases todo
    {
      if left == 0 {
        SumSubset(seen, table.Keys, cost);
        PaidOut(budget, SumSet(seen, cost), total, limit);
        HandledByGivingUp(re, root, v, DependentOn(table, present), BudgetSpent);
        return MARK, true, 0, BudgetSpent;
      }
      var name :| name in todo;
      ghost var before, done := SumSet(seen, cost), DependentOn(table, present - todo);
      SumAdd(seen, name, cost);
      CostOfDependent(re, root, table, v, depth, name);
      DependentStep(table, present, todo, name);
      left := left - 1;
      todo, seen := todo - {name}, seen + {name};
      if name in out.fields && table[name].Obj? {
        var next, c;
        ghost var l, middle, used := Unlimited, left, Work(re, root, Some(table[name].fields), out, depth + 1);
        HandledMasked(re, root, v, done, out, limit);
        WorkLess(re, root, Some(table[name].fields), v, out, depth + 1);
        next, c, left, l := Redact(re, root, out, Some(table[name].fields), depth + 1, left);
        MaybeOne(table[name].fields);
        PaidStep(budget, middle, left, before, used, SumSet(seen, cost), limit, l);
        HandledTwice(re, root, v, done, out, limit, {table[name].fields}, next, l);
        out, changed, limit := next, changed || c, First(limit, l);
        if out == MARK {
          SumSubset(seen, table.Keys, cost);
          PaidMore(budget, left, SumSet(seen, cost), total, limit);
          HandledMarker(re, root, v, DependentOn(table, present - todo), DependentOn(table, present), limit);
          return;
        }
        HandledShape(re, root, v, DependentOn(table, present - todo), out, limit);
      } else {
        PaidUnit(budget, left + 1, before, SumSet(seen, cost), limit);
      }
    }
    assert seen == table.Keys;
  }

  lemma MaybeOne(s: Schema)
    ensures Maybe(Some(s)) == {s}
  {
  }

  lemma NothingPaid(budget: nat, cost: string -> nat)
    ensures Paid(budget, budget, SumSet({}, cost), Unlimited)
  {
  }

  lemma CostOfDependent(re: Regex, root: Schema, table: map<string, Json>, v: Json, depth: nat, name: string)
    requires name in table && depth <= MAX_DEPTH
    ensures DependentCost(re, root, table, v, depth)(name) ==
            1 + if v.Obj? && name in v.fields && table[name].Obj? then Work(re, root, Some(table[name].fields), v, depth + 1) else 0
  {
    hide Work;
  }

  // ----- fields and items

  /** Every field of an object: its property, the patterns that match its name and, when
      nothing claims it, the fallback schemas. */
  method RedactFields(re: Regex, root: Schema, v: Json, s: Schema, depth: nat, budget: nat)
    returns (out: Json, changed: bool, left: nat, ghost limit: Limit)
    requires v.Obj? && depth <= MAX_DEPTH
    ensures (out == MARK && !limit.Unlimited? && changed) || ChildrenHandled(re, root, s, v, out, limit)
    ensures Paid(budget, left, ChildWork(re, root, s, v, depth), limit) && left <= budget
    ensures if changed then HasMarker(out) else out == v
    decreases budget, 6
  {
    hide *;
    MarkIsMarked();
    NoFields(re, root, s, v.fields);
    ghost var cost, seen: set<string>, total := FieldCost(re, root, s, v.fields, depth), {}, ChildWork(re, root, s, v, depth);
    FieldTotal(re, root, s, v, depth);
    NothingPaid(budget, cost);
    var todo, fields := v.fields.Keys, v.fields;
    changed, left, limit := false, budget, Unlimited;
    while todo != {}
      invariant todo <= v.fields.Keys == fields.Keys && seen !! todo && seen + todo == v.fields.Keys
      invariant Paid(budget, left, SumSet(seen, cost), limit) && left <= budget
      invariant forall k :: k in todo ==> fields[k] == v.fields[k]
      invariant FieldsHandled(re, root, s, v.fields, seen, fields, limit)
      invariant if changed then HasMarker(Obj(fields)) else fields == v.fields
      decreases todo
    {
      var name :| name in todo;
      var field, c, stop;
      ghost var l, middle, before := Unlimited, left, SumSet(seen, cost);
      field, c, left, l, stop := RedactField(re, root, v.fields[name], s, name, depth, left);
      SumAdd(seen, name, cost);
      CostOfField(re, root, s, v.fields, depth, name);
      PaidThen(budget, middle, left, before, cost(name), SumSet(seen + {name}, cost), limit, l);
      if stop {
        SumSubset(seen + {name}, v.fields.Keys, cost);
        PaidMore(budget, left, SumSet(seen + {name}, cost), total, First(limit, l));
        NotUnlimited(limit, l);
        return MARK, true, left, First(limit, l);
      }
      if changed || c {
        MarkerInField(re, root, fields, name, OnField(re, s, name), field, l);
      }
      FieldsGrow(re, root, s, v.fields, seen, fields, limit, name, field, l);
      assert !changed && !c ==> fields[name := field] == fields;
      todo, seen, fields := todo - {name}, seen + {name}, fields[name := field];
      changed, limit := changed || c, First(limit, l);
    }
    assert seen == v.fields.Keys;
    out := Obj(fields);
    FieldsAreChildren(re, root, s, v, fields, limit);
  }

  lemma FieldTotal(re: Regex, root: Schema, s: Schema, v: Json, depth: nat)
    requires v.Obj? && depth <= MAX_DEPTH
    ensures ChildWork(re, root, s, v, depth) == SumSet(v.fields.Keys, FieldCost(re, root, s, v.fields, depth))
  {
    hide FieldCost, SumSet;
  }

  lemma NotUnlimited(limit: Limit, limit': Limit)
    requires !limit'.Unlimited?
    ensures !First(limit, limit').Unlimited?
  {
  }

  lemma NoFields(re: Regex, root: Schema, s: Schema, fields: map<string, Json>)
    ensures FieldsHandled(re, root, s, fields, {}, fields, Unlimited)
  {
  }

  lemma CostOfField(re: Regex, root: Schema, s: Schema, fields: map<string, Json>, depth: nat, name: string)
    requires name in fields && depth <= MAX_DEPTH
    ensures FieldCost(re, root, s, fields, depth)(name) == FieldWork(re, root, s, name, fields[name], depth)
  {
    hide FieldWork;
  }

  ghost predicate FieldsHandled(
    re: Regex, root: Schema, s: Schema, from: map<string, Json>, names: set<string>, to: map<string, Json>, limit: Limit)
  {
    && from.Keys == to.Keys && names <= from.Keys
    && forall k :: k in names ==> Handled(re, root, from[k], OnField(re, s, k), to[k], limit)
  }

  lemma HandledWeaker(re: Regex, root: Schema, v: Json, ts: set<Schema>, out: Json, limit: Limit, limit': Limit)
    requires Handled(re, root, v, ts, out, limit) || Handled(re, root, v, ts, out, limit')
    ensures Handled(re, root, v, ts, out, First(limit, limit'))
  {
  }

  lemma FieldsGrow(
    re: Regex, root: Schema, s: Schema, from: map<string, Json>, names: set<string>, to: map<string, Json>, limit: Limit,
    name: string, field: Json, limit': Limit)
    requires FieldsHandled(re, root, s, from, names, to, limit) && name in from && name !in names
    requires Handled(re, root, from[name], OnField(re, s, name), field, limit')
    ensures FieldsHandled(re, root, s, from, names + {name}, to[name := field], First(limit, limit'))
  {
    hide Handled;
    assert At(MARK, []) == Some(MARK);
    forall k | k in names + {name}
      ensures Handled(re, root, from[k], OnField(re, s, k), to[name := field][k], First(limit, limit'))
    {
      HandledWeaker(re, root, from[k], OnField(re, s, k), to[name := field][k], limit, limit');
    }
  }

  lemma FieldsAreChildren(re: Regex, root: Schema, s: Schema, v: Json, fields: map<string, Json>, limit: Limit)
    requires v.Obj? && FieldsHandled(re, root, s, v.fields, v.fields.Keys, fields, limit)
    ensures ChildrenHandled(re, root, s, v, Obj(fields), limit)
  {
    forall k | k in v.fields
      ensures Masked(v.fields[k], fields[k])
    {
      assert Handled(re, root, v.fields[k], OnField(re, s, k), fields[k], limit);
    }
  }

  /** `stop` asks the caller to replace the whole object. */
  method RedactField(re: Regex, root: Schema, field: Json, s: Schema, name: string, depth: nat, budget: nat)
    returns (out: Json, changed: bool, left: nat, ghost limit: Limit, stop: bool)
    requires depth <= MAX_DEPTH
    ensures !stop ==> Handled(re, root, field, OnField(re, s, name), out, limit)
    ensures !stop ==> if changed then HasMarker(out) else out == field
    ensures stop ==> !limit.Unlimited?
    ensures Paid(budget, left, FieldWork(re, root, s, name, field, depth), limit) && left <= budget
    decreases budget, 5
  {
    hide Handled, HasMarker, Masked, Work, PatternWork, FallbackWork, DependentOn, Matched;
    var property, patterns := Sub(Table(s, "properties"), name), Table(s, "patternProperties");
    ghost var matching := DependentOn(patterns, Matching(re, s, name));
    out, changed, left, limit := Redact(re, root, field, property, depth + 1, budget);
    if left == 0 {
      return out, true, 0, BudgetSpent, true;
    }
    HandledMasked(re, root, field, Maybe(property), out, limit);
    PatternLess(re, root, patterns, name, field, out, depth);
    var next, c, matched;
    ghost var l;
    next, c, left, l, matched, stop := RedactPatterns(re, root, out, patterns, name, depth, left);
    if stop {
      limit := First(limit, l);
      return;
    }
    HandledTwice(re, root, field, Maybe(property), out, limit, matching, next, l);
    out, changed, limit := next, changed || c, First(limit, l);
    ghost var done := Maybe(property) + matching;
    if property.None? && !matched {
      HandledMasked(re, root, field, done, out, limit);
      FallbackLess(re, root, s, field, out, depth);
      next, c, left, l := RedactFallbacks(re, root, out, s, depth, left);
      HandledTwice(re, root, field, done, out, limit, Fallbacks(s), next, l);
      out, changed, limit, done := next, changed || c, First(limit, l), done + Fallbacks(s);
    }
    assert done == OnField(re, s, name);
  }

  lemma MatchedNone(re: Regex, patterns: map<string, Json>, name: string)
    ensures Matched(re, {}, name) == {} && DependentOn(patterns, {}) == {}
  {
  }

  lemma MatchedStep(re: Regex, patterns: map<string, Json>, tried: set<string>, pattern: string, name: string)
    requires pattern in patterns
    ensures re.matches(pattern, name) ==> Matched(re, tried + {pattern}, name) == Matched(re, tried, name) + {pattern}
    ensures !re.matches(pattern, name) ==> Matched(re, tried + {pattern}, name) == Matched(re, tried, name)
    ensures DependentOn(patterns, Matched(re, tried, name) + {pattern}) ==
            DependentOn(patterns, Matched(re, tried, name)) + Maybe(AsSchema(Some(patterns[pattern])))
  {
  }

  method RedactPatterns(re: Regex, root: Schema, v: Json, patterns: map<string, Json>, name: string, depth: nat, budget: nat)
    returns (out: Json, changed: bool, left: nat, ghost limit: Limit, matched: bool, stop: bool)
    requires depth <= MAX_DEPTH
    ensures !stop ==> Handled(re, root, v, DependentOn(patterns, Matched(re, patterns.Keys, name)), out, limit)
    ensures !stop ==> if changed then HasMarker(out) else out == v
    ensures !stop ==> (matched <==> Matched(re, patterns.Keys, name) != {})
    ensures stop ==> !limit.Unlimited?
    ensures Paid(budget, left, PatternWork(re, root, patterns, name, v, depth), limit) && left <= budget
    decreases budget, 3
  {
    hide *;
    ghost var cost, tried: set<string> := PatternCost(re, root, patterns, name, v, depth), {};
    ghost var total := PatternWork(re, root, patterns, name, v, depth);
    PatternTotal(re, root, patterns, name, v, depth);
    out, changed, left, limit := v, false, budget, Unlimited;
    HandledNothing(re, root, v);
    NothingPaid(budget, cost);
    MatchedNone(re, patterns, name);
    var todo := patterns.Keys;
    matched := false;
    while todo != {}
      invariant todo <= patterns.Keys && tried !! todo && tried + todo == patterns.Keys
      invariant Paid(budget, left, SumSet(tried, cost), limit) && left <= budget
      invariant Handled(re, root, v, DependentOn(patterns, Matched(re, tried, name)), out, limit)
      invariant matched <==> Matched(re, tried, name) != {}
      invariant if changed then HasMarker(out) else out == v
      decreases todo
    {
      if left == 0 {
        SumSubset(tried, patterns.Keys, cost);
        PaidOut(budget, SumSet(tried, cost), total, limit);
        return out, true, 0, BudgetSpent, matched, true;
      }
      var pattern :| pattern in todo;
      ghost var before, handled := SumSet(tried, cost), DependentOn(patterns, Matched(re, tried, name));
      SumAdd(tried, pattern, cost);
      CostOfPattern(re, root, patterns, name, v, depth, pattern);
      MatchedStep(re, patterns, tried, pattern, name);
      left := left - 1;
      todo, tried := todo - {pattern}, tried + {pattern};
      if !re.compiles(pattern) {
        SumSubset(tried, patterns.Keys, cost);
        PaidUnit(budget, left + 1, before, total, limit);
        PaidNoFurther(budget, left, total, limit);
        return out, true, left, First(limit, Unclassifiable), matched, true;
      }
      if re.matches(pattern, name) {
        matched := true;
        var child := AsSchema(Some(patterns[pattern]));
        var next, c;
        ghost var l, middle, used := Unlimited, left, Work(re, root, child, out, depth + 1);
        HandledMasked(re, root, v, handled, out, limit);
        WorkLess(re, root, child, v, out, depth + 1);
        next, c, left, l := Redact(re, root, out, child, depth + 1, left);
        PaidStep(budget, middle, left, before, used, SumSet(tried, cost), limit, l);
        HandledTwice(re, root, v, handled, out, limit, Maybe(child), next, l);
        out, changed, limit := next, changed || c, First(limit, l);
      } else {
        PaidUnit(budget, left + 1, before, SumSet(tried, cost), limit);
      }
    }
    assert tried == patterns.Keys;
    stop := false;
  }

  lemma PatternTotal(re: Regex, root: Schema, patterns: map<string, Json>, name: string, v: Json, depth: nat)
    requires depth <= MAX_DEPTH
    ensures PatternWork(re, root, patterns, name, v, depth) == SumSet(patterns.Keys, PatternCost(re, root, patterns, name, v, depth))
  {
    hide PatternCost, SumSet;
  }

  lemma PaidNoFurther(budget: nat, left: nat, work: nat, limit: Limit)
    requires Paid(budget, left, work, limit) && work >= WORK_BUDGET
    ensures Paid(budget, left, work, First(limit, Unclassifiable)) && !First(limit, Unclassifiable).Unlimited?
  {
  }

  lemma CostOfPattern(re: Regex, root: Schema, patterns: map<string, Json>, name: string, v: Json, depth: nat, pattern: string)
    requires pattern in patterns && depth <= MAX_DEPTH
    ensures PatternCost(re, root, patterns, name, v, depth)(pattern) ==
            1 + if !re.compiles(pattern) then WORK_BUDGET
                else if re.matches(pattern, name) then Work(re, root, AsSchema(Some(patterns[pattern])), v, depth + 1)
                else 0
  {
    hide Work;
  }

  method RedactFallbacks(re: Regex, root: Schema, v: Json, s: Schema, depth: nat, budget: nat)
    returns (out: Json, changed: bool, left: nat, ghost limit: Limit)
    requires depth <= MAX_DEPTH
    ensures Handled(re, root, v, Fallbacks(s), out, limit)
    ensures Paid(budget, left, FallbackWork(re, root, s, v, depth), limit)
    ensures if changed then HasMarker(out) else out == v
    decreases budget, 5
  {
    hide Handled, HasMarker, Masked, Work;
    out, changed, left, limit := Redact(re, root, v, Sub(s, "additionalProperties"), depth + 1, budget);
    var next, c;
    ghost var l;
    HandledMasked(re, root, v, Maybe(Sub(s, "additionalProperties")), out, limit);
    WorkLess(re, root, Sub(s, "unevaluatedProperties"), v, out, depth + 1);
    next, c, left, l := Redact(re, root, out, Sub(s, "unevaluatedProperties"), depth + 1, left);
    HandledTwice(re, root, v, Maybe(Sub(s, "additionalProperties")), out, limit, Maybe(Sub(s, "unevaluatedProperties")), next, l);
    out, changed, limit := next, changed || c, First(limit, l);
  }

  ghost predicate ItemsHandled(re: Regex, root: Schema, s: Schema, from: seq<Json>, n: nat, to: seq<Json>, limit: Limit) {
    && |from| == |to| && n <= |from|
    && forall i :: 0 <= i < n ==> Handled(re, root, from[i], Maybe(OnItem(s, i)), to[i], limit)
  }

  lemma ItemsGrow(re: Regex, root: Schema, s: Schema, from: seq<Json>, n: nat, to: seq<Json>, limit: Limit, item: Json, limit': Limit)
    requires ItemsHandled(re, root, s, from, n, to, limit) && n < |from|
    requires Handled(re, root, from[n], Maybe(OnItem(s, n)), item, limit')
    ensures ItemsHandled(re, root, s, from, n + 1, to[n := item], First(limit, limit'))
  {
    hide Handled;
    assert At(MARK, []) == Some(MARK);
    forall i | 0 <= i < n + 1
      ensures Handled(re, root, from[i], Maybe(OnItem(s, i)), to[n := item][i], First(limit, limit'))
    {
      HandledWeaker(re, root, from[i], Maybe(OnItem(s, i)), to[n := item][i], limit, limit');
    }
  }

  lemma ItemsAreChildren(re: Regex, root: Schema, s: Schema, v: Json, items: seq<Json>, limit: Limit)
    requires v.Arr? && ItemsHandled(re, root, s, v.items, |v.items|, items, limit)
    ensures ChildrenHandled(re, root, s, v, Arr(items), limit)
  {
    forall i | 0 <= i < |items|
      ensures Masked(v.items[i], items[i])
    {
      assert Handled(re, root, v.items[i], Maybe(OnItem(s, i)), items[i], limit);
    }
  }

  lemma {:induction false} ItemPrefix(re: Regex, root: Schema, s: Schema, items: seq<Json>, n: nat, depth: nat)
    requires n <= |items| && depth <= MAX_DEPTH
    ensures ItemWork(re, root, s, items[..n], depth) <= ItemWork(re, root, s, items, depth)
  {
    hide Work;
    if n == |items| {
      assert items[..n] == items;
    } else {
      var m := |items| - 1;
      ItemPrefix(re, root, s, items[..m], n, depth);
      assert items[..m][..n] == items[..n];
    }
  }

  lemma ItemSnoc(re: Regex, root: Schema, s: Schema, items: seq<Json>, n: nat, depth: nat)
    requires n < |items| && depth <= MAX_DEPTH
    ensures ItemWork(re, root, s, items[..n + 1], depth) ==
            ItemWork(re, root, s, items[..n], depth) + Work(re, root, OnItem(s, n), items[n], depth + 1)
  {
    hide Work;
    assert items[..n + 1][..n] == items[..n];
  }

  method RedactItems(re: Regex, root: Schema, v: Json, s: Schema, depth: nat, budget: nat)
    returns (out: Json, changed: bool, left: nat, ghost limit: Limit)
    requires v.Arr? && depth <= MAX_DEPTH
    ensures (out == MARK && !limit.Unlimited? && changed) || ChildrenHandled(re, root, s, v, out, limit)
    ensures Paid(budget, left, ChildWork(re, root, s, v, depth), limit) && left <= budget
    ensures if changed then HasMarker(out) else out == v
    decreases budget, 6
  {
    hide Handled, HasMarker, Masked, Work, ItemWork, ItemsHandled, ChildrenHandled;
    MarkIsMarked();
    NoItems(re, root, s, v.items, depth);
    var items := v.items;
    changed, left, limit := false, budget, Unlimited;
    for i := 0 to |items|
      invariant |items| == |v.items| && Paid(budget, left, ItemWork(re, root, s, v.items[..i], depth), limit)
      invariant forall j :: i <= j < |items| ==> items[j] == v.items[j]
      invariant ItemsHandled(re, root, s, v.items, i, items, limit)
      invariant if changed then HasMarker(Arr(items)) else items == v.items
    {
      var item, c;
      ghost var l;
      item, c, left, l := Redact(re, root, items[i], OnItem(s, i), depth + 1, left);
      ItemSnoc(re, root, s, v.items, i, depth);
      if changed || c {
        MarkerInItem(re, root, items, i, Maybe(OnItem(s, i)), item, l);
      }
      ItemsGrow(re, root, s, v.items, i, items, limit, item, l);
      items, changed, limit := items[i := item], changed || c, First(limit, l);
      if left == 0 {
        ItemPrefix(re, root, s, v.items, i + 1, depth);
        return MARK, true, 0, BudgetSpent;
      }
    }
    assert v.items[..|items|] == v.items;
    out := Arr(items);
    ItemsAreChildren(re, root, s, v, items, limit);
  }

  lemma NoItems(re: Regex, root: Schema, s: Schema, items: seq<Json>, depth: nat)
    requires depth <= MAX_DEPTH
    ensures ItemsHandled(re, root, s, items, 0, items, Unlimited) && ItemWork(re, root, s, items[..0], depth) == 0
  {
  }

  // ----- the entry points

  /** The input is classified completely: the traversal has enough work units for it, no schema
      that applies to it nests too deep, and every pattern that is tried compiles. */
  ghost predicate Classifiable(re: Regex, schema: Schema, input: map<string, Json>) {
    Work(re, schema, Some(schema), Obj(input), 0) < WORK_BUDGET
  }

  /** Everything the schema marks is hidden in `out`, nothing else changes but to a marker, and
      what can be classified shows a marker only where the schema marks it. */
  ghost predicate Displays(re: Regex, schema: Schema, input: map<string, Json>, out: Json, changed: bool) {
    && Masked(Obj(input), out)
    && Covers(re, schema, Obj(input), {schema}, out)
    && (Classifiable(re, schema, input) ==> Justified(re, schema, Obj(input), {schema}, out))
    && if changed then HasMarker(out) else out == Obj(input)
  }

  /** A schema that applies nothing to the fields of an object. */
  predicate Bare(s: Schema) {
    && !WriteOnly(s) && !LocalRef(s)
    && List(s, "allOf") == [] && List(s, "anyOf") == [] && List(s, "oneOf") == []
    && Sub(s, "then").None? && Sub(s, "else").None?
    && Table(s, "dependentSchemas") == map[] && Table(s, "properties") == map[] && Table(s, "patternProperties") == map[]
    && Sub(s, "additionalProperties").None? && Sub(s, "unevaluatedProperties").None?
  }

  lemma {:induction false} SumSame<T>(keys: set<T>, cost: T -> nat, each: nat)
    requires forall k :: k in keys ==> cost(k) == each
    ensures SumSet(keys, cost) == each * |keys|
    decreases |keys|
  {
    if keys == {} {
    } else {
      var k :| k in keys;
      SumRemove(keys, k, cost);
      SumSame(keys - {k}, cost, each);
      assert |keys| == |keys - {k}| + 1;
    }
  }

  lemma BareField(re: Regex, root: Schema, s: Schema, name: string, v: Json, depth: nat)
    requires Bare(s) && depth <= MAX_DEPTH
    ensures FieldWork(re, root, s, name, v, depth) == 3
  {
  }

  lemma BareInPlace(re: Regex, root: Schema, s: Schema, v: Json, depth: nat)
    requires Bare(s) && depth <= MAX_DEPTH
    ensures InPlaceWork(re, root, s, v, depth) == 0
  {
    InPlaceParts(re, root, s, v, depth);
    assert BranchWork(re, root, [], v, depth) == 0;
    assert DependentWork(re, root, map[], v, depth) == 0;
    hide BranchWork, DependentWork, Work;
  }

  /** What the smallest schemas cost: one unit for the object and three for each field. */
  lemma BareWork(re: Regex, root: Schema, s: Schema, fields: map<string, Json>, depth: nat)
    requires Bare(s) && depth <= MAX_DEPTH
    ensures Work(re, root, Some(s), Obj(fields), depth) == 1 + 3 * |fields.Keys|
  {
    BareInPlace(re, root, s, Obj(fields), depth);
    hide InPlaceWork, FieldWork;
    forall name | name in fields.Keys
      ensures FieldCost(re, root, s, fields, depth)(name) == 3
    {
      BareField(re, root, s, name, fields[name], depth);
    }
    SumSame(fields.Keys, FieldCost(re, root, s, fields, depth), 3);
  }

  /** So an input of up to 1364 fields under such a schema is classified. */
  lemma BareIsClassified(re: Regex, schema: Schema, input: map<string, Json>)
    requires Bare(schema) && |input.Keys| <= 1364
    ensures Classifiable(re, schema, input)
  {
    BareWork(re, schema, schema, input, 0);
    hide Work;
  }

  /** What the display shows of a tool input: the masked object, or one marker for all of it. */
  method RedactInputForDisplay(re: Regex, input: map<string, Json>, schema: Option<Schema>)
    returns (shown: map<string, Json>, changed: bool)
    ensures schema.None? ==> shown == input && !changed
    ensures schema.Some? ==>
              || Displays(re, schema.value, input, Obj(shown), changed)
              || (shown == map["sensitive_input" := MARK] && changed && Displays(re, schema.value, input, MARK, true))
  {
    hide Work, Masked, Covers, Justified, HasMarker;
    var value, left;
    ghost var limit;
    var root := if schema.Some? then schema.value else map[];
    value, changed, left, limit := Redact(re, root, Obj(input), schema, 0, WORK_BUDGET);
    if value.Obj? {
      return value.fields, changed;
    }
    HandledObject(re, root, input, Maybe(schema), value, limit);
    if changed {
      return map["sensitive_input" := MARK], true;
    }
    shown := input;
  }

  lemma HandledObject(re: Regex, root: Schema, input: map<string, Json>, ts: set<Schema>, out: Json, limit: Limit)
    requires Handled(re, root, Obj(input), ts, out, limit) && !out.Obj?
    ensures out == MARK
  {
  }

  /** A field of a classifiable probe is reported exactly when the schema marks the field or the
      whole input, and an unreported field is never marked. */
  method InputFieldSensitive(re: Regex, schema: Schema, name: string) returns (sensitive: bool)
    ensures Classifiable(re, schema, map[name := Str("present")]) ==>
              (sensitive <==> exists n :: FieldMarked(re, schema, name, n))
    ensures !sensitive ==> forall n :: !FieldMarked(re, schema, name, n)
  {
    hide Work;
    var shown;
    var probe := map[name := Str("present")];
    shown, sensitive := RedactInputForDisplay(re, probe, Some(schema));
    ghost var out := if Displays(re, schema, probe, Obj(shown), sensitive) then Obj(shown) else MARK;
    FieldSensitivity(re, schema, name, out, sensitive);
  }

  lemma FieldSensitivity(re: Regex, schema: Schema, name: string, out: Json, changed: bool)
    requires Displays(re, schema, map[name := Str("present")], out, changed)
    ensures Classifiable(re, schema, map[name := Str("present")]) && changed ==> exists n :: FieldMarked(re, schema, name, n)
    ensures !changed ==> forall n :: !FieldMarked(re, schema, name, n)
  {
    hide Work;
    var probe := Obj(map[name := Str("present")]);
    if changed && Classifiable(re, schema, map[name := Str("present")]) {
      var path :| At(out, path) == Some(MARK);
      ProbePaths(name, out, path);
      var n: nat :| MarksAny(re, schema, probe, {schema}, path, n);
      assert FieldMarked(re, schema, name, n);
    } else if !changed {
      forall n: nat
        ensures !FieldMarked(re, schema, name, n)
      {
        assert !Hidden(probe, []) && !Hidden(probe, [Field(name)]);
        assert !MarksAny(re, schema, probe, {schema}, [], n) && !MarksAny(re, schema, probe, {schema}, [Field(name)], n);
      }
    }
  }

  lemma ProbePaths(name: string, out: Json, path: seq<Key>)
    requires Masked(Obj(map[name := Str("present")]), out) && At(out, path) == Some(MARK)
    ensures path == [] || path == [Field(name)]
    ensures At(Obj(map[name := Str("present")]), path) != Some(MARK)
  {
    if path != [] {
      var child := Child(out, path[0]).value;
      assert path[0] == Field(name) && Masked(Str("present"), child);
      assert forall k :: Child(child, k).None?;
      assert path == [path[0]] + path[1..];
    }
  }

  ghost predicate FieldMarked(re: Regex, schema: Schema, name: string, n: nat) {
    var probe := Obj(map[name := Str("present")]);
    Marks(re, schema, probe, schema, [], n) || Marks(re, schema, probe, schema, [Field(name)], n)
  }
}
