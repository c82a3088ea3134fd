/** Local schema references: every nested schema can be named by a `$ref` whose parts are
    escaped as section 4 of RFC 6901 prescribes, whatever characters its keys contain. */
module Pointer {

  import opened Redaction
  import opened Wrappers

  function Escape(key: string): string {
    if key == "" then ""
    else (if key[0] == '~' then "~0" else if key[0] == '/' then "~1" else [key[0]]) + Escape(key[1..])
  }

  function EscapeAll(keys: seq<string>): seq<string> {
    seq(|keys|, i requires 0 <= i < |keys| => Escape(keys[i]))
  }

  function Join(parts: seq<string>): string
    requires parts != []
  {
    if |parts| == 1 then parts[0] else parts[0] + "/" + Join(parts[1..])
  }

  /** The schema that names the location reached from the root through `keys`. */
  function ReferenceTo(keys: seq<string>): Schema
    requires keys != []
  {
    map["$ref" := Str("#/" + Join(EscapeAll(keys)))]
  }

  /** Descending by the keys themselves. */
  function Follow(node: Option<Json>, keys: seq<string>): Option<Json>
    decreases |keys|
  {
    if keys == [] then node
    else Follow(if AsSchema(node).Some? then Get(AsSchema(node).value, keys[0]) else None, keys[1..])
  }

  /** Only the tilde escaped: what the first replacement pass leaves. */
  function EscapeTilde(key: string): string {
    if key == "" then "" else (if key[0] == '~' then "~0" else [key[0]]) + EscapeTilde(key[1..])
  }

  lemma EscapeStep(key: string)
    requires key != ""
    ensures Escape(key) == (if key[0] == '~' then "~0" else if key[0] == '/' then "~1" else [key[0]]) + Escape(key[1..])
    ensures EscapeTilde(key) == (if key[0] == '~' then "~0" else [key[0]]) + EscapeTilde(key[1..])
  {
  }

  /** How a replacement goes past the escape of one character. */
  lemma ReplaceStep(c: char, rest: string)
    requires c != '~'
    ensures ReplacePair("~0" + rest, '~', '1', '/') == "~0" + ReplacePair(rest, '~', '1', '/')
    ensures ReplacePair("~1" + rest, '~', '1', '/') == ['/'] + ReplacePair(rest, '~', '1', '/')
    ensures ReplacePair([c] + rest, '~', '1', '/') == [c] + ReplacePair(rest, '~', '1', '/')
  {
    assert ("~0" + rest)[1..] == ['0'] + rest && (['0'] + rest)[1..] == rest;
    assert ("~1" + rest)[2..] == rest;
    assert ([c] + rest)[1..] == rest;
  }

  lemma {:induction false} FirstPass(key: string)
    ensures ReplacePair(Escape(key), '~', '1', '/') == EscapeTilde(key)
  {
    if key == "" {
    } else {
      FirstPass(key[1..]);
      hide ReplacePair, Escape, EscapeTilde;
      EscapeStep(key);
      ReplaceStep(if key[0] == '~' then '/' else key[0], Escape(key[1..]));
    }
  }

  lemma {:induction false} SecondPass(key: string)
    ensures ReplacePair(EscapeTilde(key), '~', '0', '~') == key
  {
    if key == "" {
    } else {
      SecondPass(key[1..]);
      var e, rest := EscapeTilde(key), EscapeTilde(key[1..]);
      if key[0] == '~' {
        assert e[2..] == rest;
      } else {
        assert e[1..] == rest;
      }
      assert key == [key[0]] + key[1..];
    }
  }

  /** Escaping is undone by the two replacement passes, in this order. */
  lemma UnescapeEscape(key: string)
    ensures Unescape(Escape(key)) == key
  {
    FirstPass(key);
    SecondPass(key);
  }

  lemma {:induction false} EscapeHasNoSlash(key: string)
    ensures '/' !in Escape(key)
  {
    if key == "" {
    } else {
      EscapeHasNoSlash(key[1..]);
    }
  }

  lemma {:induction false} SplitAtSlash(part: string, rest: string)
    requires '/' !in part
    ensures Split(part) == [part]
    ensures Split(part + "/" + rest) == [part] + Split(rest)
  {
    var s := part + "/" + rest;
    if part == "" {
      assert s[1..] == rest;
    } else {
      SplitAtSlash(part[1..], rest);
      assert s[1..] == part[1..] + "/" + rest;
      assert part == [part[0]] + part[1..];
    }
  }

  lemma {:induction false} SplitJoin(parts: seq<string>)
    requires parts != [] && forall p :: p in parts ==> '/' !in p
    ensures Split(Join(parts)) == parts
  {
    if |parts| == 1 {
      SplitAtSlash(parts[0], "");
    } else {
      SplitJoin(parts[1..]);
      SplitAtSlash(parts[0], Join(parts[1..]));
    }
  }

  lemma {:induction false} WalkFollows(node: Option<Json>, keys: seq<string>)
    ensures Walk(node, EscapeAll(keys)) == Follow(node, keys)
    decreases |keys|
  {
    if keys == [] {
    } else {
      UnescapeEscape(keys[0]);
      assert EscapeAll(keys)[1..] == EscapeAll(keys[1..]);
      WalkFollows(if AsSchema(node).Some? then Get(AsSchema(node).value, keys[0]) else None, keys[1..]);
    }
  }

  /** Resolving the reference to a location yields the schema at that location. */
  lemma ReferenceRoundTrip(root: Schema, keys: seq<string>)
    requires keys != []
    ensures RefTarget(ReferenceTo(keys), root) == AsSchema(Follow(Some(Obj(root)), keys))
  {
    var parts := EscapeAll(keys);
    forall p | p in parts
      ensures '/' !in p
    {
      var i :| 0 <= i < |parts| && parts[i] == p;
      EscapeHasNoSlash(keys[i]);
    }
    SplitJoin(parts);
    assert ("#/" + Join(parts))[2..] == Join(parts);
    WalkFollows(Some(Obj(root)), keys);
  }
}
