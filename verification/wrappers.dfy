/** Types shared by the models. */
module Wrappers {

  datatype Option<+T> = None | Some(value: T)
}

/** Unicode white space and its removal at both ends of a text. */
module Blanks {

  predicate IsSpace(c: char) {
    || '\t' <= c <= '\r' || c == ' ' || c == '\U{85}' || c == '\U{A0}' || c == '\U{1680}'
    || '\U{2000}' <= c <= '\U{200A}' || c == '\U{2028}' || c == '\U{2029}' || c == '\U{202F}' || c == '\U{205F}'
    || c == '\U{3000}'
  }

  function TrimLeft(s: string): (r: string)
    ensures |r| <= |s|
    ensures r != [] ==> !IsSpace(r[0]) && r[|r| - 1] == s[|s| - 1]
  {
    if s != [] && IsSpace(s[0]) then TrimLeft(s[1..]) else s
  }

  function TrimSpace(s: string): (r: string)
    ensures r != [] ==> !IsSpace(r[0]) && !IsSpace(r[|r| - 1])
  {
    if s != [] && IsSpace(s[|s| - 1]) then TrimSpace(s[..|s| - 1]) else TrimLeft(s)
  }

  /** Only white space is cut, and all of it at either end. */
  ghost predicate CutFrom(r: string, s: string, before: string, after: string) {
    && s == before + r + after
    && (forall i :: 0 <= i < |before| ==> IsSpace(before[i]))
    && (forall i :: 0 <= i < |after| ==> IsSpace(after[i]))
    && (r != [] ==> !IsSpace(r[0]) && !IsSpace(r[|r| - 1]))
  }

  lemma {:induction false} TrimLeftCuts(s: string) returns (before: string)
    ensures s == before + TrimLeft(s) && forall i :: 0 <= i < |before| ==> IsSpace(before[i])
  {
    hide IsSpace;
    if s == [] || !IsSpace(s[0]) {
      before := [];
    } else {
      var rest := TrimLeftCuts(s[1..]);
      before := [s[0]] + rest;
      assert s == [s[0]] + s[1..];
    }
  }

  lemma {:induction false} TrimSpaceCuts(s: string) returns (before: string, after: string)
    ensures CutFrom(TrimSpace(s), s, before, after)
  {
    hide IsSpace;
    if s == [] || !IsSpace(s[|s| - 1]) {
      before := TrimLeftCuts(s);
      after := [];
      assert before + TrimLeft(s) + [] == s;
    } else {
      var n := |s| - 1;
      before, after := TrimSpaceCuts(s[..n]);
      assert s == s[..n] + [s[n]];
      assert before + TrimSpace(s) + (after + [s[n]]) == before + TrimSpace(s) + after + [s[n]];
      after := after + [s[n]];
    }
  }
}
