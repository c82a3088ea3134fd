/** Citations: private-use markers in a model's text become citation records at their place in
    the cleaned text, and the citations of a message's parts are shifted into its joined text.
    Offsets count the bytes of the UTF-8 encoding. */
module Citations {

  import opened Blanks
  import opened Utf8
  import opened Wrappers

  const START: char := '\U{E200}'
  const END: char := '\U{E201}'
  const SEPARATOR: char := '\U{E202}'

  datatype Source = Source(refId: string, title: string, url: string, snippet: string, site: string, publishedAt: string)

  datatype Citation = Citation(start: int, end: int, sources: seq<Source>)

  // ----- strings

  /** Cuts trailing blanks and tabs. */
  function TrimBlanks(s: string): (r: string)
    ensures r <= s
  {
    if s != [] && (s[|s| - 1] == ' ' || s[|s| - 1] == '\t') then TrimBlanks(s[..|s| - 1]) else s
  }

  function Find(s: string, c: char): (r: Option<nat>)
    ensures r.Some? ==> r.value < |s| && s[r.value] == c && c !in s[..r.value]
    ensures r.None? ==> c !in s
  {
    if s == [] then None
    else if s[0] == c then Some(0)
    else
      match Find(s[1..], c)
      case None => None
      case Some(i) => assert s[..i + 1] == [s[0]] + s[1..][..i]; Some(i + 1)
  }

  /** The first place is the only one with nothing before it. */
  lemma FindIs(s: string, c: char, i: nat)
    requires i < |s| && s[i] == c && c !in s[..i]
    ensures Find(s, c) == Some(i)
  {
  }

  function Split(s: string): (parts: seq<string>)
    ensures |parts| > 0
  {
    match Find(s, SEPARATOR)
    case None => [s]
    case Some(i) => [s[..i]] + Split(s[i + 1..])
  }

  // ----- references

  predicate RefChar(c: char) {
    'a' <= c <= 'z' || 'A' <= c <= 'Z' || '0' <= c <= '9' || c == '_' || c == '-' || c == '.' || c == ':'
  }

  predicate ValidRef(ref: string) {
    ref != "" && |ref| <= 256 && forall i :: 0 <= i < |ref| ==> RefChar(ref[i])
  }

  const OPENING: string := [START] + "cite" + [SEPARATOR]

  /** The references of a well-formed marker. */
  function Refs(marker: string): (refs: Option<seq<string>>)
    ensures refs.Some? ==> refs.value != [] && forall i :: 0 <= i < |refs.value| ==> ValidRef(refs.value[i])
  {
    if OPENING <= marker && |marker| > |OPENING| && marker[|marker| - 1] == END then
      ValidRefs(Split(marker[|OPENING|..|marker| - 1]))
    else None
  }

  function ValidRefs(parts: seq<string>): (refs: Option<seq<string>>)
    ensures refs.Some? ==> |refs.value| == |parts| && forall i :: 0 <= i < |refs.value| ==> ValidRef(refs.value[i])
  {
    if parts == [] then Some([])
    else
      var n := |parts| - 1;
      var before, ref := ValidRefs(parts[..n]), TrimSpace(parts[n]);
      if before.Some? && ValidRef(ref) then Some(before.value + [ref]) else None
  }

  function JoinParts(parts: seq<string>): string
    requires parts != []
  {
    if |parts| == 1 then parts[0] else parts[0] + [SEPARATOR] + JoinParts(parts[1..])
  }

  lemma SplitFirst(a: string, rest: string)
    requires SEPARATOR !in a
    ensures Split(a + [SEPARATOR] + rest) == [a] + Split(rest)
  {
    var s, n := a + [SEPARATOR] + rest, |a|;
    assert s[n] == SEPARATOR && s[..n] == a && s[n + 1..] == rest;
    FindIs(s, SEPARATOR, n);
    hide Find;
  }

  lemma JoinFirst(a: string, parts: seq<string>)
    requires parts != []
    ensures JoinParts([a] + parts) == a + [SEPARATOR] + JoinParts(parts)
  {
    assert ([a] + parts)[1..] == parts;
  }

  lemma {:induction false} SplitJoins(s: string)
    ensures JoinParts(Split(s)) == s && forall i :: 0 <= i < |Split(s)| ==> SEPARATOR !in Split(s)[i]
    decreases |s|
  {
    var i := Find(s, SEPARATOR);
    if i.None? {
    } else {
      var a, rest := s[..i.value], s[i.value + 1..];
      SplitJoins(rest);
      hide Find, JoinParts, Split;
      assert s == a + [SEPARATOR] + rest;
      SplitFirst(a, rest);
      JoinFirst(a, Split(rest));
    }
  }

  lemma SplitOne(s: string)
    requires SEPARATOR !in s
    ensures Split(s) == [s]
  {
  }

  lemma {:induction false} JoinSplits(parts: seq<string>)
    requires parts != [] && forall i :: 0 <= i < |parts| ==> SEPARATOR !in parts[i]
    ensures Split(JoinParts(parts)) == parts
  {
    hide Find, Split;
    assert parts == [parts[0]] + parts[1..];
    if |parts| == 1 {
      SplitOne(parts[0]);
    } else {
      JoinSplits(parts[1..]);
      hide JoinParts;
      JoinFirst(parts[0], parts[1..]);
      SplitFirst(parts[0], JoinParts(parts[1..]));
    }
  }

  /** A marker written for these parts: start, "cite", the parts between separators, end. The
      references are the trimmed parts. */
  ghost predicate Names(marker: string, parts: seq<string>, refs: seq<string>) {
    && parts != [] && (forall i :: 0 <= i < |parts| ==> SEPARATOR !in parts[i])
    && marker == OPENING + JoinParts(parts) + [END]
    && |refs| == |parts| && forall i :: 0 <= i < |refs| ==> refs[i] == TrimSpace(parts[i]) && ValidRef(refs[i])
  }

  lemma {:induction false} ValidRefsExactly(parts: seq<string>, refs: seq<string>)
    ensures ValidRefs(parts) == Some(refs) <==>
              |refs| == |parts| && forall i :: 0 <= i < |refs| ==> refs[i] == TrimSpace(parts[i]) && ValidRef(refs[i])
  {
    hide TrimSpace, ValidRef;
    if parts == [] {
    } else if refs == [] {
    } else {
      var n := |parts| - 1;
      ValidRefsExactly(parts[..n], refs[..|refs| - 1]);
      assert refs == refs[..|refs| - 1] + [refs[|refs| - 1]];
    }
  }

  /** A marker with this body. */
  function Marker(body: string): string {
    OPENING + body + [END]
  }

  lemma RefsOfMarker(body: string)
    ensures Refs(Marker(body)) == ValidRefs(Split(body))
  {
    hide ValidRefs, Split;
    var marker := Marker(body);
    assert marker[|OPENING|..|marker| - 1] == body;
  }

  lemma MarkerOfRefs(marker: string) returns (body: string)
    requires Refs(marker).Some?
    ensures marker == Marker(body)
  {
    hide ValidRefs, Split;
    body := marker[|OPENING|..|marker| - 1];
    assert marker == OPENING + marker[|OPENING|..];
  }

  /** A marker has references exactly when it is written for parts that name them. */
  lemma {:induction false} RefsExactly(marker: string, refs: seq<string>)
    ensures Refs(marker) == Some(refs) <==> exists parts :: Names(marker, parts, refs)
  {
    hide Refs, Split, ValidRefs, JoinParts, ValidRef, TrimSpace;
    if Refs(marker) == Some(refs) {
      var body := MarkerOfRefs(marker);
      RefsOfMarker(body);
      SplitJoins(body);
      ValidRefsExactly(Split(body), refs);
      assert Names(marker, Split(body), refs);
    }
    if parts :| Names(marker, parts, refs) {
      RefsOfMarker(JoinParts(parts));
      JoinSplits(parts);
      ValidRefsExactly(parts, refs);
    }
  }

  // ----- sources

  function Trimmed(s: Source): Source {
    Source(TrimSpace(s.refId), TrimSpace(s.title), TrimSpace(s.url), TrimSpace(s.snippet), TrimSpace(s.site), TrimSpace(s.publishedAt))
  }

  function SourceKey(s: Source): string {
    if s.url != "" then s.url else "ref:" + s.refId
  }

  predicate Usable(s: Source) {
    s.refId != "" || s.url != ""
  }

  predicate HasKey(sources: seq<Source>, key: string) {
    exists i :: 0 <= i < |sources| && SourceKey(sources[i]) == key
  }

  /** Adds a source unless it names nothing or its key is there already. */
  function AddSource(out: seq<Source>, s: Source): seq<Source> {
    if !Usable(s) || HasKey(out, SourceKey(s)) then out else out + [s]
  }

  /** Trims, drops sources that name nothing and keeps the first of each key. */
  function NormalSources(sources: seq<Source>): seq<Source> {
    if sources == [] then []
    else AddSource(NormalSources(sources[..|sources| - 1]), Trimmed(sources[|sources| - 1]))
  }

  /** Trimmed, naming something, and of different keys. */
  ghost predicate Normal(sources: seq<Source>) {
    && (forall i :: 0 <= i < |sources| ==> Usable(sources[i]) && Trimmed(sources[i]) == sources[i])
    && (forall i, j :: 0 <= i < j < |sources| ==> SourceKey(sources[i]) != SourceKey(sources[j]))
  }

  lemma TrimmedTwice(s: Source)
    ensures Trimmed(Trimmed(s)) == Trimmed(s)
  {
  }

  lemma AddNormal(out: seq<Source>, s: Source)
    requires Normal(out) && Trimmed(s) == s
    ensures Normal(AddSource(out, s))
  {
    hide Trimmed, SourceKey, Usable;
  }

  lemma {:induction false} NormalSourcesNormal(sources: seq<Source>)
    ensures Normal(NormalSources(sources))
  {
    hide Trimmed, SourceKey, Usable, AddSource;
    if sources == [] {
    } else {
      var n := |sources| - 1;
      NormalSourcesNormal(sources[..n]);
      TrimmedTwice(sources[n]);
      AddNormal(NormalSources(sources[..n]), Trimmed(sources[n]));
      hide Normal;
    }
  }

  lemma NormalInit(sources: seq<Source>)
    requires Normal(sources) && sources != []
    ensures var n := |sources| - 1;
      Normal(sources[..n]) && Trimmed(sources[n]) == sources[n] && AddSource(sources[..n], sources[n]) == sources
  {
    hide Trimmed, SourceKey;
    var n := |sources| - 1;
    assert sources == sources[..n] + [sources[n]];
  }

  /** Normalising what is normal changes nothing. */
  lemma {:induction false} NormalStays(sources: seq<Source>)
    requires Normal(sources)
    ensures NormalSources(sources) == sources
  {
    hide Trimmed, AddSource, Normal;
    if sources == [] {
    } else {
      NormalInit(sources);
      NormalStays(sources[..|sources| - 1]);
    }
  }

  lemma {:induction false} UsableKept(sources: seq<Source>, i: nat)
    requires i < |sources| && Usable(Trimmed(sources[i]))
    ensures NormalSources(sources) != []
  {
    hide Trimmed, SourceKey, Usable;
    if i < |sources| - 1 {
      UsableKept(sources[..|sources| - 1], i);
    }
  }

  /** The first usable source of its key. */
  ghost predicate FirstOfKey(sources: seq<Source>, i: nat) {
    && i < |sources| && Usable(Trimmed(sources[i]))
    && forall j :: 0 <= j < i && Usable(Trimmed(sources[j])) ==> SourceKey(Trimmed(sources[j])) != SourceKey(Trimmed(sources[i]))
  }

  ghost predicate Ascending(at: seq<nat>) {
    forall j, k :: 0 <= j < k < |at| ==> at[j] < at[k]
  }

  /** One more index behind the others. */
  lemma Extend(at: seq<nat>, n: nat)
    requires Ascending(at) && forall i: nat :: i in at ==> i < n
    ensures Ascending(at + [n]) && forall i: nat :: i in at + [n] <==> i in at || i == n
  {
    assert forall k :: 0 <= k < |at| ==> at[k] in at;
  }

  lemma {:induction false} KeysKept(sources: seq<Source>, key: string)
    ensures HasKey(NormalSources(sources), key) <==>
              exists j :: 0 <= j < |sources| && Usable(Trimmed(sources[j])) && SourceKey(Trimmed(sources[j])) == key
  {
    hide Trimmed, SourceKey, Usable;
    if sources == [] {
    } else {
      var n := |sources| - 1;
      var init, out, last := sources[..n], NormalSources(sources[..n]), Trimmed(sources[n]);
      KeysKept(init, key);
      KeysKept(init, SourceKey(last));
      HasKeySnoc(out, last, key);
      assert forall j :: 0 <= j < n ==> init[j] == sources[j];
    }
  }

  lemma HasKeySnoc(out: seq<Source>, s: Source, key: string)
    ensures HasKey(out + [s], key) <==> HasKey(out, key) || SourceKey(s) == key
  {
    hide SourceKey;
    var longer := out + [s];
    assert longer[|out|] == s;
    assert forall i :: 0 <= i < |out| ==> longer[i] == out[i];
  }

  lemma FirstStays(sources: seq<Source>, n: nat, i: nat)
    requires i < n <= |sources|
    ensures FirstOfKey(sources[..n], i) <==> FirstOfKey(sources, i)
  {
    hide Trimmed, SourceKey, Usable;
    assert forall j :: 0 <= j < n ==> sources[..n][j] == sources[j];
  }

  lemma LastIsFirst(sources: seq<Source>)
    requires sources != []
    ensures var n := |sources| - 1;
      var out, last := NormalSources(sources[..n]), Trimmed(sources[n]);
      && NormalSources(sources) == (if FirstOfKey(sources, n) then out + [last] else out)
  {
    hide Trimmed, SourceKey, Usable, HasKey;
    var n := |sources| - 1;
    KeysKept(sources[..n], SourceKey(Trimmed(sources[n])));
    assert forall j :: 0 <= j < n ==> sources[..n][j] == sources[j];
  }

  /** Normalising keeps exactly the first usable source of every key, trimmed and in order. */
  lemma {:induction false} NormalIsFirsts(sources: seq<Source>) returns (at: seq<nat>)
    ensures |at| == |NormalSources(sources)| && Ascending(at)
    ensures forall k :: 0 <= k < |at| ==> at[k] < |sources| && NormalSources(sources)[k] == Trimmed(sources[at[k]])
    ensures forall i: nat :: i in at <==> i < |sources| && FirstOfKey(sources, i)
  {
    hide Trimmed, FirstOfKey;
    if sources == [] {
      at := [];
    } else {
      var n := |sources| - 1;
      at := NormalIsFirsts(sources[..n]);
      LastIsFirst(sources);
      hide NormalSources;
      forall i: nat | i < n
        ensures FirstOfKey(sources[..n], i) <==> FirstOfKey(sources, i)
      {
        FirstStays(sources, n, i);
      }
      hide Ascending;
      Extend(at, n);
      if FirstOfKey(sources, n) {
        at := at + [n];
      }
    }
  }

  function RefOnly(ref: string): Source {
    Source(ref, "", "", "", "", "")
  }

  /** The first source from `i` on that is unused and carries the reference. */
  function Match(resolved: seq<Source>, used: set<nat>, ref: string, i: nat): (r: Option<nat>)
    requires i <= |resolved|
    ensures r.Some? ==> i <= r.value < |resolved| && r.value !in used && TrimSpace(resolved[r.value].refId) == ref
    ensures forall k :: i <= k < (if r.Some? then r.value else |resolved|) ==> k in used || TrimSpace(resolved[k].refId) != ref
    decreases |resolved| - i
  {
    if i == |resolved| then None
    else if i !in used && TrimSpace(resolved[i].refId) == ref then Some(i)
    else Match(resolved, used, ref, i + 1)
  }

  /** A source for each reference, each resolved one at most once, and which were taken. */
  function Assign(refs: seq<string>, resolved: seq<Source>): (r: (seq<Source>, set<nat>))
    ensures |r.0| == |refs|
    ensures forall i :: 0 <= i < |refs| ==> r.0[i] == RefOnly(refs[i]) || TrimSpace(r.0[i].refId) == refs[i]
  {
    if refs == [] then ([], {})
    else
      var n := |refs| - 1;
      var (out, used) := Assign(refs[..n], resolved);
      match Match(resolved, used, refs[n], 0)
      case None => (out + [RefOnly(refs[n])], used)
      case Some(i) => (out + [resolved[i]], used + {i})
  }

  function Unused(resolved: seq<Source>, used: set<nat>, n: nat): seq<Source>
    requires n <= |resolved|
  {
    if n == 0 then []
    else if (n - 1) in used then Unused(resolved, used, n - 1)
    else Unused(resolved, used, n - 1) + [resolved[n - 1]]
  }

  /** Which resolved source each reference takes: the first that carries it and that no earlier
      reference took, if there is one. */
  ghost predicate Picks(refs: seq<string>, resolved: seq<Source>, picks: seq<Option<nat>>) {
    && |picks| == |refs|
    && forall i :: 0 <= i < |refs| ==> PicksFirst(resolved, picks[..i], refs[i], picks[i])
  }

  ghost predicate PicksFirst(resolved: seq<Source>, before: seq<Option<nat>>, ref: string, pick: Option<nat>) {
    && (pick.Some? ==> pick.value < |resolved| && pick !in before && TrimSpace(resolved[pick.value].refId) == ref)
    && forall k: nat :: k < (if pick.Some? then pick.value else |resolved|) ==> Some(k) in before || TrimSpace(resolved[k].refId) != ref
  }

  /** What the picks give: the source picked or the reference alone, and which sources are used. */
  ghost predicate Gives(refs: seq<string>, resolved: seq<Source>, picks: seq<Option<nat>>, out: seq<Source>, used: set<nat>) {
    && |picks| == |refs| == |out|
    && (forall i :: 0 <= i < |refs| ==> PickGives(resolved, picks[i], refs[i], out[i]))
    && (forall k :: k in used <==> Some(k) in picks)
  }

  ghost predicate PickGives(resolved: seq<Source>, pick: Option<nat>, ref: string, source: Source) {
    if pick.None? then source == RefOnly(ref) else pick.value < |resolved| && source == resolved[pick.value]
  }

  lemma PicksSnoc(refs: seq<string>, ref: string, resolved: seq<Source>, picks: seq<Option<nat>>, pick: Option<nat>)
    requires Picks(refs, resolved, picks) && PicksFirst(resolved, picks, ref, pick)
    ensures Picks(refs + [ref], resolved, picks + [pick])
  {
    hide PicksFirst;
    var all, longer := refs + [ref], picks + [pick];
    forall i | 0 <= i < |all|
      ensures PicksFirst(resolved, longer[..i], all[i], longer[i])
    {
      if i < |refs| {
        assert longer[..i] == picks[..i];
        assert PicksFirst(resolved, picks[..i], refs[i], picks[i]);
      } else {
        assert longer[..i] == picks;
      }
    }
  }

  lemma GivesSnoc(refs: seq<string>, ref: string, resolved: seq<Source>, picks: seq<Option<nat>>, pick: Option<nat>,
                  out: seq<Source>, source: Source, used: set<nat>)
    requires Gives(refs, resolved, picks, out, used) && PickGives(resolved, pick, ref, source)
    ensures Gives(refs + [ref], resolved, picks + [pick], out + [source], if pick.Some? then used + {pick.value} else used)
  {
    hide PickGives;
  }

  lemma MatchPicks(resolved: seq<Source>, used: set<nat>, picks: seq<Option<nat>>, ref: string)
    requires forall k :: k in used <==> Some(k) in picks
    ensures PicksFirst(resolved, picks, ref, Match(resolved, used, ref, 0))
  {
    hide TrimSpace;
  }

  lemma {:induction false} AssignPicks(refs: seq<string>, resolved: seq<Source>) returns (picks: seq<Option<nat>>)
    ensures Picks(refs, resolved, picks)
    ensures Gives(refs, resolved, picks, Assign(refs, resolved).0, Assign(refs, resolved).1)
  {
    if refs == [] {
      picks := [];
    } else {
      hide Match, Assign, Picks, PicksFirst;
      var init, ref := refs[..|refs| - 1], refs[|refs| - 1];
      assert refs == init + [ref];
      var before := AssignPicks(init, resolved);
      var (out, used) := Assign(init, resolved);
      var pick := Match(resolved, used, ref, 0);
      MatchPicks(resolved, used, before, ref);
      PicksSnoc(init, ref, resolved, before, pick);
      AssignUnfolds(refs, resolved);
      hide Gives;
      GivesSnoc(init, ref, resolved, before, pick, out, if pick.None? then RefOnly(ref) else resolved[pick.value], used);
      picks := before + [pick];
    }
  }

  lemma AssignUnfolds(refs: seq<string>, resolved: seq<Source>)
    requires refs != []
    ensures var n := |refs| - 1;
      var (out, used) := Assign(refs[..n], resolved);
      var pick := Match(resolved, used, refs[n], 0);
      Assign(refs, resolved) == if pick.None? then (out + [RefOnly(refs[n])], used) else (out + [resolved[pick.value]], used + {pick.value})
  {
  }

  lemma UnusedUnfolds(resolved: seq<Source>, used: set<nat>, n: nat)
    requires 0 < n <= |resolved|
    ensures Unused(resolved, used, n) == Unused(resolved, used, n - 1) + if n - 1 in used then [] else [resolved[n - 1]]
  {
  }

  /** The sources no reference took, in order. */
  lemma {:induction false} UnusedExactly(resolved: seq<Source>, used: set<nat>, n: nat) returns (at: seq<nat>)
    requires n <= |resolved|
    ensures |at| == |Unused(resolved, used, n)| && Ascending(at)
    ensures forall k :: 0 <= k < |at| ==> at[k] < n && Unused(resolved, used, n)[k] == resolved[at[k]]
    ensures forall i: nat :: i in at <==> i < n && i !in used
  {
    if n == 0 {
      at := [];
    } else {
      at := UnusedExactly(resolved, used, n - 1);
      UnusedUnfolds(resolved, used, n);
      hide Unused, Ascending;
      Extend(at, n - 1);
      if n - 1 !in used {
        at := at + [n - 1];
      }
    }
  }

  function SourcesForRefs(refs: seq<string>, resolved: seq<Source>): seq<Source> {
    var (out, used) := Assign(refs, resolved);
    NormalSources(out + Unused(resolved, used, |resolved|))
  }

  method CitationSourcesForRefs(refs: seq<string>, resolved: seq<Source>) returns (sources: seq<Source>)
    ensures sources == SourcesForRefs(refs, resolved)
  {
    var out: seq<Source>, used: set<nat> := [], {};
    for i := 0 to |refs|
      invariant (out, used) == Assign(refs[..i], resolved)
    {
      assert refs[..i + 1][..i] == refs[..i];
      var ref, matched := refs[i], false;
      var k := 0;
      while k < |resolved| && !matched
        invariant 0 <= k <= |resolved|
        invariant !matched ==> (out, used) == Assign(refs[..i], resolved) &&
                               Match(resolved, Assign(refs[..i], resolved).1, ref, 0) == Match(resolved, used, ref, k)
        invariant matched ==> (out, used) == Assign(refs[..i + 1], resolved)
        decreases !matched, |resolved| - k
      {
        if k !in used && TrimSpace(resolved[k].refId) == ref {
          used, out, matched := used + {k}, out + [resolved[k]], true;
        } else {
          k := k + 1;
        }
      }
      if !matched {
        out := out + [RefOnly(ref)];
      }
    }
    assert refs[..|refs|] == refs;
    var rest: seq<Source> := [];
    for i := 0 to |resolved|
      invariant rest == Unused(resolved, used, i)
    {
      if i !in used {
        rest := rest + [resolved[i]];
      }
    }
    sources := NormalSources(out + rest);
  }

  lemma {:induction false} RefKeepsShape(ref: string)
    requires forall i :: 0 <= i < |ref| ==> RefChar(ref[i])
    ensures TrimSpace(ref) == ref
  {
    assert ref != [] ==> RefChar(ref[|ref| - 1]) && RefChar(ref[0]);
  }

  /** A well-formed marker always has a source to show. */
  lemma AlwaysASource(refs: seq<string>, resolved: seq<Source>)
    requires refs != [] && forall i :: 0 <= i < |refs| ==> ValidRef(refs[i])
    ensures SourcesForRefs(refs, resolved) != []
  {
    var (out, used) := Assign(refs, resolved);
    RefKeepsShape(refs[0]);
    var all := out + Unused(resolved, used, |resolved|);
    assert all[0] == out[0] && out[0] in all;
    assert Usable(Trimmed(out[0]));
    hide Assign, TrimSpace;
    UsableKept(all, 0);
  }

  // ----- scanning

  /** Text up to a marker, and the marker from its start to its first end. */
  datatype Piece = Piece(prefix: string, marker: string)

  datatype Scan = Scan(pieces: seq<Piece>, tail: string)

  /** The first start and the first end after it. */
  function FirstPiece(text: string): (r: Option<Piece>)
    ensures r.Some? ==> 0 < |r.value.prefix + r.value.marker| <= |text|
  {
    match Find(text, START)
    case None => None
    case Some(start) =>
      match Find(text[start..], END)
      case None => None
      case Some(end) => Some(Piece(text[..start], text[start..start + end + 1]))
  }

  function After(text: string, piece: Piece): (rest: string)
    requires |piece.prefix + piece.marker| <= |text|
    ensures |rest| == |text| - |piece.prefix + piece.marker|
  {
    text[|piece.prefix + piece.marker|..]
  }

  function ScanOf(text: string): Scan
    decreases |text|
  {
    match FirstPiece(text)
    case None => Scan([], text)
    case Some(piece) => Push(piece, ScanOf(After(text, piece)))
  }

  function Push(piece: Piece, rest: Scan): Scan {
    Scan([piece] + rest.pieces, rest.tail)
  }

  predicate Unclosed(text: string) {
    var start := Find(text, START);
    start.None? || END !in text[start.value..]
  }

  predicate Closed(marker: string) {
    |marker| > 1 && marker[0] == START && marker[|marker| - 1] == END && END !in marker[..|marker| - 1]
  }

  function Raw(s: Scan): string
    decreases |s.pieces|
  {
    if s.pieces == [] then s.tail
    else s.pieces[0].prefix + s.pieces[0].marker + Raw(Scan(s.pieces[1..], s.tail))
  }

  /** What a scan is, apart from how it is found. */
  ghost predicate IsScan(s: Scan) {
    && (forall i :: 0 <= i < |s.pieces| ==> START !in s.pieces[i].prefix && Closed(s.pieces[i].marker))
    && Unclosed(s.tail)
  }

  lemma PushIsScan(piece: Piece, rest: Scan)
    ensures IsScan(Push(piece, rest)) <==> START !in piece.prefix && Closed(piece.marker) && IsScan(rest)
    ensures Raw(Push(piece, rest)) == piece.prefix + piece.marker + Raw(rest)
  {
    var s := Push(piece, rest);
    assert s.pieces[0] == piece && s.pieces[1..] == rest.pieces;
    assert Scan(s.pieces[1..], s.tail) == rest;
    hide Closed, Unclosed;
    assert forall i :: 0 <= i < |rest.pieces| ==> s.pieces[i + 1] == rest.pieces[i];
    assert forall i :: 0 < i < |s.pieces| ==> s.pieces[i] == rest.pieces[i - 1];
  }

  lemma CutMarker(text: string, start: nat, end: nat)
    requires start < |text| && text[start] == START && end < |text[start..]| && text[start..][end] == END && END !in text[start..][..end]
    ensures Closed(text[start..start + end + 1])
    ensures text == text[..start] + text[start..start + end + 1] + text[start + end + 1..]
  {
  }

  /** What the first piece is, and what is left after it. */
  lemma FirstPieceCuts(text: string)
    ensures FirstPiece(text).None? ==> Unclosed(text)
    ensures FirstPiece(text).Some? ==>
      var piece := FirstPiece(text).value;
      START !in piece.prefix && Closed(piece.marker) && text == piece.prefix + piece.marker + After(text, piece)
  {
    var start := Find(text, START);
    if start.Some? && Find(text[start.value..], END).Some? {
      CutMarker(text, start.value, Find(text[start.value..], END).value);
    }
  }

  /** Scanning finds a scan of the text. */
  lemma {:induction false} ScanOfIsScan(text: string)
    ensures IsScan(ScanOf(text)) && Raw(ScanOf(text)) == text
    decreases |text|
  {
    FirstPieceCuts(text);
    hide FirstPiece, Unclosed, Closed;
    if FirstPiece(text).Some? {
      var piece := FirstPiece(text).value;
      ScanOfIsScan(After(text, piece));
      PushIsScan(piece, ScanOf(After(text, piece)));
      hide IsScan, Raw, After;
    }
  }

  lemma FirstMarker(prefix: string, marker: string, rest: string)
    requires START !in prefix && Closed(marker)
    ensures var text := prefix + marker + rest;
      FirstPiece(text) == Some(Piece(prefix, marker)) && After(text, Piece(prefix, marker)) == rest
  {
    var text := prefix + marker + rest;
    assert text[..|prefix|] == prefix;
    FindIs(text, START, |prefix|);
    var candidate := text[|prefix|..];
    assert candidate == marker + rest;
    assert candidate[..|marker| - 1] == marker[..|marker| - 1];
    FindIs(candidate, END, |marker| - 1);
    hide Find;
    assert text[|prefix|..|prefix| + |marker|] == marker;
  }

  /** It is the only one: a scan is recovered from its text. */
  lemma {:induction false} ScanRoundTrip(s: Scan)
    requires IsScan(s)
    ensures ScanOf(Raw(s)) == s
    decreases |s.pieces|
  {
    if s.pieces == [] {
      assert s == Scan([], s.tail);
    } else {
      var piece, rest := s.pieces[0], Scan(s.pieces[1..], s.tail);
      assert s == Push(piece, rest);
      PushIsScan(piece, rest);
      ScanRoundTrip(rest);
      FirstMarker(piece.prefix, piece.marker, Raw(rest));
      hide FirstPiece, After, Raw, IsScan, Closed;
    }
  }

  // ----- cleaning and citing

  predicate EndsLine(rest: string) {
    rest == "" || rest[0] == '\n' || rest[0] == '\r'
  }

  /** What a piece leaves in the cleaned text: a malformed marker stays, a citation goes, and
      at the end of a line the blanks before it go too. */
  function Written(piece: Piece, rest: string): string {
    if Refs(piece.marker).None? then piece.prefix + piece.marker
    else if EndsLine(rest) then TrimBlanks(piece.prefix)
    else piece.prefix
  }

  function CleanOf(text: string): string
    decreases |text|
  {
    match FirstPiece(text)
    case None => text
    case Some(piece) => Written(piece, After(text, piece)) + CleanOf(After(text, piece))
  }

  function Cite(marker: string, at: nat, resolve: seq<string> -> seq<Source>): seq<Citation> {
    match Refs(marker)
    case None => []
    case Some(refs) => [Citation(at, at, SourcesForRefs(refs, resolve(refs)))]
  }

  /** The citations of a text whose cleaned form starts at `offset`. */
  function CitesOf(text: string, offset: nat, resolve: seq<string> -> seq<Source>): seq<Citation>
    decreases |text|
  {
    match FirstPiece(text)
    case None => []
    case Some(piece) =>
      var at := offset + Size(Written(piece, After(text, piece)));
      Cite(piece.marker, at, resolve) + CitesOf(After(text, piece), at, resolve)
  }

  /** The references of the well-formed markers, in order. */
  function Cited(pieces: seq<Piece>): seq<seq<string>> {
    if pieces == [] then []
    else
      match Refs(pieces[0].marker)
      case None => Cited(pieces[1..])
      case Some(refs) => [refs] + Cited(pieces[1..])
  }

  lemma Unfolds(text: string, piece: Piece, offset: nat, resolve: seq<string> -> seq<Source>)
    requires FirstPiece(text) == Some(piece)
    ensures var rest := After(text, piece);
      var written := Written(piece, rest);
      && ScanOf(text) == Push(piece, ScanOf(rest))
      && CleanOf(text) == written + CleanOf(rest)
      && CitesOf(text, offset, resolve) == Cite(piece.marker, offset + Size(written), resolve) + CitesOf(rest, offset + Size(written), resolve)
  {
    hide FirstPiece, After, Written, Cite;
  }

  lemma UnfoldsLast(text: string, offset: nat, resolve: seq<string> -> seq<Source>)
    requires FirstPiece(text).None?
    ensures ScanOf(text) == Scan([], text) && CleanOf(text) == text && CitesOf(text, offset, resolve) == []
  {
  }

  lemma CitedPush(piece: Piece, rest: Scan)
    ensures Cited(Push(piece, rest).pieces) ==
            if Refs(piece.marker).Some? then [Refs(piece.marker).value] + Cited(rest.pieces) else Cited(rest.pieces)
  {
  }

  /** One citation for every well-formed marker, in order and with its sources. */
  ghost predicate Answers(cites: seq<Citation>, cited: seq<seq<string>>, resolve: seq<string> -> seq<Source>) {
    && |cites| == |cited|
    && forall i :: 0 <= i < |cites| ==> cites[i].sources == SourcesForRefs(cited[i], resolve(cited[i])) && cites[i].sources != []
  }

  lemma AnswersNone(resolve: seq<string> -> seq<Source>)
    ensures Answers([], Cited([]), resolve)
  {
  }

  lemma AnswersOne(refs: seq<string>, at: nat, cites: seq<Citation>, cited: seq<seq<string>>, resolve: seq<string> -> seq<Source>)
    requires Answers(cites, cited, resolve) && SourcesForRefs(refs, resolve(refs)) != []
    ensures Answers([Citation(at, at, SourcesForRefs(refs, resolve(refs)))] + cites, [refs] + cited, resolve)
  {
    hide SourcesForRefs;
  }

  lemma {:induction false} AnswersCons(marker: string, at: nat, cites: seq<Citation>, cited: seq<seq<string>>, resolve: seq<string> -> seq<Source>)
    requires Answers(cites, cited, resolve)
    ensures Answers(Cite(marker, at, resolve) + cites, if Refs(marker).Some? then [Refs(marker).value] + cited else cited, resolve)
  {
    hide SourcesForRefs, Refs, Answers;
    match Refs(marker)
    case None =>
      assert [] + cites == cites;
    case Some(refs) =>
      AlwaysASource(refs, resolve(refs));
      AnswersOne(refs, at, cites, cited, resolve);
  }

  lemma {:induction false} OneCitationPerMarker(text: string, offset: nat, resolve: seq<string> -> seq<Source>)
    ensures Answers(CitesOf(text, offset, resolve), Cited(ScanOf(text).pieces), resolve)
    decreases |text|
  {
    hide *;
    match FirstPiece(text)
    case None =>
      UnfoldsLast(text, offset, resolve);
      AnswersNone(resolve);
    case Some(piece) =>
      var rest := After(text, piece);
      var at := offset + Size(Written(piece, rest));
      Unfolds(text, piece, offset, resolve);
      OneCitationPerMarker(rest, at, resolve);
      CitedPush(piece, ScanOf(rest));
      AnswersCons(piece.marker, at, CitesOf(rest, at, resolve), Cited(ScanOf(rest).pieces), resolve);
  }

  /** The citation is a point between two characters of a text that starts at `offset`. */
  ghost predicate PointOf(c: Citation, offset: int, clean: string) {
    c.start == c.end && Boundary(clean, c.start - offset)
  }

  /** Citations are such points, from left to right. */
  ghost predicate Points(cites: seq<Citation>, offset: int, clean: string) {
    && (forall i :: 0 <= i < |cites| ==> PointOf(cites[i], offset, clean))
    && (forall i, j :: 0 <= i < j < |cites| ==> cites[i].start <= cites[j].start)
  }

  lemma PointShifts(c: Citation, offset: int, written: string, clean: string)
    requires PointOf(c, offset + Size(written), clean)
    ensures PointOf(c, offset, written + clean) && c.start >= offset + Size(written)
  {
    BoundaryRange(clean, c.start - offset - Size(written));
    BoundaryShifts(written, clean, "", c.start - offset - Size(written));
    assert written + clean + "" == written + clean;
  }

  lemma PointsShift(cites: seq<Citation>, offset: int, written: string, clean: string)
    requires Points(cites, offset + Size(written), clean)
    ensures Points(cites, offset, written + clean)
    ensures forall i :: 0 <= i < |cites| ==> cites[i].start >= offset + Size(written)
  {
    hide PointOf;
    forall i | 0 <= i < |cites|
      ensures PointOf(cites[i], offset, written + clean) && cites[i].start >= offset + Size(written)
    {
      PointShifts(cites[i], offset, written, clean);
    }
  }

  lemma PointAfter(at: nat, sources: seq<Source>, offset: int, written: string, clean: string)
    requires at == offset + Size(written)
    ensures PointOf(Citation(at, at, sources), offset, written + clean)
  {
    assert (written + clean)[..|written|] == written;
    BoundaryAt(written + clean, |written|);
  }

  lemma PointsOne(c: Citation, cites: seq<Citation>, offset: int, clean: string)
    requires PointOf(c, offset, clean) && Points(cites, offset, clean) && forall i :: 0 <= i < |cites| ==> cites[i].start >= c.start
    ensures Points([c] + cites, offset, clean)
  {
    hide PointOf;
  }

  lemma PointsCons(marker: string, cites: seq<Citation>, offset: nat, written: string, clean: string, resolve: seq<string> -> seq<Source>)
    requires Points(cites, offset + Size(written), clean)
    ensures Points(Cite(marker, offset + Size(written), resolve) + cites, offset, written + clean)
  {
    hide Refs, SourcesForRefs, Points, PointOf, Size;
    PointsShift(cites, offset, written, clean);
    match Refs(marker)
    case None =>
      assert [] + cites == cites;
    case Some(refs) =>
      var at, sources := offset + Size(written), SourcesForRefs(refs, resolve(refs));
      PointAfter(at, sources, offset, written, clean);
      PointsOne(Citation(at, at, sources), cites, offset, written + clean);
  }

  lemma PointsNone(offset: int, clean: string)
    ensures Points([], offset, clean)
  {
  }

  lemma {:induction false} CitationsInRange(text: string, offset: nat, resolve: seq<string> -> seq<Source>)
    ensures Points(CitesOf(text, offset, resolve), offset, CleanOf(text))
    decreases |text|
  {
    hide *;
    match FirstPiece(text)
    case None =>
      UnfoldsLast(text, offset, resolve);
      PointsNone(offset, CleanOf(text));
    case Some(piece) =>
      var rest := After(text, piece);
      var written := Written(piece, rest);
      Unfolds(text, piece, offset, resolve);
      CitationsInRange(rest, offset + Size(written), resolve);
      PointsCons(piece.marker, CitesOf(rest, offset + Size(written), resolve), offset, written, CleanOf(rest), resolve);
  }

  // ----- what the cleaned text is made of

  predicate IsBlank(c: char) {
    c == ' ' || c == '\t'
  }

  /** The trailing blanks and tabs are missing, and nothing else. */
  ghost predicate BlanksCut(prefix: string, out: string) {
    && out <= prefix
    && (forall i :: |out| <= i < |prefix| ==> IsBlank(prefix[i]))
    && (out != "" ==> !IsBlank(out[|out| - 1]))
  }

  /** What a piece contributes: all of it if its marker is malformed, otherwise its prefix, which
      is cut only where the marker ends a line. */
  ghost predicate Contributes(piece: Piece, rest: string, out: string) {
    if Refs(piece.marker).None? then out == piece.prefix + piece.marker
    else if rest == "" || rest[0] == '\n' || rest[0] == '\r' then BlanksCut(piece.prefix, out)
    else out == piece.prefix
  }

  function Flat(parts: seq<string>): string {
    if parts == [] then "" else parts[0] + Flat(parts[1..])
  }

  /** The text behind a piece. */
  function Behind(s: Scan, i: nat): string
    requires i < |s.pieces|
  {
    Raw(Scan(s.pieces[i + 1..], s.tail))
  }

  /** The cleaned text is the contributions in order and then the tail. */
  ghost predicate Assembles(s: Scan, outs: seq<string>, clean: string) {
    && |outs| == |s.pieces|
    && (forall i :: 0 <= i < |outs| ==> Contributes(s.pieces[i], Behind(s, i), outs[i]))
    && clean == Flat(outs) + s.tail
  }

  /** Citation `j` stands right behind the contribution of the piece whose marker it comes from. */
  ghost predicate StandsAt(s: Scan, outs: seq<string>, cites: seq<Citation>, offset: nat) {
    && |outs| == |s.pieces|
    && StandAt(Marks(s.pieces), outs, cites, offset)
  }

  ghost predicate StandAt(marks: seq<nat>, outs: seq<string>, cites: seq<Citation>, offset: nat) {
    && |cites| == |marks|
    && forall j :: 0 <= j < |cites| ==> marks[j] < |outs| && IsPoint(cites[j], offset + Size(Flat(outs[..marks[j] + 1])))
  }

  predicate IsPoint(c: Citation, at: int) {
    c.start == c.end == at
  }

  /** The indices of the pieces with a well-formed marker, in order. */
  function Marks(pieces: seq<Piece>): seq<nat> {
    if pieces == [] then []
    else
      var later := Later(Marks(pieces[1..]));
      if Refs(pieces[0].marker).Some? then [0] + later else later
  }

  function Later(marks: seq<nat>): (r: seq<nat>)
    ensures |r| == |marks| && forall j :: 0 <= j < |r| ==> r[j] == marks[j] + 1
  {
    seq(|marks|, j requires 0 <= j < |marks| => marks[j] + 1)
  }

  /** They are exactly those, in increasing order. */
  lemma {:induction false} MarksExactly(pieces: seq<Piece>)
    ensures forall j, k :: 0 <= j < k < |Marks(pieces)| ==> Marks(pieces)[j] < Marks(pieces)[k]
    ensures forall i: nat :: i in Marks(pieces) <==> i < |pieces| && Refs(pieces[i].marker).Some?
  {
    hide Refs;
    if pieces == [] {
    } else {
      MarksExactly(pieces[1..]);
      var rest, marks := Marks(pieces[1..]), Marks(pieces);
      forall i: nat
        ensures i in marks <==> i < |pieces| && Refs(pieces[i].marker).Some?
      {
        assert i > 0 ==> (i in Later(rest) <==> i - 1 in rest) by {
          if i > 0 && i - 1 in rest {
            var j :| 0 <= j < |rest| && rest[j] == i - 1;
            assert Later(rest)[j] == i;
          }
        }
      }
    }
  }

  lemma {:induction false} TrimBlanksCuts(s: string)
    ensures BlanksCut(s, TrimBlanks(s))
  {
    if s == [] || !IsBlank(s[|s| - 1]) {
    } else {
      TrimBlanksCuts(s[..|s| - 1]);
    }
  }

  lemma WrittenContributes(piece: Piece, rest: string)
    ensures Contributes(piece, rest, Written(piece, rest))
  {
    hide Refs, TrimBlanks;
    TrimBlanksCuts(piece.prefix);
  }

  lemma AssemblesPush(piece: Piece, rest: Scan, out: string, outs: seq<string>, clean: string)
    requires Assembles(rest, outs, clean) && Contributes(piece, Raw(rest), out)
    ensures Assembles(Push(piece, rest), [out] + outs, out + clean)
  {
    hide Contributes, Raw;
    var s, all := Push(piece, rest), [out] + outs;
    assert s.pieces[1..] == rest.pieces && all[1..] == outs;
    forall i | 0 <= i < |all|
      ensures Contributes(s.pieces[i], Behind(s, i), all[i])
    {
      if i > 0 {
        assert s.pieces[i + 1..] == rest.pieces[i..] && s.pieces[i] == rest.pieces[i - 1];
        assert Contributes(rest.pieces[i - 1], Behind(rest, i - 1), outs[i - 1]);
      } else {
        assert Scan(s.pieces[1..], s.tail) == rest;
      }
    }
    assert Flat(all) == out + Flat(outs);
    assert out + Flat(outs) + s.tail == out + (Flat(outs) + rest.tail);
  }

  lemma FlatPush(out: string, outs: seq<string>, k: nat)
    requires k < |outs|
    ensures Size(Flat(([out] + outs)[..k + 2])) == Size(out) + Size(Flat(outs[..k + 1]))
  {
    var all := [out] + outs;
    assert all[..k + 2] == [out] + outs[..k + 1];
    assert all[..k + 2][1..] == outs[..k + 1];
    SizeJoins(out, Flat(outs[..k + 1]));
    hide Size;
  }

  lemma MarksPush(piece: Piece, rest: Scan)
    ensures Marks(Push(piece, rest).pieces) == if Refs(piece.marker).Some? then [0] + Later(Marks(rest.pieces)) else Later(Marks(rest.pieces))
  {
    hide Refs;
    assert Push(piece, rest).pieces[1..] == rest.pieces;
  }

  lemma StandLater(marks: seq<nat>, out: string, outs: seq<string>, cites: seq<Citation>, offset: nat)
    requires StandAt(marks, outs, cites, offset + Size(out))
    ensures StandAt(Later(marks), [out] + outs, cites, offset)
  {
    hide Size, Flat;
    forall j | 0 <= j < |cites|
      ensures IsPoint(cites[j], offset + Size(Flat(([out] + outs)[..marks[j] + 2])))
    {
      FlatPush(out, outs, marks[j]);
    }
  }

  lemma StandFirst(marks: seq<nat>, out: string, outs: seq<string>, c: Citation, cites: seq<Citation>, offset: nat)
    requires StandAt(marks, [out] + outs, cites, offset) && IsPoint(c, offset + Size(out))
    ensures StandAt([0] + marks, [out] + outs, [c] + cites, offset)
  {
    assert [out][1..] == [] && out + "" == out;
    assert Flat([out]) == out;
    hide Size, Flat;
    assert ([out] + outs)[..1] == [out];
  }

  lemma StandsPush(piece: Piece, rest: Scan, out: string, outs: seq<string>, cites: seq<Citation>, offset: nat, resolve: seq<string> -> seq<Source>)
    requires StandsAt(rest, outs, cites, offset + Size(out))
    ensures StandsAt(Push(piece, rest), [out] + outs, Cite(piece.marker, offset + Size(out), resolve) + cites, offset)
  {
    hide Refs, SourcesForRefs, Size, StandAt, Marks, Later;
    MarksPush(piece, rest);
    StandLater(Marks(rest.pieces), out, outs, cites, offset);
    match Refs(piece.marker)
    case None =>
      assert [] + cites == cites;
    case Some(refs) =>
      var at := offset + Size(out);
      StandFirst(Later(Marks(rest.pieces)), out, outs, Citation(at, at, SourcesForRefs(refs, resolve(refs))), cites, offset);
  }

  /** The cleaned text, told from the pieces of the text alone: prefixes, malformed markers and
      the tail, with blanks missing only before a citation that ends its line; and citation `j`
      lies at the size of everything kept before its marker. */
  lemma {:induction false} CleanIsAssembled(text: string, offset: nat, resolve: seq<string> -> seq<Source>) returns (outs: seq<string>)
    ensures Assembles(ScanOf(text), outs, CleanOf(text))
    ensures StandsAt(ScanOf(text), outs, CitesOf(text, offset, resolve), offset)
    decreases |text|
  {
    ScanOfIsScan(text);
    hide *;
    match FirstPiece(text)
    case None =>
      UnfoldsLast(text, offset, resolve);
      AssemblesNone(text, offset);
      outs := [];
    case Some(piece) =>
      var rest := After(text, piece);
      var written := Written(piece, rest);
      Unfolds(text, piece, offset, resolve);
      ScanOfIsScan(rest);
      outs := CleanIsAssembled(rest, offset + Size(written), resolve);
      WrittenContributes(piece, rest);
      AssemblesPush(piece, ScanOf(rest), written, outs, CleanOf(rest));
      StandsPush(piece, ScanOf(rest), written, outs, CitesOf(rest, offset + Size(written), resolve), offset, resolve);
      outs := [written] + outs;
  }

  lemma AssemblesNone(text: string, offset: nat)
    ensures Assembles(Scan([], text), [], text) && StandsAt(Scan([], text), [], [], offset)
  {
    assert "" + text == text;
  }

  // ----- parsing again

  /** What is left to scan: malformed markers, with the text that ran together before them. */
  function Residue(text: string, before: string): Scan
    decreases |text|
  {
    match FirstPiece(text)
    case None => Scan([], before + text)
    case Some(piece) =>
      var rest := After(text, piece);
      if Refs(piece.marker).None? then Push(Piece(before + piece.prefix, piece.marker), Residue(rest, ""))
      else Residue(rest, before + Written(piece, rest))
  }

  ghost predicate NoCitation(s: Scan) {
    forall i :: 0 <= i < |s.pieces| ==> Refs(s.pieces[i].marker).None?
  }

  lemma UnclosedAfter(before: string, text: string)
    requires START !in before && Unclosed(text)
    ensures Unclosed(before + text)
  {
  }

  lemma NoCitationPush(piece: Piece, rest: Scan)
    requires NoCitation(rest) && Refs(piece.marker).None?
    ensures NoCitation(Push(piece, rest))
  {
  }

  lemma WrittenPlain(piece: Piece, rest: string)
    requires START !in piece.prefix && Refs(piece.marker).Some?
    ensures START !in Written(piece, rest)
  {
  }

  lemma ResidueUnfolds(text: string, before: string)
    ensures match FirstPiece(text)
      case None => Residue(text, before) == Scan([], before + text)
      case Some(piece) =>
        var rest := After(text, piece);
        Residue(text, before) ==
          if Refs(piece.marker).None? then Push(Piece(before + piece.prefix, piece.marker), Residue(rest, ""))
          else Residue(rest, before + Written(piece, rest))
  {
  }

  lemma TailIsScan(tail: string)
    requires Unclosed(tail)
    ensures IsScan(Scan([], tail)) && NoCitation(Scan([], tail)) && Raw(Scan([], tail)) == tail
  {
  }

  lemma Joins(a: string, b: string, c: string, d: string)
    ensures a + (b + c + d) == a + b + c + d && "" + d == d && a + (b + d) == a + b + d
  {
  }

  /** The cleaned text is made of malformed markers and plain text. */
  lemma {:induction false} ResidueIsClean(text: string, before: string)
    requires START !in before
    ensures IsScan(Residue(text, before)) && NoCitation(Residue(text, before)) && Raw(Residue(text, before)) == before + CleanOf(text)
    decreases |text|
  {
    FirstPieceCuts(text);
    ResidueUnfolds(text, before);
    hide *;
    match FirstPiece(text)
    case None =>
      UnfoldsLast(text, 0, _ => []);
      UnclosedAfter(before, text);
      TailIsScan(before + text);
    case Some(piece) =>
      var rest := After(text, piece);
      Unfolds(text, piece, 0, _ => []);
      if Refs(piece.marker).None? {
        Uncited(piece, rest, 0, _ => []);
        ResidueIsClean(rest, "");
        PushIsScan(Piece(before + piece.prefix, piece.marker), Residue(rest, ""));
        NoCitationPush(Piece(before + piece.prefix, piece.marker), Residue(rest, ""));
        Joins(before, piece.prefix, piece.marker, CleanOf(rest));
      } else {
        WrittenPlain(piece, rest);
        ResidueIsClean(rest, before + Written(piece, rest));
        Joins(before, Written(piece, rest), "", CleanOf(rest));
      }
  }

  lemma NoCitationSplit(piece: Piece, rest: Scan)
    requires NoCitation(Push(piece, rest))
    ensures Refs(piece.marker).None? && NoCitation(rest)
  {
    var s := Push(piece, rest);
    assert s.pieces[0] == piece;
    assert forall i :: 0 <= i < |rest.pieces| ==> s.pieces[i + 1] == rest.pieces[i];
    hide Refs;
  }

  lemma Uncited(piece: Piece, rest: string, at: nat, resolve: seq<string> -> seq<Source>)
    requires Refs(piece.marker).None?
    ensures Written(piece, rest) == piece.prefix + piece.marker && Cite(piece.marker, at, resolve) == []
  {
  }

  lemma {:induction false} NothingToCite(text: string, offset: nat, resolve: seq<string> -> seq<Source>)
    requires NoCitation(ScanOf(text))
    ensures CleanOf(text) == text && CitesOf(text, offset, resolve) == []
    decreases |text|
  {
    FirstPieceCuts(text);
    hide *;
    match FirstPiece(text)
    case None =>
      UnfoldsLast(text, offset, resolve);
    case Some(piece) =>
      var rest := After(text, piece);
      var at := offset + Size(Written(piece, rest));
      Unfolds(text, piece, offset, resolve);
      NoCitationSplit(piece, ScanOf(rest));
      Uncited(piece, rest, at, resolve);
      NothingToCite(rest, at, resolve);
  }

  /** Parsing the cleaned text again changes nothing and finds nothing. */
  lemma {:induction false} ParseAgain(text: string, resolve: seq<string> -> seq<Source>)
    ensures CleanOf(CleanOf(text)) == CleanOf(text) && CitesOf(CleanOf(text), 0, resolve) == []
  {
    ResidueIsClean(text, "");
    var s := Residue(text, "");
    assert "" + CleanOf(text) == CleanOf(text);
    ScanRoundTrip(s);
    hide *;
    NothingToCite(CleanOf(text), 0, resolve);
  }

  // ----- normalising citations

  predicate InText(text: string, c: Citation) {
    ValidOffset(text, c.start) && ValidOffset(text, c.end) && c.start <= c.end
  }

  lemma InTextExactly(text: string, c: Citation)
    ensures InText(text, c) <==> Boundary(text, c.start) && Boundary(text, c.end) && c.start <= c.end
  {
    ValidExactly(text, c.start);
    ValidExactly(text, c.end);
  }

  /** Valid ranges with their sources normalised, in the order given. */
  function Kept(text: string, citations: seq<Citation>): seq<Citation> {
    if citations == [] then []
    else
      var before, c := Kept(text, citations[..|citations| - 1]), citations[|citations| - 1];
      var sources := NormalSources(c.sources);
      if InText(text, c) && sources != [] then before + [c.(sources := sources)] else before
  }

  /** A citation that survives: its range is valid and it has a source. */
  predicate Survives(text: string, c: Citation) {
    InText(text, c) && NormalSources(c.sources) != []
  }

  lemma KeptUnfolds(text: string, citations: seq<Citation>)
    requires citations != []
    ensures var n := |citations| - 1;
      Kept(text, citations) == Kept(text, citations[..n]) +
        if Survives(text, citations[n]) then [Normalised(citations[n])] else []
  {
    hide NormalSources, InText;
  }

  function Normalised(c: Citation): Citation {
    c.(sources := NormalSources(c.sources))
  }

  /** What is kept are exactly those, in the order given. */
  lemma {:induction false} KeptExactly(text: string, citations: seq<Citation>) returns (at: seq<nat>)
    ensures |at| == |Kept(text, citations)| && Ascending(at)
    ensures forall k :: 0 <= k < |at| ==> at[k] < |citations| && Kept(text, citations)[k] == Normalised(citations[at[k]])
    ensures forall i: nat :: i in at <==> i < |citations| && Survives(text, citations[i])
  {
    if citations == [] {
      at := [];
    } else {
      var n := |citations| - 1;
      KeptUnfolds(text, citations);
      hide Kept, Survives, Normalised, Ascending;
      at := KeptExactly(text, citations[..n]);
      assert forall i :: 0 <= i < n ==> citations[..n][i] == citations[i];
      Extend(at, n);
      if Survives(text, citations[n]) {
        at := at + [n];
      }
    }
  }

  predicate NotAfter(a: Citation, b: Citation) {
    a.start < b.start || (a.start == b.start && a.end <= b.end)
  }

  /** Stable insertion: behind everything that is not after it. */
  function Insert(sorted: seq<Citation>, c: Citation): seq<Citation> {
    if sorted == [] || NotAfter(sorted[|sorted| - 1], c) then sorted + [c]
    else Insert(sorted[..|sorted| - 1], c) + [sorted[|sorted| - 1]]
  }

  function Sort(citations: seq<Citation>): seq<Citation> {
    if citations == [] then [] else Insert(Sort(citations[..|citations| - 1]), citations[|citations| - 1])
  }

  function NormalizeCitations(text: string, citations: seq<Citation>): seq<Citation> {
    Sort(Kept(text, citations))
  }

  ghost predicate InOrder(citations: seq<Citation>) {
    forall i, j :: 0 <= i < j < |citations| ==> NotAfter(citations[i], citations[j])
  }

  lemma {:induction false} InsertMembers(sorted: seq<Citation>, c: Citation)
    ensures multiset(Insert(sorted, c)) == multiset(sorted) + multiset{c}
    ensures forall x :: x in Insert(sorted, c) ==> x in sorted || x == c
  {
    hide NotAfter;
    if sorted != [] && !NotAfter(sorted[|sorted| - 1], c) {
      var n := |sorted| - 1;
      InsertMembers(sorted[..n], c);
      assert sorted == sorted[..n] + [sorted[n]];
    }
  }

  lemma OrderedSnoc(sorted: seq<Citation>, last: Citation)
    requires InOrder(sorted) && forall x :: x in sorted ==> NotAfter(x, last)
    ensures InOrder(sorted + [last])
  {
  }

  lemma OrderedInit(sorted: seq<Citation>)
    requires InOrder(sorted) && sorted != []
    ensures var n := |sorted| - 1; InOrder(sorted[..n]) && forall x :: x in sorted[..n] ==> NotAfter(x, sorted[n])
  {
  }

  lemma {:induction false} InsertOrdered(sorted: seq<Citation>, c: Citation)
    requires InOrder(sorted)
    ensures InOrder(Insert(sorted, c))
  {
    if sorted == [] {
      assert Insert(sorted, c) == [c];
    } else {
      var n := |sorted| - 1;
      OrderedInit(sorted);
      hide InOrder;
      if NotAfter(sorted[n], c) {
        assert sorted == sorted[..n] + [sorted[n]];
        OrderedSnoc(sorted, c);
      } else {
        InsertOrdered(sorted[..n], c);
        InsertMembers(sorted[..n], c);
        OrderedSnoc(Insert(sorted[..n], c), sorted[n]);
      }
    }
  }

  /** Document order, nothing lost. */
  lemma {:induction false} SortOrders(citations: seq<Citation>)
    ensures InOrder(Sort(citations)) && multiset(Sort(citations)) == multiset(citations)
  {
    if citations == [] {
    } else {
      var n := |citations| - 1;
      SortOrders(citations[..n]);
      InsertOrdered(Sort(citations[..n]), citations[n]);
      InsertMembers(Sort(citations[..n]), citations[n]);
      hide InOrder, Insert, Sort;
      assert citations == citations[..n] + [citations[n]];
      SortUnfolds(citations);
    }
  }

  /** The citations of one range, in order. */
  function Ranged(citations: seq<Citation>, start: int, end: int): seq<Citation> {
    if citations == [] then []
    else
      var before, last := Ranged(citations[..|citations| - 1], start, end), citations[|citations| - 1];
      if last.start == start && last.end == end then before + [last] else before
  }

  lemma RangedSnoc(citations: seq<Citation>, c: Citation, start: int, end: int)
    ensures Ranged(citations + [c], start, end) ==
            if c.start == start && c.end == end then Ranged(citations, start, end) + [c] else Ranged(citations, start, end)
  {
    assert (citations + [c])[..|citations|] == citations;
  }

  lemma {:induction false} InsertRanged(sorted: seq<Citation>, c: Citation, start: int, end: int)
    requires InOrder(sorted)
    ensures Ranged(Insert(sorted, c), start, end) == Ranged(sorted + [c], start, end)
  {
    if sorted == [] || NotAfter(sorted[|sorted| - 1], c) {
    } else {
      var n := |sorted| - 1;
      var init, last := sorted[..n], sorted[n];
      assert sorted == init + [last];
      InsertRanged(init, c, start, end);
      hide Ranged, Insert, InOrder;
      InsertUnfolds(sorted, c);
      RangedSnoc(Insert(init, c), last, start, end);
      RangedSnoc(init, c, start, end);
      RangedSnoc(init, last, start, end);
      RangedSnoc(sorted, c, start, end);
    }
  }

  lemma InsertUnfolds(sorted: seq<Citation>, c: Citation)
    requires sorted != [] && !NotAfter(sorted[|sorted| - 1], c)
    ensures Insert(sorted, c) == Insert(sorted[..|sorted| - 1], c) + [sorted[|sorted| - 1]]
  {
  }

  lemma SortInOrder(citations: seq<Citation>)
    ensures InOrder(Sort(citations))
  {
    SortOrders(citations);
  }

  /** Sorting is stable: citations of one range keep their order. */
  lemma {:induction false} SortIsStable(citations: seq<Citation>, start: int, end: int)
    ensures Ranged(Sort(citations), start, end) == Ranged(citations, start, end)
  {
    if citations == [] {
    } else {
      SortIsStable(citations[..|citations| - 1], start, end);
      StableSnoc(citations[..|citations| - 1], citations[|citations| - 1], start, end);
      assert citations == citations[..|citations| - 1] + [citations[|citations| - 1]];
    }
  }

  lemma StableSnoc(init: seq<Citation>, c: Citation, start: int, end: int)
    requires Ranged(Sort(init), start, end) == Ranged(init, start, end)
    ensures Ranged(Sort(init + [c]), start, end) == Ranged(init + [c], start, end)
  {
    hide *;
    SortInOrder(init);
    InsertRanged(Sort(init), c, start, end);
    SortUnfolds(init + [c]);
    assert (init + [c])[..|init|] == init && (init + [c])[|init|] == c;
    RangedSnoc(Sort(init), c, start, end);
    RangedSnoc(init, c, start, end);
  }

  lemma SortUnfolds(citations: seq<Citation>)
    requires citations != []
    ensures Sort(citations) == Insert(Sort(citations[..|citations| - 1]), citations[|citations| - 1])
  {
  }

  lemma {:induction false} SortedStays(citations: seq<Citation>)
    requires InOrder(citations)
    ensures Sort(citations) == citations
  {
    if citations == [] {
    } else {
      var n := |citations| - 1;
      SortedStays(citations[..n]);
      assert citations == citations[..n] + [citations[n]];
    }
  }

  lemma {:induction false} AllKept(text: string, citations: seq<Citation>)
    requires forall i :: 0 <= i < |citations| ==> InText(text, citations[i]) && Normal(citations[i].sources) && citations[i].sources != []
    ensures Kept(text, citations) == citations
  {
    hide Normal, NormalSources, InText;
    if citations == [] {
    } else {
      var n := |citations| - 1;
      AllKept(text, citations[..n]);
      NormalStays(citations[n].sources);
      assert citations == citations[..n] + [citations[n]];
    }
  }

  lemma {:induction false} KeptInText(text: string, citations: seq<Citation>)
    ensures forall c :: c in Kept(text, citations) ==> InText(text, c) && c.sources != []
  {
    hide NormalSources, ValidOffset;
    if citations == [] {
    } else {
      KeptInText(text, citations[..|citations| - 1]);
    }
  }

  lemma Lexicographic(r: seq<Citation>)
    requires InOrder(r)
    ensures forall i, j :: 0 <= i < j < |r| ==> r[i].start < r[j].start || (r[i].start == r[j].start && r[i].end <= r[j].end)
  {
    assert forall i, j :: 0 <= i < j < |r| ==> NotAfter(r[i], r[j]);
  }

  /** Every normalised citation lies in its text. */
  lemma {:induction false} NormalizedInText(text: string, citations: seq<Citation>)
    ensures InOrder(NormalizeCitations(text, citations))
    ensures var r := NormalizeCitations(text, citations);
      forall i, j :: 0 <= i < j < |r| ==> r[i].start < r[j].start || (r[i].start == r[j].start && r[i].end <= r[j].end)
    ensures forall c :: c in NormalizeCitations(text, citations) ==> InText(text, c) && c.sources != []
  {
    KeptInText(text, citations);
    SortOrders(Kept(text, citations));
    Lexicographic(Sort(Kept(text, citations)));
    hide Kept, Sort, InText;
    forall c | c in NormalizeCitations(text, citations)
      ensures InText(text, c) && c.sources != []
    {
      assert c in multiset(Sort(Kept(text, citations)));
    }
  }

  lemma SourcesAreNormal(refs: seq<string>, resolved: seq<Source>)
    ensures Normal(SourcesForRefs(refs, resolved))
  {
    var (out, used) := Assign(refs, resolved);
    NormalSourcesNormal(out + Unused(resolved, used, |resolved|));
  }

  lemma PointsOrdered(cites: seq<Citation>, clean: string)
    requires Points(cites, 0, clean)
    ensures InOrder(cites)
  {
    hide Boundary;
    forall i | 0 <= i < |cites|
      ensures cites[i].start == cites[i].end
    {
      assert PointOf(cites[i], 0, clean);
    }
  }

  lemma CitationKept(clean: string, cites: seq<Citation>, cited: seq<seq<string>>, resolve: seq<string> -> seq<Source>, i: nat)
    requires Answers(cites, cited, resolve) && Points(cites, 0, clean) && i < |cites|
    ensures InText(clean, cites[i]) && Normal(cites[i].sources) && cites[i].sources != []
  {
    assert PointOf(cites[i], 0, clean);
    InTextExactly(clean, cites[i]);
    SourcesAreNormal(cited[i], resolve(cited[i]));
    hide SourcesForRefs, Normal, Boundary, InText;
  }

  lemma CitationsKept(clean: string, cites: seq<Citation>, cited: seq<seq<string>>, resolve: seq<string> -> seq<Source>)
    requires Answers(cites, cited, resolve) && Points(cites, 0, clean)
    ensures NormalizeCitations(clean, cites) == cites
  {
    PointsOrdered(cites, clean);
    hide Answers, Points, Normal, InOrder, InText, Sort, Kept;
    forall i: nat | i < |cites|
      ensures InText(clean, cites[i]) && Normal(cites[i].sources) && cites[i].sources != []
    {
      CitationKept(clean, cites, cited, resolve, i);
    }
    AllKept(clean, cites);
    SortedStays(cites);
  }

  /** Normalising drops and moves none of the parsed citations. */
  lemma {:induction false} NothingDropped(text: string, resolve: seq<string> -> seq<Source>)
    ensures NormalizeCitations(CleanOf(text), CitesOf(text, 0, resolve)) == CitesOf(text, 0, resolve)
  {
    hide *;
    OneCitationPerMarker(text, 0, resolve);
    CitationsInRange(text, 0, resolve);
    CitationsKept(CleanOf(text), CitesOf(text, 0, resolve), Cited(ScanOf(text).pieces), resolve);
  }

  lemma NoStart(text: string)
    requires Find(text, START).None?
    ensures FirstPiece(text) == None
  {
  }

  /** Removes the well-formed markers and returns a citation for each. */
  method ParseCitationMarkers(text: string, resolve: seq<string> -> seq<Source>) returns (cleanText: string, citations: seq<Citation>)
    ensures cleanText == CleanOf(text) && citations == CitesOf(text, 0, resolve)
    ensures exists outs :: Assembles(ScanOf(text), outs, cleanText) && StandsAt(ScanOf(text), outs, citations, 0)
  {
    hide *;
    ghost var outs := CleanIsAssembled(text, 0, resolve);
    SizeOfNone();
    NothingDropped(text, resolve);
    if Find(text, START).None? {
      NoStart(text);
      UnfoldsLast(text, 0, resolve);
      return text, [];
    }
    var remaining: string, clean: string, found: seq<Citation> := text, "", [];
    var done := false;
    while !done
      invariant clean + CleanOf(remaining) == CleanOf(text)
      invariant found + CitesOf(remaining, Size(clean), resolve) == CitesOf(text, 0, resolve)
      invariant done ==> remaining == "" && clean == CleanOf(text) && found == CitesOf(text, 0, resolve)
      decreases !done, |remaining|
    {
      var first := NextPiece(remaining);
      if first.None? {
        UnfoldsLast(remaining, Size(clean), resolve);
        clean, remaining, done := clean + remaining, "", true;
        UnfoldsEmpty(Size(clean), resolve);
      } else {
        var piece := first.value;
        var rest := After(remaining, piece);
        Unfolds(remaining, piece, Size(clean), resolve);
        var written, cite := WritePiece(piece, rest, Size(clean), resolve);
        Regroups(clean, written, CleanOf(rest));
        SizeJoins(clean, written);
        Regroups(found, cite, CitesOf(rest, Size(clean) + Size(written), resolve));
        clean, found, remaining := clean + written, found + cite, rest;
      }
    }
    return clean, NormalizeCitations(clean, found);
  }

  lemma Regroups<T>(a: seq<T>, b: seq<T>, c: seq<T>)
    ensures a + (b + c) == a + b + c
  {
  }

  lemma UnfoldsEmpty(offset: nat, resolve: seq<string> -> seq<Source>)
    ensures CleanOf("") == "" && CitesOf("", offset, resolve) == []
  {
  }

  /** The text before the next marker and the marker itself. */
  method NextPiece(remaining: string) returns (first: Option<Piece>)
    ensures first == FirstPiece(remaining)
  {
    var start := Find(remaining, START);
    if start.None? {
      return None;
    }
    var prefix, candidate := remaining[..start.value], remaining[start.value..];
    var end := Find(candidate, END);
    if end.None? {
      return None;
    }
    assert candidate[..end.value + 1] == remaining[start.value..start.value + end.value + 1];
    return Some(Piece(prefix, candidate[..end.value + 1]));
  }

  method WritePiece(piece: Piece, rest: string, at: nat, resolve: seq<string> -> seq<Source>) returns (written: string, cite: seq<Citation>)
    ensures written == Written(piece, rest) && cite == Cite(piece.marker, at + Size(written), resolve)
  {
    hide Refs, SourcesForRefs, TrimBlanks, EndsLine, Size;
    var refs := Refs(piece.marker);
    if refs.None? {
      return piece.prefix + piece.marker, [];
    }
    var prefix := piece.prefix;
    if EndsLine(rest) {
      prefix := TrimBlanks(prefix);
    }
    var sources := CitationSourcesForRefs(refs.value, resolve(refs.value));
    return prefix, [Citation(at + Size(prefix), at + Size(prefix), sources)];
  }

  // ----- joined text

  /** A part of a message: text with citations of its own, or something else. */
  datatype Part = Text(text: string, citations: seq<Citation>) | Other

  /** The text parts that say something. */
  function Texts(parts: seq<Part>): (texts: seq<Part>)
    ensures forall i :: 0 <= i < |texts| ==> texts[i].Text?
  {
    if parts == [] then []
    else
      var before, last := Texts(parts[..|parts| - 1]), parts[|parts| - 1];
      if last.Text? && last.text != "" then before + [last] else before
  }

  function Join(texts: seq<Part>): string
    requires forall i :: 0 <= i < |texts| ==> texts[i].Text?
  {
    if texts == [] then ""
    else
      var n := |texts| - 1;
      if n == 0 then texts[0].text else Join(texts[..n]) + "\n" + texts[n].text
  }

  /** Where the text after the given ones starts. */
  function NextOffset(texts: seq<Part>): nat
    requires forall i :: 0 <= i < |texts| ==> texts[i].Text?
  {
    if texts == [] then 0 else Size(Join(texts)) + 1
  }

  function Shift(citations: seq<Citation>, shift: int): (r: seq<Citation>)
    ensures |r| == |citations|
    ensures forall i :: 0 <= i < |r| ==> r[i] == Citation(citations[i].start + shift, citations[i].end + shift, citations[i].sources)
  {
    if citations == [] then []
    else
      var n := |citations| - 1;
      Shift(citations[..n], shift) + [Citation(citations[n].start + shift, citations[n].end + shift, citations[n].sources)]
  }

  function Shifted(texts: seq<Part>): seq<Citation>
    requires forall i :: 0 <= i < |texts| ==> texts[i].Text?
  {
    if texts == [] then []
    else
      var n := |texts| - 1;
      Shifted(texts[..n]) + Shift(NormalizeCitations(texts[n].text, texts[n].citations), NextOffset(texts[..n]))
  }

  lemma TextsSnoc(parts: seq<Part>, part: Part)
    ensures Texts(parts + [part]) == if part.Text? && part.text != "" then Texts(parts) + [part] else Texts(parts)
  {
  }

  lemma JoinsOn(texts: seq<Part>, part: Part)
    requires (forall i :: 0 <= i < |texts| ==> texts[i].Text?) && part.Text?
    ensures Shifted(texts + [part]) == Shifted(texts) + Shift(NormalizeCitations(part.text, part.citations), NextOffset(texts))
    ensures Size(Join(texts + [part])) == NextOffset(texts) + Size(part.text)
  {
    var all := texts + [part];
    assert all[..|texts|] == texts && all[|texts|] == part;
    JoinSnoc(all);
  }

  lemma NothingJoined()
    ensures Texts([]) == [] && Shifted([]) == [] && Size(Join([])) == 0
  {
  }

  method TextContentCitations(parts: seq<Part>) returns (out: seq<Citation>)
    ensures out == Shifted(Texts(parts))
  {
    NothingJoined();
    hide NormalizeCitations, Shifted, Join, Texts, Shift, Size;
    out := [];
    var offset, textParts := 0, 0;
    for i := 0 to |parts|
      invariant out == Shifted(Texts(parts[..i])) && textParts == |Texts(parts[..i])|
      invariant offset == Size(Join(Texts(parts[..i])))
    {
      var part := parts[i];
      TextsSnoc(parts[..i], part);
      assert parts[..i + 1] == parts[..i] + [part];
      if part.Text? && part.text != "" {
        JoinsOn(Texts(parts[..i]), part);
        if textParts > 0 {
          offset := offset + 1;
        }
        out := out + Shift(NormalizeCitations(part.text, part.citations), offset);
        offset := offset + Size(part.text);
        textParts := textParts + 1;
      }
    }
    assert parts[..|parts|] == parts;
  }

  /** The citation is one of its part's, and selects the same characters of the joined text. */
  ghost predicate Selects(texts: seq<Part>, joined: string, c: Citation)
    requires forall i :: 0 <= i < |texts| ==> texts[i].Text?
  {
    exists k, d :: 0 <= k < |texts| && d in NormalizeCitations(texts[k].text, texts[k].citations) && SelectsAs(texts[k].text, joined, c, d)
  }

  ghost predicate SelectsAs(text: string, joined: string, c: Citation, d: Citation) {
    && InText(text, d) && InText(joined, c)
    && c.sources == d.sources
    && Encode(joined)[c.start..c.end] == Encode(text)[d.start..d.end]
  }

  /** What the last text is in the joined text. */
  lemma JoinSnoc(texts: seq<Part>)
    requires texts != [] && forall i :: 0 <= i < |texts| ==> texts[i].Text?
    ensures var n := |texts| - 1;
      var before := if n == 0 then "" else Join(texts[..n]) + "\n";
      && Join(texts) == before + texts[n].text
      && Size(before) == NextOffset(texts[..n])
      && Size(Join(texts)) == Size(before) + Size(texts[n].text)
  {
    var n := |texts| - 1;
    var before := if n == 0 then "" else Join(texts[..n]) + "\n";
    SizeOfNone();
    SizeOfNewline();
    SizeJoins(Join(texts[..n]), "\n");
    SizeJoins(before, texts[n].text);
    hide Size;
    if n == 0 {
      assert before + texts[n].text == texts[0].text;
    }
  }

  lemma SizeOfNewline()
    ensures Size("\n") == 1
  {
    EncodeSnoc("", '\n');
    assert "" + ['\n'] == "\n";
  }

  lemma JoinNone()
    ensures Join([]) == ""
  {
  }

  lemma StartsWith(a: string, b: string, c: string)
    ensures a <= a + b + c
  {
  }

  lemma JoinKeeps(texts: seq<Part>)
    requires texts != [] && forall i :: 0 <= i < |texts| ==> texts[i].Text?
    ensures Join(texts[..|texts| - 1]) <= Join(texts)
  {
    hide Join, Size;
    var n := |texts| - 1;
    JoinSnoc(texts);
    if n == 0 {
      assert texts[..n] == [];
      JoinNone();
    } else {
      StartsWith(Join(texts[..n]), "\n", texts[n].text);
    }
  }

  /** A range of a text, seen in a text around it. */
  lemma RangeInside(before: string, text: string, after: string, d: Citation)
    requires InText(text, d)
    ensures var at := Size(before);
      SelectsAs(text, before + text + after, Citation(d.start + at, d.end + at, d.sources), d)
  {
    hide Encode, Boundary, InText;
    var joined, at := before + text + after, Size(before);
    var c := Citation(d.start + at, d.end + at, d.sources);
    InTextExactly(text, d);
    BoundaryRange(text, d.start);
    BoundaryRange(text, d.end);
    BoundaryShifts(before, text, after, d.start);
    BoundaryShifts(before, text, after, d.end);
    InTextExactly(joined, c);
    EncodeJoins(before, text);
    EncodeJoins(before + text, after);
    SameBytes(Encode(before), Encode(text), Encode(after), d.start, d.end);
  }

  lemma SameBytes(before: seq<Byte>, text: seq<Byte>, after: seq<Byte>, start: int, end: int)
    requires 0 <= start <= end <= |text|
    ensures (before + text + after)[|before| + start..|before| + end] == text[start..end]
  {
  }

  lemma SelectsGrows(texts: seq<Part>, joined: string, c: Citation, more: Part, longer: string)
    requires (forall i :: 0 <= i < |texts| ==> texts[i].Text?) && more.Text? && joined <= longer && Selects(texts, joined, c)
    ensures Selects(texts + [more], longer, c)
  {
    hide NormalizeCitations, InText;
    var k, d :| 0 <= k < |texts| && d in NormalizeCitations(texts[k].text, texts[k].citations) && SelectsAs(texts[k].text, joined, c, d);
    assert (texts + [more])[k] == texts[k];
    SizeOfNone();
    RangeInside("", joined, longer[|joined|..], c);
    assert "" + joined + longer[|joined|..] == longer;
    assert SelectsAs(texts[k].text, longer, c, d);
  }

  lemma SelectsLast(texts: seq<Part>, joined: string, c: Citation, d: Citation)
    requires texts != [] && forall i :: 0 <= i < |texts| ==> texts[i].Text?
    requires var last := texts[|texts| - 1]; d in NormalizeCitations(last.text, last.citations) && SelectsAs(last.text, joined, c, d)
    ensures Selects(texts, joined, c)
  {
  }

  lemma ShiftedParts(texts: seq<Part>, c: Citation)
    requires (forall i :: 0 <= i < |texts| ==> texts[i].Text?) && c in Shifted(texts)
    ensures texts != []
    ensures var n := |texts| - 1;
      var normal := NormalizeCitations(texts[n].text, texts[n].citations);
      var at := NextOffset(texts[..n]);
      c in Shifted(texts[..n]) || exists i :: 0 <= i < |normal| && c == Citation(normal[i].start + at, normal[i].end + at, normal[i].sources)
  {
  }

  /** Every citation of the joined text selects what it selected in its own part. */
  lemma {:induction false} ShiftedSelects(texts: seq<Part>, c: Citation)
    requires (forall i :: 0 <= i < |texts| ==> texts[i].Text?) && c in Shifted(texts)
    ensures Selects(texts, Join(texts), c)
    decreases |texts|
  {
    hide *;
    ShiftedParts(texts, c);
    JoinSnoc(texts);
    JoinKeeps(texts);
    var n := |texts| - 1;
    var before, last := texts[..n], texts[n];
    assert texts == before + [last];
    if c in Shifted(before) {
      ShiftedSelects(before, c);
      SelectsGrows(before, Join(before), c, last, Join(texts));
    } else {
      var normal, at := NormalizeCitations(last.text, last.citations), NextOffset(before);
      var i :| 0 <= i < |normal| && c == Citation(normal[i].start + at, normal[i].end + at, normal[i].sources);
      NormalizedInText(last.text, last.citations);
      var front := if n == 0 then "" else Join(before) + "\n";
      RangeInside(front, last.text, "", normal[i]);
      assert front + last.text + "" == Join(texts);
      SelectsLast(texts, Join(texts), c, normal[i]);
    }
  }

  lemma InShift(citations: seq<Citation>, d: Citation, at: int)
    requires d in citations
    ensures Citation(d.start + at, d.end + at, d.sources) in Shift(citations, at)
  {
    var i :| 0 <= i < |citations| && citations[i] == d;
    hide Shift;
    assert Shift(citations, at)[i] in Shift(citations, at);
  }

  lemma ShiftedSnoc(texts: seq<Part>)
    requires texts != [] && forall i :: 0 <= i < |texts| ==> texts[i].Text?
    ensures var n := |texts| - 1;
      Shifted(texts) == Shifted(texts[..n]) + Shift(NormalizeCitations(texts[n].text, texts[n].citations), NextOffset(texts[..n]))
  {
    hide NormalizeCitations, NextOffset, Shift;
  }

  /** And none is missing: every citation of every part is there, at its part's offset. */
  lemma {:induction false} ShiftedAll(texts: seq<Part>, k: nat, d: Citation)
    requires (forall i :: 0 <= i < |texts| ==> texts[i].Text?) && k < |texts|
    requires d in NormalizeCitations(texts[k].text, texts[k].citations)
    ensures var at := NextOffset(texts[..k]);
      Citation(d.start + at, d.end + at, d.sources) in Shifted(texts)
    decreases |texts|
  {
    hide *;
    var n := |texts| - 1;
    ShiftedSnoc(texts);
    if k < n {
      ShiftedAll(texts[..n], k, d);
      assert texts[..n][..k] == texts[..k];
    } else {
      InShift(NormalizeCitations(texts[n].text, texts[n].citations), d, NextOffset(texts[..n]));
    }
  }
}
