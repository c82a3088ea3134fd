/** Segmented compaction: events that overflow the model's context are split by a token
    budget and summarised segment by segment, each summary becoming the base of the next,
    recursively down to a bounded depth. */
module Segments {

  import opened Wrappers

  datatype Event = Event(id: int, tokens: nat)

  /** Event pointers: `None` is a nil entry. */
  type Slots = seq<Option<Event>>

  const DEFAULT_BUDGET: nat := 24000

  function Present(slots: Slots): seq<Event> {
    if slots == [] then []
    else
      var before, last := Present(slots[..|slots| - 1]), slots[|slots| - 1];
      if last.Some? then before + [last.value] else before
  }

  function Total(events: seq<Event>): nat {
    if events == [] then 0 else Total(events[..|events| - 1]) + events[|events| - 1].tokens
  }

  function Concat(chunks: seq<seq<Event>>): seq<Event> {
    if chunks == [] then [] else Concat(chunks[..|chunks| - 1]) + chunks[|chunks| - 1]
  }

  // ----- splitting by token budget

  function Budget(configured: int): nat {
    if configured <= 0 then DEFAULT_BUDGET else configured
  }

  /** Chunks are not empty, one of several events fits the budget, and none could have
      taken the first event of the next one. */
  ghost predicate Greedy(chunks: seq<seq<Event>>, budget: nat) {
    && (forall i :: 0 <= i < |chunks| ==> chunks[i] != [] && (|chunks[i]| > 1 ==> Total(chunks[i]) <= budget))
    && (forall i :: 0 <= i < |chunks| - 1 ==> Total(chunks[i]) + chunks[i + 1][0].tokens > budget)
  }

  lemma PresentSnoc(slots: Slots, slot: Option<Event>)
    ensures Present(slots + [slot]) == if slot.Some? then Present(slots) + [slot.value] else Present(slots)
  {
  }

  lemma TotalSnoc(events: seq<Event>, event: Event)
    ensures Total(events + [event]) == Total(events) + event.tokens
  {
  }

  lemma ConcatSnoc(chunks: seq<seq<Event>>, chunk: seq<Event>)
    ensures Concat(chunks + [chunk]) == Concat(chunks) + chunk
  {
  }

  /** The open chunk can be closed: it fits, and the last closed one had no room for it. */
  ghost predicate Closable(chunks: seq<seq<Event>>, current: seq<Event>, budget: nat) {
    && (|current| > 1 ==> Total(current) <= budget)
    && (chunks != [] ==> current != [] && Total(chunks[|chunks| - 1]) + current[0].tokens > budget)
  }

  lemma GreedySnoc(chunks: seq<seq<Event>>, current: seq<Event>, budget: nat)
    requires Greedy(chunks, budget) && Closable(chunks, current, budget) && current != []
    ensures Greedy(chunks + [current], budget)
  {
  }

  lemma CurrentGrows(chunks: seq<seq<Event>>, current: seq<Event>, event: Event, budget: nat)
    requires Closable(chunks, current, budget)
    requires current != [] ==> Total(current) + event.tokens <= budget
    requires chunks != [] ==> current != []
    ensures Closable(chunks, current + [event], budget)
  {
  }

  /** Exactly the entries that are not nil, in order. */
  lemma {:induction false} PresentExactly(slots: Slots) returns (at: seq<nat>)
    ensures |at| == |Present(slots)| && forall j, k :: 0 <= j < k < |at| ==> at[j] < at[k]
    ensures forall k :: 0 <= k < |at| ==> at[k] < |slots| && slots[at[k]] == Some(Present(slots)[k])
    ensures forall i: nat :: i in at <==> i < |slots| && slots[i].Some?
  {
    if slots == [] {
      at := [];
    } else {
      var n := |slots| - 1;
      at := PresentExactly(slots[..n]);
      assert slots == slots[..n] + [slots[n]];
      PresentSnoc(slots[..n], slots[n]);
      hide Present;
      assert forall k :: 0 <= k < |at| ==> at[k] < n;
      if slots[n].Some? {
        assert forall i: nat :: i in at + [n] <==> i in at || i == n;
        at := at + [n];
      }
    }
  }

  method SplitEventsByTokenBudget(events: Slots, configured: int) returns (chunks: seq<seq<Event>>)
    ensures Concat(chunks) == Present(events)
    ensures Greedy(chunks, Budget(configured)) && Budget(configured) == if configured > 0 then configured else 24_000
  {
    hide Present, Concat, Total, Greedy, Closable;
    var budget := Budget(configured);
    chunks := [];
    var current: seq<Event> := [];
    var currentTokens := 0;
    SplitStarts(budget);
    for i := 0 to |events|
      invariant Concat(chunks) + current == Present(events[..i])
      invariant currentTokens == Total(current)
      invariant Greedy(chunks, budget) && Closable(chunks, current, budget)
      invariant chunks != [] ==> current != []
    {
      assert events[..i + 1] == events[..i] + [events[i]];
      PresentSnoc(events[..i], events[i]);
      if events[i].Some? {
        var event := events[i].value;
        if |current| > 0 && currentTokens + event.tokens > budget {
          ConcatSnoc(chunks, current);
          GreedySnoc(chunks, current, budget);
          NextOpens(chunks, current, event, budget);
          chunks, current, currentTokens := chunks + [current], [event], event.tokens;
        } else {
          CurrentGrows(chunks, current, event, budget);
          TotalSnoc(current, event);
          assert Concat(chunks) + (current + [event]) == Concat(chunks) + current + [event];
          current, currentTokens := current + [event], currentTokens + event.tokens;
        }
      }
    }
    assert events[..|events|] == events;
    if |current| > 0 {
      ConcatSnoc(chunks, current);
      GreedySnoc(chunks, current, budget);
      chunks := chunks + [current];
    }
  }

  lemma SplitStarts(budget: nat)
    ensures Present([]) == [] && Concat([]) == [] && Total([]) == 0
    ensures Greedy([], budget) && Closable([], [], budget)
  {
  }

  lemma NextOpens(chunks: seq<seq<Event>>, current: seq<Event>, event: Event, budget: nat)
    requires Total(current) + event.tokens > budget
    ensures Closable(chunks + [current], [event], budget) && Total([event]) == event.tokens
  {
  }

  lemma {:induction false} TotalGrows(a: seq<Event>, b: seq<Event>)
    ensures Total(a + b) == Total(a) + Total(b)
  {
    if b == [] {
      assert a + b == a;
    } else {
      TotalGrows(a, b[..|b| - 1]);
      assert (a + b)[..|a + b| - 1] == a + b[..|b| - 1];
    }
  }

  lemma {:induction false} ConcatFirst(chunks: seq<seq<Event>>)
    requires chunks != []
    ensures Concat(chunks) == chunks[0] + Concat(chunks[1..])
  {
    SplitStarts(0);
    hide Concat;
    var n := |chunks| - 1;
    assert chunks == chunks[..n] + [chunks[n]];
    ConcatSnoc(chunks[..n], chunks[n]);
    if n == 0 {
      assert chunks[..0] == [] && chunks[1..] == [];
    } else {
      ConcatFirst(chunks[..n]);
      assert chunks[..n][1..] == chunks[1..n] && chunks[1..] == chunks[1..n] + [chunks[n]];
      ConcatSnoc(chunks[1..n], chunks[n]);
    }
  }

  /** A chunk that leaves out the event after it has no room for that event. */
  lemma NoRoom(whole: seq<Event>, n: nat, budget: nat)
    requires 0 < n < |whole| && Total(whole) <= budget
    ensures Total(whole[..n]) + whole[n].tokens <= budget
  {
    TotalGrows(whole[..n + 1], whole[n + 1..]);
    assert whole == whole[..n + 1] + whole[n + 1..];
    TotalSnoc(whole[..n], whole[n]);
    assert whole[..n + 1] == whole[..n] + [whole[n]];
  }

  lemma {:induction false} SameHeads(a: seq<seq<Event>>, b: seq<seq<Event>>)
    requires |a| > 0 && |b| > 0 && Concat(a) == Concat(b) && |a[0]| < |b[0]|
    requires forall i :: 0 <= i < |a| ==> a[i] != []
    ensures |a| > 1 && b[0][..|a[0]|] == a[0] && b[0][|a[0]|] == a[1][0]
  {
    ConcatFirst(a);
    ConcatFirst(b);
    hide Concat;
    var all, n := Concat(a), |a[0]|;
    assert all[..n] == a[0] && all[..|b[0]|] == b[0];
    assert all[n..] == Concat(a[1..]);
    assert |a| > 1;
    ConcatFirst(a[1..]);
    assert all[n] == Concat(a[1..])[0] == a[1][0];
  }

  /** A shorter first chunk could have taken the next event. */
  lemma FirstChunkMaximal(a: seq<seq<Event>>, b: seq<seq<Event>>, budget: nat)
    requires Greedy(a, budget) && Greedy(b, budget) && a != [] && b != [] && Concat(a) == Concat(b)
    ensures |a[0]| >= |b[0]|
  {
    hide Total, Concat;
    if |a[0]| < |b[0]| {
      SameHeads(a, b);
      NoRoom(b[0], |a[0]|, budget);
      assert false;
    }
  }

  /** The greedy split is the only one with these properties. */
  lemma {:induction false} SplitIsUnique(a: seq<seq<Event>>, b: seq<seq<Event>>, budget: nat)
    requires Greedy(a, budget) && Greedy(b, budget) && Concat(a) == Concat(b)
    ensures a == b
  {
    if a == [] || b == [] {
      if a != [] { ConcatFirst(a); }
      if b != [] { ConcatFirst(b); }
    } else {
      FirstChunkMaximal(a, b, budget);
      FirstChunkMaximal(b, a, budget);
      ConcatFirst(a);
      ConcatFirst(b);
      var all, n := Concat(a), |a[0]|;
      assert a[0] == all[..n] == b[0];
      assert Concat(a[1..]) == all[n..] == Concat(b[1..]);
      SplitIsUnique(a[1..], b[1..], budget);
      assert a == [a[0]] + a[1..] && b == [b[0]] + b[1..];
    }
  }

  // ----- summarising segment by segment

  datatype Reply = Text(text: string) | Overflow | Failed

  /** One model request. `level` is the segmentation depth at which its events would be
      split if they overflowed. */
  datatype Call = Call(base: string, events: Slots, level: nat, reply: Reply)

  datatype Outcome = Done(text: string) | TooLarge | Error

  const DEFAULT_SEGMENT_DEPTH: nat := 8

  function SegmentDepth(configured: int): nat {
    if configured <= 0 then DEFAULT_SEGMENT_DEPTH else configured
  }

  /** The requests that produced a summary. */
  function Leaves(trace: seq<Call>): (leaves: seq<Call>)
    ensures forall i :: 0 <= i < |leaves| ==> leaves[i].reply.Text?
  {
    if trace == [] then []
    else
      var before, last := Leaves(trace[..|trace| - 1]), trace[|trace| - 1];
      if last.reply.Text? then before + [last] else before
  }

  /** The events the given requests were about, nil entries left out. */
  function Covered(calls: seq<Call>): seq<Event> {
    if calls == [] then []
    else Covered(calls[..|calls| - 1]) + Present(calls[|calls| - 1].events)
  }

  function Iterate(norm: string -> string, k: nat, text: string): string {
    if k == 0 then text else norm(Iterate(norm, k - 1, text))
  }

  /** `next` starts from what `leaf` returned, normalised once for every segmentation level
      that was left between the two. */
  ghost predicate Linked(norm: string -> string, level: nat, leaf: Call, next: Call)
    requires leaf.reply.Text?
  {
    exists left: nat :: level <= leaf.level - left <= next.level && next.base == Iterate(norm, left, leaf.reply.text)
  }

  /** The leaves hand a summary on from `from` to `to`, at or below segmentation `level`. */
  ghost predicate Chain(norm: string -> string, level: nat, from: string, to: string, leaves: seq<Call>) {
    && (forall i :: 0 <= i < |leaves| ==> leaves[i].reply.Text? && leaves[i].level >= level)
    && (forall i :: 0 < i < |leaves| ==> Linked(norm, level, leaves[i - 1], leaves[i]))
    && if leaves == [] then to == from else
       && leaves[0].base == from
       && var last := leaves[|leaves| - 1];
          to == Iterate(norm, last.level - level, last.reply.text)
  }

  ghost predicate Answered(reply: (string, Slots, nat) -> Reply, calls: nat, trace: seq<Call>) {
    forall i :: 0 <= i < |trace| ==> trace[i].reply == reply(trace[i].base, trace[i].events, calls + i)
  }

  /** A request whose failure does not end the compaction: an overflow that can still be split. */
  predicate Recovered(call: Call, maxDepth: nat) {
    call.reply.Text? || (call.reply.Overflow? && call.level < maxDepth && |call.events| > 1)
  }

  ghost predicate AllRecovered(trace: seq<Call>, maxDepth: nat) {
    forall i :: 0 <= i < |trace| ==> Recovered(trace[i], maxDepth)
  }

  /** How a compaction of `events` on top of `base` that split at `depth` ends. */
  ghost predicate Ends(outcome: Outcome, norm: string -> string, maxDepth: nat, depth: nat,
                       base: string, events: Slots, trace: seq<Call>)
  {
    match outcome
    case Done(text) =>
      && AllRecovered(trace, maxDepth)
      && Leaves(trace) != []
      && Chain(norm, depth, base, text, Leaves(trace))
      && Covered(Leaves(trace)) == Present(events)
    case TooLarge =>
      trace != [] && trace[|trace| - 1].reply.Overflow? && !Recovered(trace[|trace| - 1], maxDepth)
    case Error =>
      trace != [] && trace[|trace| - 1].reply.Failed?
  }

  // ----- lemmas about traces

  lemma {:induction false} LeavesConcat(a: seq<Call>, b: seq<Call>)
    ensures Leaves(a + b) == Leaves(a) + Leaves(b)
  {
    if b == [] {
      assert a + b == a;
    } else {
      LeavesConcat(a, b[..|b| - 1]);
      assert (a + b)[..|a + b| - 1] == a + b[..|b| - 1];
    }
  }

  lemma CoveredSnoc(calls: seq<Call>, call: Call)
    ensures Covered(calls + [call]) == Covered(calls) + Present(call.events)
  {
    hide Present;
    assert (calls + [call])[..|calls|] == calls;
  }

  lemma CoveredNone(calls: seq<Call>)
    requires calls == []
    ensures Covered(calls) == []
  {
  }

  lemma {:induction false} CoveredConcat(a: seq<Call>, b: seq<Call>)
    ensures Covered(a + b) == Covered(a) + Covered(b)
  {
    hide Covered, Present;
    if b == [] {
      CoveredNone(b);
      assert a + b == a;
    } else {
      var init, last := b[..|b| - 1], b[|b| - 1];
      assert b == init + [last] && a + b == a + init + [last];
      CoveredConcat(a, init);
      CoveredSnoc(init, last);
      CoveredSnoc(a + init, last);
    }
  }

  lemma SingleLeaf(call: Call)
    ensures Leaves([call]) == if call.reply.Text? then [call] else []
    ensures Covered([call]) == Present(call.events)
  {
  }

  lemma LeafChain(norm: string -> string, call: Call)
    requires call.reply.Text?
    ensures Chain(norm, call.level, call.base, call.reply.text, [call])
  {
  }

  lemma JoinLink(norm: string -> string, level: nat, from: string, mid: string, to: string, a: seq<Call>, b: seq<Call>)
    requires Chain(norm, level, from, mid, a) && Chain(norm, level, mid, to, b) && a != [] && b != []
    ensures Linked(norm, level, a[|a| - 1], b[0])
  {
  }

  lemma JoinChain(norm: string -> string, level: nat, from: string, mid: string, to: string, a: seq<Call>, b: seq<Call>)
    requires Chain(norm, level, from, mid, a) && Chain(norm, level, mid, to, b)
    ensures Chain(norm, level, from, to, a + b)
  {
    if a == [] {
      assert a + b == b;
    } else if b == [] {
      assert a + b == a;
    } else {
      JoinLink(norm, level, from, mid, to, a, b);
      hide Linked, Iterate;
      var all := a + b;
      forall i | 0 < i < |all|
        ensures Linked(norm, level, all[i - 1], all[i])
      {
        if i < |a| {
          assert Linked(norm, level, a[i - 1], a[i]);
        } else if i > |a| {
          assert Linked(norm, level, b[i - |a| - 1], b[i - |a|]);
        }
      }
    }
  }

  /** Leaving a level normalises once more. */
  lemma LeaveLevel(norm: string -> string, level: nat, from: string, to: string, leaves: seq<Call>)
    requires level > 0 && leaves != [] && Chain(norm, level, from, to, leaves)
    ensures Chain(norm, level - 1, from, norm(to), leaves)
  {
  }

  // ----- segments of one level

  function PresentAll(segments: seq<Slots>): seq<Event> {
    if segments == [] then []
    else PresentAll(segments[..|segments| - 1]) + Present(segments[|segments| - 1])
  }

  function Size(segments: seq<Slots>): nat {
    if segments == [] then 0 else Size(segments[..|segments| - 1]) + |segments[|segments| - 1]|
  }

  function Wrap(chunk: seq<Event>): Slots {
    seq(|chunk|, i requires 0 <= i < |chunk| => Some(chunk[i]))
  }

  lemma SegmentSnoc(segments: seq<Slots>, segment: Slots)
    ensures PresentAll(segments + [segment]) == PresentAll(segments) + Present(segment)
    ensures Size(segments + [segment]) == Size(segments) + |segment|
  {
  }

  lemma {:induction false} PresentWrap(chunk: seq<Event>)
    ensures Present(Wrap(chunk)) == chunk
  {
    if chunk == [] {
    } else {
      var n := |chunk| - 1;
      PresentWrap(chunk[..n]);
      assert Wrap(chunk)[..n] == Wrap(chunk[..n]);
      assert chunk == chunk[..n] + [chunk[n]];
    }
  }

  lemma {:induction false} PresentConcat(a: Slots, b: Slots)
    ensures Present(a + b) == Present(a) + Present(b)
  {
    if b == [] {
      assert a + b == a;
    } else {
      var n := |b| - 1;
      PresentConcat(a, b[..n]);
      assert a + b == (a + b[..n]) + [b[n]];
      PresentSnoc(a + b[..n], b[n]);
      assert b == b[..n] + [b[n]];
      PresentSnoc(b[..n], b[n]);
    }
  }

  lemma {:induction false} PresentShorter(slots: Slots)
    ensures |Present(slots)| <= |slots|
  {
    if slots == [] {
    } else {
      PresentShorter(slots[..|slots| - 1]);
    }
  }

  ghost predicate Wraps(segments: seq<Slots>, chunks: seq<seq<Event>>) {
    |segments| == |chunks| && forall i :: 0 <= i < |segments| ==> segments[i] == Wrap(chunks[i])
  }

  /** How events are cut for one level: by the greedy split under the token budget if it has more
      than one chunk, otherwise into two halves. */
  ghost predicate IsSegmentation(events: Slots, budget: int, segments: seq<Slots>) {
    exists chunks ::
      && Concat(chunks) == Present(events) && Greedy(chunks, Budget(budget))
      && if |chunks| > 1 then Wraps(segments, chunks) else segments == [events[..|events| / 2], events[|events| / 2..]]
  }

  method WrapAll(chunks: seq<seq<Event>>) returns (segments: seq<Slots>)
    requires forall i :: 0 <= i < |chunks| ==> chunks[i] != []
    ensures Wraps(segments, chunks)
    ensures |segments| == |chunks| && PresentAll(segments) == Concat(chunks) && Size(segments) == |Concat(chunks)|
    ensures forall i :: 0 <= i < |segments| ==> segments[i] != []
  {
    segments := [];
    for i := 0 to |chunks|
      invariant |segments| == i && PresentAll(segments) == Concat(chunks[..i])
      invariant forall j :: 0 <= j < i ==> segments[j] == Wrap(chunks[j])
      invariant Size(segments) == |Concat(chunks[..i])|
      invariant forall j :: 0 <= j < i ==> segments[j] != []
    {
      PresentWrap(chunks[i]);
      SegmentSnoc(segments, Wrap(chunks[i]));
      ConcatSnoc(chunks[..i], chunks[i]);
      assert chunks[..i + 1] == chunks[..i] + [chunks[i]];
      segments := segments + [Wrap(chunks[i])];
    }
    assert chunks[..|chunks|] == chunks;
  }

  lemma TwoSegments(a: Slots, b: Slots)
    ensures PresentAll([a, b]) == Present(a) + Present(b) && Size([a, b]) == |a| + |b|
  {
    assert PresentAll([]) == [] && Size([]) == 0;
    SegmentSnoc([], a);
    SegmentSnoc([a], b);
    hide Present, PresentAll, Size;
    assert [] + [a] == [a] && [a] + [b] == [a, b];
  }

  lemma HalvesCover(events: Slots, mid: nat)
    requires 0 < mid < |events|
    ensures PresentAll([events[..mid], events[mid..]]) == Present(events)
    ensures Size([events[..mid], events[mid..]]) == |events|
  {
    var a, b := events[..mid], events[mid..];
    assert events == a + b;
    PresentConcat(a, b);
    TwoSegments(a, b);
  }

  lemma SegmentedBy(events: Slots, budget: int, chunks: seq<seq<Event>>, segments: seq<Slots>)
    requires Concat(chunks) == Present(events) && Greedy(chunks, Budget(budget))
    requires if |chunks| > 1 then Wraps(segments, chunks) else segments == [events[..|events| / 2], events[|events| / 2..]]
    ensures IsSegmentation(events, budget, segments)
  {
    hide Concat, Present, Greedy, Wraps;
  }

  lemma GreedyFull(chunks: seq<seq<Event>>, budget: nat)
    requires Greedy(chunks, budget)
    ensures forall i :: 0 <= i < |chunks| ==> chunks[i] != []
  {
  }

  /** The segments of one level: the budget split, or two halves when that does not split. */
  method Segment(events: Slots, budget: int) returns (segments: seq<Slots>)
    requires |events| > 1
    ensures IsSegmentation(events, budget, segments)
    ensures |segments| > 1 && PresentAll(segments) == Present(events) && Size(segments) <= |events|
    ensures forall i :: 0 <= i < |segments| ==> segments[i] != []
  {
    hide *;
    var chunks := SplitEventsByTokenBudget(events, budget);
    GreedyFull(chunks, Budget(budget));
    if |chunks| <= 1 {
      var mid := |events| / 2;
      HalvesCover(events, mid);
      segments := [events[..mid], events[mid..]];
    } else {
      segments := WrapAll(chunks);
      PresentShorter(events);
    }
    SegmentedBy(events, budget, chunks, segments);
  }

  // ----- the recursion

  lemma PrependOverflow(outcome: Outcome, norm: string -> string, maxDepth: nat, depth: nat,
                        base: string, events: Slots, call: Call, trace: seq<Call>)
    requires Ends(outcome, norm, maxDepth, depth, base, events, trace)
    requires call.reply.Overflow? && Recovered(call, maxDepth)
    ensures Ends(outcome, norm, maxDepth, depth, base, events, [call] + trace)
  {
    LeavesConcat([call], trace);
    SingleLeaf(call);
    hide Leaves, Covered, Chain;
    assert Leaves([call]) + Leaves(trace) == Leaves(trace);
  }

  lemma AppendAnswered(reply: (string, Slots, nat) -> Reply, calls: nat, a: seq<Call>, b: seq<Call>)
    requires Answered(reply, calls, a) && Answered(reply, calls + |a|, b)
    ensures Answered(reply, calls, a + b)
  {
  }

  /** What the loop over one level's segments keeps. */
  ghost predicate Progress(norm: string -> string, maxDepth: nat, level: nat, base: string, current: string,
                           done: seq<Event>, trace: seq<Call>)
  {
    && AllRecovered(trace, maxDepth)
    && Chain(norm, level, base, current, Leaves(trace))
    && Covered(Leaves(trace)) == done
  }

  lemma AppendDone(norm: string -> string, maxDepth: nat, level: nat, base: string, current: string, text: string,
                   done: seq<Event>, segment: Slots, a: seq<Call>, b: seq<Call>)
    requires Progress(norm, maxDepth, level, base, current, done, a)
    requires Ends(Done(text), norm, maxDepth, level, current, segment, b)
    ensures Progress(norm, maxDepth, level, base, text, done + Present(segment), a + b)
    ensures Leaves(a + b) != []
  {
    LeavesConcat(a, b);
    CoveredConcat(Leaves(a), Leaves(b));
    JoinChain(norm, level, base, current, text, Leaves(a), Leaves(b));
    hide Leaves, Covered, Chain, Present;
  }

  lemma AppendEnd(outcome: Outcome, norm: string -> string, maxDepth: nat, depth: nat, base: string, events: Slots,
                  level: nat, current: string, segment: Slots, a: seq<Call>, b: seq<Call>)
    requires Ends(outcome, norm, maxDepth, level, current, segment, b) && !outcome.Done?
    ensures Ends(outcome, norm, maxDepth, depth, base, events, a + b)
  {
  }

  lemma FinishLevel(norm: string -> string, maxDepth: nat, depth: nat, base: string, current: string,
                    events: Slots, trace: seq<Call>)
    requires Progress(norm, maxDepth, depth + 1, base, current, Present(events), trace) && Leaves(trace) != []
    ensures Ends(Done(norm(current)), norm, maxDepth, depth, base, events, trace)
  {
    LeaveLevel(norm, depth + 1, base, current, Leaves(trace));
    hide Chain, Leaves, Covered, Present;
  }

  /** Requests one level and the levels below it may cost for a number of events. */
  function Cost(events: nat, levels: nat): nat {
    events * levels
  }

  lemma SegmentCost(done: nat, segment: nat, used: nat, spent: nat, levels: nat)
    requires levels > 0 && segment > 0 && used <= Cost(done, levels) && spent <= 1 + Cost(segment, levels - 1)
    ensures used + spent <= Cost(done + segment, levels)
  {
  }

  lemma CostGrows(fewer: nat, more: nat, levels: nat)
    requires fewer <= more
    ensures Cost(fewer, levels) <= Cost(more, levels)
  {
  }

  /** Requests carry events and belong to segmentation levels in the given range. */
  ghost predicate Within(trace: seq<Call>, least: nat, most: nat) {
    forall i :: 0 <= i < |trace| ==> trace[i].events != [] && least <= trace[i].level <= most
  }

  lemma AppendWithin(a: seq<Call>, b: seq<Call>, least: nat, most: nat)
    requires Within(a, least, most) && Within(b, least, most)
    ensures Within(a + b, least, most)
  {
  }

  ghost predicate IsSegmentOf(budget: int, whole: Slots, part: Slots) {
    exists segments :: IsSegmentation(whole, budget, segments) && part in segments
  }

  /** The request is about a segment of an earlier one that overflowed one level above. */
  ghost predicate SplitsEarlier(budget: int, trace: seq<Call>, i: nat)
    requires i < |trace|
  {
    exists j :: 0 <= j < i && trace[j].reply.Overflow? && trace[i].level == trace[j].level + 1 && IsSegmentOf(budget, trace[j].events, trace[i].events)
  }

  /** Every request is about a segment of `events`, or of an earlier request that overflowed. */
  ghost predicate CutFrom(budget: int, events: Slots, depth: nat, trace: seq<Call>) {
    forall i :: 0 <= i < |trace| ==>
      (trace[i].level == depth + 1 && IsSegmentOf(budget, events, trace[i].events)) || SplitsEarlier(budget, trace, i)
  }

  /** The first request is about all events, every other about a segment of an earlier one. */
  ghost predicate Rooted(budget: int, events: Slots, level: nat, trace: seq<Call>) {
    && trace != [] && trace[0].events == events && trace[0].level == level
    && forall i :: 0 < i < |trace| ==> SplitsEarlier(budget, trace, i)
  }

  lemma EarlierShifts(budget: int, before: seq<Call>, trace: seq<Call>, i: nat)
    requires i < |trace| && SplitsEarlier(budget, trace, i)
    ensures SplitsEarlier(budget, before + trace, |before| + i)
  {
    hide IsSegmentOf;
    var j :| 0 <= j < i && trace[j].reply.Overflow? && trace[i].level == trace[j].level + 1 && IsSegmentOf(budget, trace[j].events, trace[i].events);
    var all := before + trace;
    assert all[|before| + j] == trace[j] && all[|before| + i] == trace[i];
  }

  lemma EarlierStays(budget: int, trace: seq<Call>, more: seq<Call>, i: nat)
    requires i < |trace| && SplitsEarlier(budget, trace, i)
    ensures SplitsEarlier(budget, trace + more, i)
  {
    hide IsSegmentOf;
    var j :| 0 <= j < i && trace[j].reply.Overflow? && trace[i].level == trace[j].level + 1 && IsSegmentOf(budget, trace[j].events, trace[i].events);
    var all := trace + more;
    assert all[j] == trace[j] && all[i] == trace[i];
  }

  lemma SplitsFirst(budget: int, trace: seq<Call>, i: nat)
    requires 0 < i < |trace| && trace[0].reply.Overflow? && trace[i].level == trace[0].level + 1
    requires IsSegmentOf(budget, trace[0].events, trace[i].events)
    ensures SplitsEarlier(budget, trace, i)
  {
  }

  lemma RootedNested(budget: int, call: Call, nested: seq<Call>)
    requires nested != [] ==> call.reply.Overflow?
    requires CutFrom(budget, call.events, call.level, nested)
    ensures Rooted(budget, call.events, call.level, [call] + nested)
  {
    hide IsSegmentOf, SplitsEarlier;
    var trace := [call] + nested;
    forall i | 0 < i < |trace|
      ensures SplitsEarlier(budget, trace, i)
    {
      if SplitsEarlier(budget, nested, i - 1) {
        EarlierShifts(budget, [call], nested, i - 1);
      } else {
        SplitsFirst(budget, trace, i);
      }
    }
  }

  lemma CutAppends(budget: int, events: Slots, depth: nat, segments: seq<Slots>, k: nat, trace: seq<Call>, more: seq<Call>)
    requires CutFrom(budget, events, depth, trace) && IsSegmentation(events, budget, segments) && k < |segments|
    requires Rooted(budget, segments[k], depth + 1, more)
    ensures CutFrom(budget, events, depth, trace + more)
  {
    assert IsSegmentOf(budget, events, segments[k]);
    hide IsSegmentOf, IsSegmentation, SplitsEarlier;
    var all := trace + more;
    forall i | 0 <= i < |all|
      ensures (all[i].level == depth + 1 && IsSegmentOf(budget, events, all[i].events)) || SplitsEarlier(budget, all, i)
    {
      if i < |trace| {
        if SplitsEarlier(budget, trace, i) {
          EarlierStays(budget, trace, more, i);
        }
      } else if i > |trace| {
        EarlierShifts(budget, trace, more, i - |trace|);
      }
    }
  }

  lemma CutNothing(budget: int, events: Slots, depth: nat)
    ensures CutFrom(budget, events, depth, [])
  {
  }

  /** A request on its own: an answer ends the compaction, a failure and an overflow that
      cannot be split end it without one. */
  lemma SingleEnds(norm: string -> string, maxDepth: nat, call: Call)
    ensures call.reply.Text? ==>
              Ends(Done(call.reply.text), norm, maxDepth, call.level, call.base, call.events, [call])
    ensures call.reply.Failed? ==> Ends(Error, norm, maxDepth, call.level, call.base, call.events, [call])
    ensures call.reply.Overflow? && !Recovered(call, maxDepth) ==>
              Ends(TooLarge, norm, maxDepth, call.level, call.base, call.events, [call])
  {
    SingleLeaf(call);
    if call.reply.Text? {
      LeafChain(norm, call);
    }
    hide Chain, Leaves, Covered, Present;
  }

  /** `reply` answers every model request; its last argument numbers the requests, so that
      the same request may be answered differently later. */
  method Summarise(reply: (string, Slots, nat) -> Reply, norm: string -> string, budget: int, maxDepth: nat,
                   base: string, events: Slots, level: nat, calls: nat)
    returns (outcome: Outcome, trace: seq<Call>)
    requires events != [] && level <= maxDepth
    ensures Answered(reply, calls, trace)
    ensures Ends(outcome, norm, maxDepth, level, base, events, trace)
    ensures Within(trace, level, maxDepth) && |trace| <= 1 + Cost(|events|, maxDepth - level)
    ensures Rooted(budget, events, level, trace) && trace[0].base == base
    decreases maxDepth - level, 1
  {
    hide Ends, Cost, Rooted, CutFrom;
    var call := Call(base, events, level, reply(base, events, calls));
    SingleEnds(norm, maxDepth, call);
    trace := [call];
    CutNothing(budget, events, level);
    RootedNested(budget, call, []);
    assert [call] + [] == [call];
    match call.reply {
      case Text(text) =>
        outcome := Done(text);
      case Failed =>
        outcome := Error;
      case Overflow =>
        var nested;
        outcome, nested := GenerateSegmented(reply, norm, budget, maxDepth, base, events, level, calls + 1);
        if Recovered(call, maxDepth) {
          PrependOverflow(outcome, norm, maxDepth, level, base, events, call, nested);
        } else {
          assert trace + nested == trace;
        }
        AppendAnswered(reply, calls, trace, nested);
        AppendWithin(trace, nested, level, maxDepth);
        RootedNested(budget, call, nested);
        trace := trace + nested;
    }
  }

  method GenerateSegmented(reply: (string, Slots, nat) -> Reply, norm: string -> string, budget: int, maxDepth: nat,
                           base: string, events: Slots, depth: nat, calls: nat)
    returns (outcome: Outcome, trace: seq<Call>)
    requires depth <= maxDepth
    ensures Answered(reply, calls, trace)
    ensures events == [] ==> outcome == Done(norm(base)) && trace == []
    ensures events != [] && (|events| == 1 || depth == maxDepth) ==> outcome == TooLarge && trace == []
    ensures |events| > 1 && depth < maxDepth ==> Ends(outcome, norm, maxDepth, depth, base, events, trace)
    ensures Within(trace, depth, maxDepth) && |trace| <= Cost(|events|, maxDepth - depth)
    ensures CutFrom(budget, events, depth, trace)
    decreases maxDepth - depth, 0
  {
    hide *;
    trace := [];
    LevelStarts(reply, norm, maxDepth, depth, base, calls);
    CutNothing(budget, events, depth);
    if |events| == 0 {
      return Done(norm(base)), [];
    }
    if depth >= maxDepth || |events| <= 1 {
      return TooLarge, [];
    }
    var segments := Segment(events, budget);
    var current := base;
    for i := 0 to |segments|
      invariant Answered(reply, calls, trace) && Within(trace, depth, maxDepth) && CutFrom(budget, events, depth, trace)
      invariant Progress(norm, maxDepth, depth + 1, base, current, PresentAll(segments[..i]), trace)
      invariant i > 0 ==> Leaves(trace) != []
      invariant |trace| <= Cost(Size(segments[..i]), maxDepth - depth)
    {
      SegmentAt(segments, i);
      var update, more := Summarise(reply, norm, budget, maxDepth, current, segments[i], depth + 1, calls + |trace|);
      AppendAnswered(reply, calls, trace, more);
      CutAppends(budget, events, depth, segments, i, trace, more);
      WidenWithin(more, depth, maxDepth);
      AppendWithin(trace, more, depth, maxDepth);
      SegmentCost(Size(segments[..i]), |segments[i]|, |trace|, |more|, maxDepth - depth);
      if !update.Done? {
        AppendEnd(update, norm, maxDepth, depth, base, events, depth + 1, current, segments[i], trace, more);
        CostGrows(Size(segments[..i + 1]), |events|, maxDepth - depth);
        return update, trace + more;
      }
      AppendDone(norm, maxDepth, depth + 1, base, current, update.text, PresentAll(segments[..i]), segments[i], trace, more);
      current, trace := update.text, trace + more;
    }
    assert segments[..|segments|] == segments;
    CostGrows(Size(segments), |events|, maxDepth - depth);
    FinishLevel(norm, maxDepth, depth, base, current, events, trace);
    outcome := Done(norm(current));
  }

  lemma WidenWithin(trace: seq<Call>, depth: nat, most: nat)
    requires Within(trace, depth + 1, most)
    ensures Within(trace, depth, most)
  {
  }

  lemma SegmentAt(segments: seq<Slots>, i: nat)
    requires i < |segments|
    ensures PresentAll(segments[..i + 1]) == PresentAll(segments[..i]) + Present(segments[i])
    ensures Size(segments[..i + 1]) == Size(segments[..i]) + |segments[i]| <= Size(segments)
  {
    assert segments[..i + 1] == segments[..i] + [segments[i]];
    SegmentSnoc(segments[..i], segments[i]);
    SizePrefix(segments, i + 1);
  }

  lemma LevelStarts(reply: (string, Slots, nat) -> Reply, norm: string -> string, maxDepth: nat, depth: nat,
                    base: string, calls: nat)
    ensures Progress(norm, maxDepth, depth + 1, base, base, [], [])
    ensures Answered(reply, calls, []) && Within([], depth, maxDepth)
    ensures PresentAll([]) == [] && Size([]) == 0
  {
  }

  lemma {:induction false} SizePrefix(segments: seq<Slots>, n: nat)
    requires n <= |segments|
    ensures Size(segments[..n]) <= Size(segments)
    decreases |segments| - n
  {
    if n == |segments| {
      assert segments[..n] == segments;
    } else {
      SizePrefix(segments, n + 1);
      SegmentSnoc(segments[..n], segments[n]);
      assert segments[..n + 1] == segments[..n] + [segments[n]];
    }
  }

  method GenerateCompactMarkdown(reply: (string, Slots, nat) -> Reply, norm: string -> string, budget: int,
                                 configuredDepth: int, base: string, events: Slots)
    returns (outcome: Outcome, trace: seq<Call>)
    ensures Answered(reply, 0, trace)
    ensures events == [] ==> outcome == Done(norm(base)) && trace == []
    ensures events != [] ==> Ends(outcome, norm, SegmentDepth(configuredDepth), 0, base, events, trace)
    ensures Within(trace, 0, SegmentDepth(configuredDepth)) && SegmentDepth(configuredDepth) == if configuredDepth > 0 then configuredDepth else 8
    ensures events != [] ==> Rooted(budget, events, 0, trace)
    ensures |trace| <= 1 + |events| * SegmentDepth(configuredDepth)
  {
    if |events| == 0 {
      return Done(norm(base)), [];
    }
    outcome, trace := Summarise(reply, norm, budget, SegmentDepth(configuredDepth), base, events, 0, 0);
  }

  /** Success means exactly that no request failed and every overflow could still be split. */
  lemma {:induction false} DoneIffRecovered(outcome: Outcome, norm: string -> string, maxDepth: nat, base: string, events: Slots, trace: seq<Call>)
    requires Ends(outcome, norm, maxDepth, 0, base, events, trace)
    ensures outcome.Done? <==> AllRecovered(trace, maxDepth)
  {
    hide Chain, Leaves, Covered, Present;
    if !outcome.Done? {
      assert !Recovered(trace[|trace| - 1], maxDepth);
    }
  }
}
