/** Tool batches in a compaction source. `CompactionPrefixSafe` is the one-pass recogniser
    with its set of open call IDs; the language it accepts is given independently as the
    concatenations of plain messages and closed tool batches. */
module ToolBatches {

  import opened Wrappers

  datatype Role = System | User | Assistant | Tool

  /** A message part carries at most the ID of a tool call and the ID a tool result answers. */
  datatype Part = Part(toolUse: Option<string>, toolResult: Option<string>)

  datatype Message = Message(role: Role, parts: seq<Part>)

  function Calls(parts: seq<Part>): seq<string> {
    if parts == [] then []
    else
      var before, last := Calls(parts[..|parts| - 1]), parts[|parts| - 1].toolUse;
      if last.Some? then before + [last.value] else before
  }

  function Results(parts: seq<Part>): seq<string> {
    if parts == [] then []
    else
      var before, last := Results(parts[..|parts| - 1]), parts[|parts| - 1].toolResult;
      if last.Some? then before + [last.value] else before
  }

  // ----- the language

  ghost predicate Distinct(ids: seq<string>) {
    forall i, j :: 0 <= i < j < |ids| ==> ids[i] != ids[j]
  }

  ghost predicate Plain(m: Message) {
    Calls(m.parts) == [] && Results(m.parts) == []
  }

  /** An assistant message that opens a batch: distinct, non-empty call IDs and no result. */
  ghost predicate Opens(m: Message) {
    && m.role == Assistant && Results(m.parts) == [] && Calls(m.parts) != []
    && Distinct(Calls(m.parts)) && "" !in Calls(m.parts)
  }

  ghost predicate Answers(m: Message) {
    m.role == Tool && Calls(m.parts) == [] && Results(m.parts) != []
  }

  function AllResults(messages: seq<Message>): seq<string> {
    if messages == [] then [] else AllResults(messages[..|messages| - 1]) + Results(messages[|messages| - 1].parts)
  }

  datatype Block = Single(message: Message) | Batch(call: Message, results: seq<Message>)

  /** A closed batch: the tool messages that follow answer every call exactly once. */
  ghost predicate ValidBlock(b: Block) {
    match b
    case Single(m) => Plain(m)
    case Batch(call, results) =>
      && Opens(call) && (forall m :: m in results ==> Answers(m))
      && multiset(AllResults(results)) == multiset(Calls(call.parts))
  }

  function Flatten(blocks: seq<Block>): seq<Message> {
    if blocks == [] then []
    else
      var last := blocks[|blocks| - 1];
      Flatten(blocks[..|blocks| - 1]) + (match last case Single(m) => [m] case Batch(call, results) => [call] + results)
  }

  ghost predicate Batched(blocks: seq<Block>, messages: seq<Message>) {
    (forall b :: b in blocks ==> ValidBlock(b)) && Flatten(blocks) == messages
  }

  ghost predicate WellBatched(messages: seq<Message>) {
    exists blocks :: Batched(blocks, messages)
  }

  // ----- the recogniser

  /** Opening the IDs one by one; a repeated or empty one is refused. */
  function Open(ids: seq<string>): Option<set<string>> {
    if ids == [] then Some({})
    else
      var open := Open(ids[..|ids| - 1]);
      var id := ids[|ids| - 1];
      if open.None? || id == "" || id in open.value then None else Some(open.value + {id})
  }

  function Close(pending: set<string>, ids: seq<string>): Option<set<string>> {
    if ids == [] then Some(pending)
    else
      var open := Close(pending, ids[..|ids| - 1]);
      var id := ids[|ids| - 1];
      if open.None? || id !in open.value then None else Some(open.value - {id})
  }

  function Scan(pending: set<string>, m: Message): Option<set<string>> {
    if Calls(m.parts) != [] then
      if m.role != Assistant || Results(m.parts) != [] || pending != {} then None else Open(Calls(m.parts))
    else if Results(m.parts) != [] then
      if m.role != Tool then None else Close(pending, Results(m.parts))
    else if pending != {} then None else Some(pending)
  }

  function ScanAll(messages: seq<Message>): Option<set<string>> {
    if messages == [] then Some({})
    else
      var before := ScanAll(messages[..|messages| - 1]);
      if before.None? then None else Scan(before.value, messages[|messages| - 1])
  }

  method CountParts(parts: seq<Part>) returns (calls: nat, results: nat)
    ensures calls == |Calls(parts)| && results == |Results(parts)|
  {
    calls, results := 0, 0;
    for i := 0 to |parts|
      invariant calls == |Calls(parts[..i])| && results == |Results(parts[..i])|
    {
      assert parts[..i + 1][..i] == parts[..i];
      if parts[i].toolUse.Some? {
        calls := calls + 1;
      }
      if parts[i].toolResult.Some? {
        results := results + 1;
      }
    }
    assert parts[..|parts|] == parts;
  }

  lemma NextPart(parts: seq<Part>, i: nat)
    requires i < |parts|
    ensures Calls(parts[..i + 1]) == if parts[i].toolUse.Some? then Calls(parts[..i]) + [parts[i].toolUse.value] else Calls(parts[..i])
    ensures Results(parts[..i + 1]) == if parts[i].toolResult.Some? then Results(parts[..i]) + [parts[i].toolResult.value] else Results(parts[..i])
  {
    assert parts[..i + 1][..i] == parts[..i];
  }

  lemma NextId(pending: set<string>, ids: seq<string>, id: string)
    ensures Open(ids + [id]) == if Open(ids).None? || id == "" || id in Open(ids).value then None else Some(Open(ids).value + {id})
    ensures var open := Close(pending, ids);
            Close(pending, ids + [id]) == if open.None? || id !in open.value then None else Some(open.value - {id})
  {
  }

  method OpenCalls(parts: seq<Part>) returns (next: Option<set<string>>)
    ensures next == Open(Calls(parts))
  {
    var open: set<string> := {};
    for i := 0 to |parts|
      invariant Open(Calls(parts[..i])) == Some(open)
    {
      hide Open, Calls, Results;
      NextPart(parts, i);
      if parts[i].toolUse.Some? {
        var id := parts[i].toolUse.value;
        NextId({}, Calls(parts[..i]), id);
        if id == "" || id in open {
          OpenFails(parts, i + 1);
          return None;
        }
        open := open + {id};
      }
    }
    assert parts[..|parts|] == parts;
    return Some(open);
  }

  method CloseResults(pending: set<string>, parts: seq<Part>) returns (next: Option<set<string>>)
    ensures next == Close(pending, Results(parts))
  {
    var open := pending;
    for i := 0 to |parts|
      invariant Close(pending, Results(parts[..i])) == Some(open)
    {
      hide Close, Calls, Results;
      NextPart(parts, i);
      if parts[i].toolResult.Some? {
        var id := parts[i].toolResult.value;
        NextId(pending, Results(parts[..i]), id);
        if id !in open {
          CloseFails(pending, parts, i + 1);
          return None;
        }
        open := open - {id};
      }
    }
    assert parts[..|parts|] == parts;
    return Some(open);
  }

  /** Reports whether the messages hold only complete, contiguous tool batches. */
  method CompactionPrefixSafe(messages: seq<Message>) returns (safe: bool)
    ensures safe <==> WellBatched(messages)
  {
    var pending: set<string> := {};
    for i := 0 to |messages|
      invariant ScanAll(messages[..i]) == Some(pending)
    {
      assert messages[..i + 1][..i] == messages[..i];
      var m := messages[i];
      var calls, results := CountParts(m.parts);
      var next: Option<set<string>>;
      if calls > 0 {
        if m.role != Assistant || results > 0 || |pending| > 0 {
          next := None;
        } else {
          next := OpenCalls(m.parts);
        }
      } else if results > 0 {
        if m.role != Tool {
          next := None;
        } else {
          next := CloseResults(pending, m.parts);
        }
      } else {
        next := if |pending| > 0 then None else Some(pending);
      }
      assert next == Scan(pending, m);
      if next.None? {
        ScanFails(messages, i + 1);
        AcceptedIsBatched(messages);
        return false;
      }
      pending := next.value;
    }
    assert messages[..|messages|] == messages;
    AcceptedIsBatched(messages);
    safe := |pending| == 0;
  }

  lemma {:induction false} OpenFails(parts: seq<Part>, i: nat)
    requires i <= |parts| && Open(Calls(parts[..i])).None?
    ensures Open(Calls(parts)).None?
    decreases |parts| - i
  {
    if i == |parts| {
      assert parts[..i] == parts;
    } else {
      NextPart(parts, i);
      if parts[i].toolUse.Some? {
        NextId({}, Calls(parts[..i]), parts[i].toolUse.value);
      }
      OpenFails(parts, i + 1);
    }
  }

  lemma {:induction false} CloseFails(pending: set<string>, parts: seq<Part>, i: nat)
    requires i <= |parts| && Close(pending, Results(parts[..i])).None?
    ensures Close(pending, Results(parts)).None?
    decreases |parts| - i
  {
    if i == |parts| {
      assert parts[..i] == parts;
    } else {
      NextPart(parts, i);
      if parts[i].toolResult.Some? {
        NextId(pending, Results(parts[..i]), parts[i].toolResult.value);
      }
      CloseFails(pending, parts, i + 1);
    }
  }

  lemma {:induction false} ScanFails(messages: seq<Message>, i: nat)
    requires i <= |messages| && ScanAll(messages[..i]).None?
    ensures ScanAll(messages).None?
    decreases |messages| - i
  {
    if i == |messages| {
      assert messages[..i] == messages;
    } else {
      assert messages[..i + 1][..i] == messages[..i];
      ScanFails(messages, i + 1);
    }
  }

  // ----- the recogniser accepts exactly the language

  lemma {:induction false} OpenedIds(ids: seq<string>)
    ensures Open(ids).Some? <==> Distinct(ids) && "" !in ids
    ensures Open(ids).Some? ==> multiset(Open(ids).value) == multiset(ids)
  {
    if ids == [] {
    } else {
      var init, id := ids[..|ids| - 1], ids[|ids| - 1];
      OpenedIds(init);
      assert ids == init + [id];
      if Open(init).Some? {
        var open := Open(init).value;
        assert id in open <==> id in multiset(init);
        assert id in init <==> id in multiset(init);
        if id !in open && id != "" {
          assert multiset(open + {id}) == multiset(open) + multiset{id};
        }
      }
    }
  }

  lemma {:induction false} ClosedIds(pending: set<string>, ids: seq<string>)
    ensures Close(pending, ids).Some? <==> multiset(ids) <= multiset(pending)
    ensures Close(pending, ids).Some? ==> multiset(Close(pending, ids).value) == multiset(pending) - multiset(ids)
  {
    if ids == [] {
    } else {
      var init, id := ids[..|ids| - 1], ids[|ids| - 1];
      ClosedIds(pending, init);
      assert ids == init + [id];
      assert multiset(ids) == multiset(init) + multiset{id};
      if Close(pending, init).Some? {
        var open := Close(pending, init).value;
        assert id in open <==> id in multiset(open);
        if id in open {
          assert multiset(open - {id}) == multiset(open) - multiset{id};
        }
      }
    }
  }

  lemma ScanSnoc(messages: seq<Message>, m: Message)
    ensures ScanAll(messages + [m]) == if ScanAll(messages).None? then None else Scan(ScanAll(messages).value, m)
  {
  }

  lemma FlattenSnoc(blocks: seq<Block>, b: Block)
    ensures Flatten(blocks + [b]) == Flatten(blocks) + (match b case Single(m) => [m] case Batch(call, results) => [call] + results)
  {
  }

  lemma Unanswered(p: multiset<string>, answered: multiset<string>, more: multiset<string>, calls: multiset<string>)
    requires p + answered == calls && answered + more <= calls
    ensures more <= p && (p - more) + (answered + more) == calls
  {
    assert forall id :: p[id] + answered[id] == calls[id];
    assert forall id :: answered[id] + more[id] <= calls[id];
  }

  /** Exactly the calls in `calls` that `answered` does not cover are pending. */
  ghost predicate Leaves(messages: seq<Message>, calls: seq<string>, answered: seq<string>) {
    ScanAll(messages).Some? && multiset(ScanAll(messages).value) + multiset(answered) == multiset(calls)
  }

  lemma AnswersScan(before: seq<Message>, calls: seq<string>, answered: seq<string>, m: Message)
    requires Leaves(before, calls, answered) && Answers(m) && multiset(answered + Results(m.parts)) <= multiset(calls)
    ensures Leaves(before + [m], calls, answered + Results(m.parts))
  {
    var p, more := ScanAll(before).value, Results(m.parts);
    assert multiset(answered + more) == multiset(answered) + multiset(more);
    Unanswered(multiset(p), multiset(answered), multiset(more), multiset(calls));
    ScanSnoc(before, m);
    ClosedIds(p, more);
  }

  lemma CallScans(before: seq<Message>, call: Message)
    requires ScanAll(before) == Some({}) && Opens(call)
    ensures Leaves(before + [call], Calls(call.parts), [])
  {
    ScanSnoc(before, call);
    OpenedIds(Calls(call.parts));
  }

  lemma Regroup(a: seq<Message>, b: seq<Message>, c: seq<Message>)
    ensures a + (b + c) == a + b + c
  {
  }

  /** Scanning an open batch leaves exactly the unanswered calls pending. */
  lemma {:induction false} BatchScans(before: seq<Message>, call: Message, results: seq<Message>)
    requires ScanAll(before) == Some({}) && Opens(call) && forall m :: m in results ==> Answers(m)
    requires multiset(AllResults(results)) <= multiset(Calls(call.parts))
    ensures Leaves(before + [call] + results, Calls(call.parts), AllResults(results))
  {
    if results == [] {
      CallScans(before, call);
      assert before + [call] + results == before + [call];
    } else {
      var init, m := results[..|results| - 1], results[|results| - 1];
      hide Opens, Answers, ScanAll, Calls, Results, Leaves;
      assert AllResults(results) == AllResults(init) + Results(m.parts);
      assert multiset(AllResults(results)) == multiset(AllResults(init)) + multiset(Results(m.parts));
      hide AllResults;
      BatchScans(before, call, init);
      AnswersScan(before + [call] + init, Calls(call.parts), AllResults(init), m);
      assert results == init + [m];
      Regroup(before + [call], init, [m]);
    }
  }

  lemma EmptyMultiset(p: set<string>)
    ensures multiset(p) == multiset{} <==> p == {}
  {
    if p != {} {
      var x :| x in p;
      assert x in multiset(p);
    }
  }

  lemma {:induction false} BatchedScans(blocks: seq<Block>)
    requires forall b :: b in blocks ==> ValidBlock(b)
    ensures ScanAll(Flatten(blocks)) == Some({})
  {
    if blocks == [] {
    } else {
      var init, b := blocks[..|blocks| - 1], blocks[|blocks| - 1];
      BatchedScans(init);
      assert b in blocks && ValidBlock(b);
      match b
      case Single(m) => ScanSnoc(Flatten(init), m);
      case Batch(call, results) =>
        BatchScans(Flatten(init), call, results);
        assert Flatten(init) + ([call] + results) == Flatten(init) + [call] + results;
        var p := ScanAll(Flatten(blocks)).value;
        assert multiset(p) == multiset(Calls(call.parts)) - multiset(AllResults(results));
        EmptyMultiset(p);
    }
  }

  /** Closed blocks followed by one batch whose calls in `pending` are unanswered. */
  ghost predicate OpenBatch(blocks: seq<Block>, call: Message, results: seq<Message>, messages: seq<Message>, pending: set<string>) {
    && (forall b :: b in blocks ==> ValidBlock(b))
    && Opens(call) && (forall m :: m in results ==> Answers(m))
    && messages == Flatten(blocks) + [call] + results
    && multiset(Calls(call.parts)) == multiset(AllResults(results)) + multiset(pending)
  }

  ghost predicate Parsed(messages: seq<Message>, pending: set<string>) {
    if pending == {} then WellBatched(messages)
    else exists blocks, call, results :: OpenBatch(blocks, call, results, messages, pending)
  }

  lemma {:induction false} Parses(messages: seq<Message>)
    requires ScanAll(messages).Some?
    ensures Parsed(messages, ScanAll(messages).value)
  {
    if messages == [] {
      assert Batched([], messages);
    } else {
      var init, m := messages[..|messages| - 1], messages[|messages| - 1];
      assert messages == init + [m];
      Parses(init);
      hide Parsed, Calls, Results, Open, Close;
      var before := ScanAll(init).value;
      if Calls(m.parts) != [] {
        ParsesCall(init, m);
      } else if Results(m.parts) != [] {
        ParsesResults(init, before, m);
      } else {
        ParsesPlain(init, m);
      }
    }
  }

  lemma ParsesPlain(init: seq<Message>, m: Message)
    requires Parsed(init, {}) && Plain(m)
    ensures Parsed(init + [m], {})
  {
    var blocks :| Batched(blocks, init);
    FlattenSnoc(blocks, Single(m));
    assert Batched(blocks + [Single(m)], init + [m]);
  }

  lemma ParsesCall(init: seq<Message>, m: Message)
    requires Parsed(init, {}) && Calls(m.parts) != [] && Scan({}, m).Some?
    ensures Parsed(init + [m], Scan({}, m).value)
  {
    var blocks :| Batched(blocks, init);
    OpenedIds(Calls(m.parts));
    var pending := Scan({}, m).value;
    assert Calls(m.parts)[0] in multiset(Calls(m.parts));
    assert Calls(m.parts)[0] in pending;
    assert AllResults([]) == [];
    assert OpenBatch(blocks, m, [], init + [m], pending);
  }

  lemma ParsesResults(init: seq<Message>, before: set<string>, m: Message)
    requires Parsed(init, before) && Calls(m.parts) == [] && Results(m.parts) != [] && Scan(before, m).Some?
    ensures Parsed(init + [m], Scan(before, m).value)
  {
    var p := Scan(before, m).value;
    ClosedIds(before, Results(m.parts));
    assert Results(m.parts)[0] in multiset(Results(m.parts));
    assert Results(m.parts)[0] in before;
    var blocks, call, results :| OpenBatch(blocks, call, results, init, before);
    AnswerExtends(blocks, call, results, init, before, m, p);
    if p == {} {
      BatchCloses(blocks, call, results + [m], init + [m]);
    }
  }

  lemma AnswerExtends(
    blocks: seq<Block>, call: Message, results: seq<Message>, messages: seq<Message>, before: set<string>, m: Message, p: set<string>)
    requires OpenBatch(blocks, call, results, messages, before) && Answers(m)
    requires multiset(Results(m.parts)) <= multiset(before) && multiset(p) == multiset(before) - multiset(Results(m.parts))
    ensures OpenBatch(blocks, call, results + [m], messages + [m], p)
  {
  }

  lemma BatchCloses(blocks: seq<Block>, call: Message, results: seq<Message>, messages: seq<Message>)
    requires OpenBatch(blocks, call, results, messages, {})
    ensures WellBatched(messages)
  {
    FlattenSnoc(blocks, Batch(call, results));
    assert multiset(AllResults(results)) + multiset({}) == multiset(AllResults(results));
    assert ValidBlock(Batch(call, results));
    hide ValidBlock, Opens, Answers, Flatten, Calls, AllResults;
    assert Flatten(blocks) + [call] + results == Flatten(blocks) + ([call] + results);
    assert Batched(blocks + [Batch(call, results)], messages);
  }

  lemma AcceptedIsBatched(messages: seq<Message>)
    ensures ScanAll(messages) == Some({}) <==> WellBatched(messages)
  {
    if ScanAll(messages) == Some({}) {
      Parses(messages);
    }
    if WellBatched(messages) {
      var blocks :| Batched(blocks, messages);
      BatchedScans(blocks);
    }
  }

  lemma {:induction false} FlattenAppends(a: seq<Block>, b: seq<Block>)
    ensures Flatten(a + b) == Flatten(a) + Flatten(b)
  {
    if b == [] {
      assert a + b == a;
    } else {
      var init, last := b[..|b| - 1], b[|b| - 1];
      assert a + b == a + init + [last];
      FlattenAppends(a, init);
      FlattenSnoc(a + init, last);
    }
  }

  /** Safe prefixes concatenate, and a user instruction may follow any of them. */
  lemma SafePrefixesConcatenate(a: seq<Message>, b: seq<Message>, instruction: Message)
    requires WellBatched(a)
    ensures WellBatched(b) ==> WellBatched(a + b)
    ensures Plain(instruction) ==> WellBatched(a + [instruction])
  {
    var x :| Batched(x, a);
    if WellBatched(b) {
      var y :| Batched(y, b);
      FlattenAppends(x, y);
      assert Batched(x + y, a + b);
    }
    if Plain(instruction) {
      FlattenSnoc(x, Single(instruction));
      assert Batched(x + [Single(instruction)], a + [instruction]);
    }
  }

  /** Nothing but the rest of the language can complete a safe prefix. */
  lemma {:induction false} SafePrefixCancels(a: seq<Message>, b: seq<Message>)
    requires WellBatched(a)
    ensures ScanAll(a + b) == ScanAll(b)
    ensures WellBatched(a + b) <==> WellBatched(b)
  {
    AcceptedIsBatched(a);
    AcceptedIsBatched(a + b);
    AcceptedIsBatched(b);
    if b == [] {
      assert a + b == a;
    } else {
      var init, m := b[..|b| - 1], b[|b| - 1];
      SafePrefixCancels(a, init);
      assert a + b == a + init + [m];
      ScanSnoc(a + init, m);
    }
  }

  // ----- tool pairs around the coverage cut of an asynchronous compaction

  /** A Session event as the pair check sees it: `None` is an event without tool data. */
  datatype Event = ToolCall(id: Option<string>) | ToolResult(id: Option<string>) | OtherEvent

  /** Which way the events concerning one ID go: true for a call, false for a result. */
  function Track(events: seq<Event>, id: string): seq<bool> {
    if events == [] then []
    else
      var before, last := Track(events[..|events| - 1], id), events[|events| - 1];
      if last == ToolCall(Some(id)) then before + [true]
      else if last == ToolResult(Some(id)) then before + [false]
      else before
  }

  /** Calls and results alternate, starting with a call. */
  ghost predicate Alternates(track: seq<bool>) {
    forall i :: 0 <= i < |track| ==> (track[i] <==> i % 2 == 0)
  }

  ghost predicate Identified(events: seq<Event>) {
    forall e :: e in events ==>
      e != ToolCall(None) && e != ToolCall(Some("")) && e != ToolResult(None)
  }

  /** No tool event lacks its identity, and for every ID each call is followed by its result. */
  ghost predicate PairsComplete(events: seq<Event>) {
    Identified(events) && forall id :: Alternates(Track(events, id)) && |Track(events, id)| % 2 == 0
  }

  ghost predicate PairsOpen(events: seq<Event>, pending: set<string>) {
    Identified(events) && forall id :: Alternates(Track(events, id)) && (|Track(events, id)| % 2 == 1 <==> id in pending)
  }

  lemma TrackSnoc(events: seq<Event>, e: Event, id: string)
    ensures Track(events + [e], id) ==
            if e == ToolCall(Some(id)) then Track(events, id) + [true]
            else if e == ToolResult(Some(id)) then Track(events, id) + [false]
            else Track(events, id)
  {
  }

  lemma {:induction false} TrackPrefix(events: seq<Event>, n: nat, id: string)
    requires n <= |events|
    ensures Track(events[..n], id) <= Track(events, id)
    decreases |events| - n
  {
    if n == |events| {
      assert events[..n] == events;
    } else {
      assert events[..n + 1] == events[..n] + [events[n]];
      TrackSnoc(events[..n], events[n], id);
      TrackPrefix(events, n + 1, id);
    }
  }

  lemma {:induction false} TrackAppends(a: seq<Event>, b: seq<Event>, id: string)
    ensures Track(a + b, id) == Track(a, id) + Track(b, id)
  {
    if b == [] {
      assert a + b == a;
    } else {
      var init, e := b[..|b| - 1], b[|b| - 1];
      assert a + b == a + init + [e] && b == init + [e];
      TrackAppends(a, init, id);
      TrackSnoc(a + init, e, id);
      TrackSnoc(init, e, id);
    }
  }

  /** An event without identity, a repeated call or an unexpected result cannot be repaired. */
  lemma Unpaired(events: seq<Event>, i: nat, pending: set<string>)
    requires i < |events| && PairsOpen(events[..i], pending)
    requires match events[i]
             case ToolCall(id) => id.None? || id.value == "" || id.value in pending
             case ToolResult(id) => id.None? || id.value !in pending
             case OtherEvent => false
    ensures !PairsComplete(events)
  {
    assert events[i] in events;
    if events[i].id.Some? && Identified(events) {
      var id := events[i].id.value;
      var before, track := Track(events[..i], id), Track(events, id);
      assert events[..i + 1] == events[..i] + [events[i]];
      TrackSnoc(events[..i], events[i], id);
      TrackPrefix(events, i + 1, id);
      assert track[|before|] == Track(events[..i + 1], id)[|before|] == events[i].ToolCall?;
    }
  }

  lemma PairsNext(events: seq<Event>, pending: set<string>, e: Event, next: set<string>)
    requires PairsOpen(events, pending)
    requires match e
             case ToolCall(id) => id.Some? && id.value != "" && id.value !in pending && next == pending + {id.value}
             case ToolResult(id) => id.Some? && id.value in pending && next == pending - {id.value}
             case OtherEvent => next == pending
    ensures PairsOpen(events + [e], next)
  {
    forall id
      ensures Alternates(Track(events + [e], id)) && (|Track(events + [e], id)| % 2 == 1 <==> id in next)
    {
      TrackSnoc(events, e, id);
      assert Alternates(Track(events, id)) && (|Track(events, id)| % 2 == 1 <==> id in pending);
    }
  }

  method AsyncToolPairsComplete(events: seq<Event>) returns (complete: bool)
    ensures complete <==> PairsComplete(events)
  {
    var pending: set<string> := {};
    for i := 0 to |events|
      invariant PairsOpen(events[..i], pending)
    {
      hide PairsOpen, PairsComplete;
      ghost var before := pending;
      match events[i] {
        case ToolCall(id) =>
          if id.None? || id.value == "" || id.value in pending {
            Unpaired(events, i, pending);
            return false;
          }
          pending := pending + {id.value};
        case ToolResult(id) =>
          if id.None? || id.value !in pending {
            Unpaired(events, i, pending);
            return false;
          }
          pending := pending - {id.value};
        case OtherEvent =>
      }
      PairsNext(events[..i], before, events[i], pending);
      assert events[..i + 1] == events[..i] + [events[i]];
    }
    assert events[..|events|] == events;
    complete := |pending| == 0;
  }

  lemma AlternationShifts(a: seq<bool>, b: seq<bool>)
    requires Alternates(a) && |a| % 2 == 0
    ensures Alternates(a + b) <==> Alternates(b)
  {
    assert forall i :: 0 <= i < |b| ==> (a + b)[|a| + i] == b[i];
  }

  /** Complete covered events make the whole complete exactly when the tail is. */
  lemma CompleteTail(covered: seq<Event>, tail: seq<Event>)
    requires PairsComplete(covered)
    ensures PairsComplete(covered + tail) <==> PairsComplete(tail)
  {
    forall id
      ensures Alternates(Track(covered + tail, id)) <==> Alternates(Track(tail, id))
      ensures |Track(covered + tail, id)| % 2 == |Track(tail, id)| % 2
    {
      TrackAppends(covered, tail, id);
      AlternationShifts(Track(covered, id), Track(tail, id));
    }
    assert forall e :: e in covered + tail <==> e in covered || e in tail;
  }

  /** A call and the result that answers it: nothing else concerns their ID in between. */
  ghost predicate Pair(events: seq<Event>, i: nat, j: nat, id: string) {
    && i < j < |events| && events[i] == ToolCall(Some(id)) && events[j] == ToolResult(Some(id))
    && forall k :: i < k < j ==> events[k] != ToolCall(Some(id)) && events[k] != ToolResult(Some(id))
  }

  /** No pair straddles a cut whose covered side is complete. */
  lemma NoPairStraddles(covered: seq<Event>, tail: seq<Event>, i: nat, j: nat, id: string)
    requires PairsComplete(covered) && Pair(covered + tail, i, j, id)
    ensures !(i < |covered| <= j)
  {
    if i < |covered| <= j {
      assert forall k :: i < k < |covered| ==> covered[k] == (covered + tail)[k];
      assert covered[..|covered|] == covered;
      OpenSince(covered, i, |covered|, id);
      assert false;
    }
  }

  lemma {:induction false} OpenSince(events: seq<Event>, i: nat, n: nat, id: string)
    requires PairsComplete(events)
    requires i < n <= |events| && events[i] == ToolCall(Some(id))
    requires forall k :: i < k < n ==> events[k] != ToolCall(Some(id)) && events[k] != ToolResult(Some(id))
    ensures |Track(events[..n], id)| % 2 == 1
  {
    assert events[..n] == events[..n - 1] + [events[n - 1]];
    TrackSnoc(events[..n - 1], events[n - 1], id);
    TrackPrefix(events, n, id);
    if n > i + 1 {
      OpenSince(events, i, n - 1, id);
    } else {
      var track := Track(events[..n], id);
      assert track[|track| - 1];
      assert Track(events, id)[|track| - 1];
    }
  }
}
