/** Committing a compaction checkpoint: the writer holds a Session revision it counted
    itself, other writers move the Store between any two of its calls, and a write whose
    answer is lost may still have been committed. */
module Commit {

  import opened Wrappers

  /** A durable event. `main` says whether the main invocation sees it; `body` stands for
      everything compared by the one-payload-per-identity contract. */
  datatype Event = Event(id: int, key: Option<int>, main: bool, body: int, seqno: nat)

  datatype Snapshot = Snapshot(log: seq<Event>, state: int, session: int)

  // ----- the Store's append contract

  predicate Matches(event: Event, want: Event) {
    event.id == want.id || (want.key.Some? && event.key == want.key)
  }

  predicate SamePayload(a: Event, b: Event) {
    a.key == b.key && a.main == b.main && a.body == b.body
  }

  function FindId(log: seq<Event>, id: int): (r: Option<Event>)
    ensures r.Some? <==> exists e :: e in log && e.id == id
    ensures r.Some? ==> r.value in log && r.value.id == id
  {
    if log == [] then None
    else
      var n := |log| - 1;
      if log[n].id == id then Some(log[n]) else FindId(log[..n], id)
  }

  function FindKey(log: seq<Event>, key: int): (r: Option<Event>)
    ensures r.Some? <==> exists e :: e in log && e.key == Some(key)
    ensures r.Some? ==> r.value in log && r.value.key == Some(key)
  {
    if log == [] then None
    else
      var n := |log| - 1;
      if log[n].key == Some(key) then Some(log[n]) else FindKey(log[..n], key)
  }

  /** The record that already carries the identity: by ID first, then by idempotency key. */
  function Prior(log: seq<Event>, want: Event): (r: Option<Event>)
    ensures r.Some? <==> exists e :: e in log && Matches(e, want)
    ensures r.Some? ==> r.value in log && Matches(r.value, want)
  {
    var byId := FindId(log, want.id);
    if byId.Some? || want.key.None? then byId else FindKey(log, want.key.value)
  }

  /** No record carries the identity. */
  ghost predicate Fresh(log: seq<Event>, want: Event) {
    forall e :: e in log ==> !Matches(e, want)
  }

  function Stamp(log: seq<Event>, event: Event): Event {
    event.(seqno := |log| + 1)
  }

  datatype Placement = New(log: seq<Event>) | Existing(event: Event) | Clash

  function Place(log: seq<Event>, event: Event): (r: Placement)
    ensures r.New? ==> r.log == log + [Stamp(log, event)]
    ensures r.New? <==> Fresh(log, event)
    ensures r.Existing? ==> r.event in log && Matches(r.event, event) && SamePayload(r.event, event)
  {
    match Prior(log, event)
    case None => New(log + [Stamp(log, event)])
    case Some(prior) => if SamePayload(prior, event) then Existing(prior) else Clash
  }

  /** A batch is placed event by event, or not at all. */
  function Merge(log: seq<Event>, events: seq<Event>): (r: Option<seq<Event>>)
    ensures r.Some? ==> log <= r.value
    decreases |events|
  {
    if events == [] then Some(log)
    else
      match Place(log, events[0])
      case New(longer) => Merge(longer, events[1..])
      case Existing(_) => Merge(log, events[1..])
      case Clash => None
  }

  /** No two records share an ID or an idempotency key. */
  ghost predicate Unique(log: seq<Event>) {
    forall i, j :: 0 <= i < j < |log| ==> log[i].id != log[j].id && (log[i].key.Some? ==> log[i].key != log[j].key)
  }

  lemma PlaceKeepsUnique(log: seq<Event>, event: Event)
    requires Unique(log) && Place(log, event).New?
    ensures Unique(Place(log, event).log)
  {
  }

  lemma {:induction false} MergeKeepsUnique(log: seq<Event>, events: seq<Event>)
    requires Unique(log) && Merge(log, events).Some?
    ensures Unique(Merge(log, events).value)
    decreases |events|
  {
    if events == [] {
    } else {
      match Place(log, events[0])
      case New(longer) =>
        PlaceKeepsUnique(log, events[0]);
        MergeKeepsUnique(longer, events[1..]);
      case Existing(_) =>
        MergeKeepsUnique(log, events[1..]);
    }
  }

  datatype Appended = Ok(event: Event) | RevisionConflict | OtherError

  /** A write by someone else: a batch of events together with new state and Session fields. */
  datatype Write = Write(events: seq<Event>, state: int, session: int)

  class Store {
    var log: seq<Event>
    var state: int
    var session: int
    var revision: nat
    /** The content at every revision so far. */
    ghost var history: seq<Snapshot>
    /** How many revisions other writers made. */
    ghost var foreign: nat

    ghost predicate Valid()
      reads this
    {
      && |history| == revision + 1
      && history[revision] == Now()
      && Unique(log)
      && foreign <= revision
    }

    function Now(): Snapshot
      reads this
    {
      Snapshot(log, state, session)
    }

    constructor ()
      ensures Valid() && log == [] && revision == 0 && foreign == 0
    {
      log, state, session, revision := [], 0, 0, 0;
      history, foreign := [Snapshot([], 0, 0)], 0;
    }

    /** The append primitive: a stale expected revision is refused before anything else. */
    method Append(expected: Option<nat>, event: Event) returns (r: Appended, ghost committed: bool)
      requires Valid()
      modifies this
      ensures Valid() && foreign == old(foreign) && state == old(state) && session == old(session)
      ensures r == RevisionConflict <==> expected.Some? && expected.value != old(revision)
      ensures r.Ok? ==> r.event in log && Matches(r.event, event) && SamePayload(r.event, event)
      ensures committed <==> r != RevisionConflict && Fresh(old(log), event)
      ensures committed ==> r.Ok? && revision == old(revision) + 1 && log == old(log) + [Stamp(old(log), event)]
                            && history == old(history) + [Now()]
      ensures !committed ==> revision == old(revision) && log == old(log) && history == old(history)
    {
      committed := false;
      if expected.Some? && expected.value != revision {
        return RevisionConflict, false;
      }
      match Place(log, event)
      case New(longer) =>
        PlaceKeepsUnique(log, event);
        r := Ok(Stamp(log, event));
        assert longer[|log|] == r.event;
        log, revision, committed := longer, revision + 1, true;
        history := history + [Now()];
      case Existing(prior) =>
        r := Ok(prior);
      case Clash =>
        r := OtherError;
    }

    /** One write by another writer: a batch that is applied as a whole or refused. Identities
        this process minted itself are not theirs to use. */
    method WriteOther(write: Write, minted: seq<Event>)
      requires Valid()
      modifies this
      ensures Valid() && old(log) <= log && Untouched(minted, old(log), log)
      ensures revision - foreign == old(revision) - old(foreign)
      ensures if foreign == old(foreign) then Now() == old(Now()) && history == old(history)
              else foreign == old(foreign) + 1 && history == old(history) + [Now()] && IsEffect(old(Now()), Now(), write)
    {
      var merged := Merge(log, write.events);
      if merged.Some? && Respects(write.events, minted) {
        MergeKeepsUnique(log, write.events);
        MergeUntouched(minted, log, write.events);
        log, state, session := merged.value, write.state, write.session;
        revision, foreign := revision + 1, foreign + 1;
        history := history + [Now()];
      }
    }

    /** The given writes by others, in order. */
    method Interfere(writes: seq<Write>, minted: seq<Event>)
      requires Valid()
      modifies this
      ensures Valid() && old(history) <= history && old(log) <= log
      ensures old(foreign) <= foreign <= old(foreign) + |writes|
      ensures revision - foreign == old(revision) - old(foreign)
      ensures foreign == old(foreign) ==> Now() == old(Now()) && history == old(history)
      ensures Untouched(minted, old(log), log)
      ensures Explained(history, old(revision), [], Members(writes))
    {
      hide *;
      Sizes();
      NothingYet(history, revision, Members(writes));
      UntouchedYet(minted, log);
      for i := 0 to |writes|
        invariant Valid() && |history| == revision + 1 && old(history) <= history && old(log) <= log
        invariant old(foreign) <= foreign <= old(foreign) + i
        invariant revision - foreign == old(revision) - old(foreign)
        invariant foreign == old(foreign) ==> Now() == old(Now()) && history == old(history)
        invariant Untouched(minted, old(log), log)
        invariant Explained(history, old(revision), [], Members(writes))
      {
        ghost var l, h := log, history;
        Sizes();
        WriteOther(writes[i], minted);
        UntouchedJoins(minted, old(log), l, log);
        if history != h {
          OneMore(h, history, old(revision), [], writes, i);
        }
      }
    }

    lemma Sizes()
      requires Valid()
      ensures |history| == revision + 1 && history[revision] == Now() && foreign <= revision
      ensures Now() == Snapshot(log, state, session)
    {
    }
  }

  lemma UntouchedYet(minted: seq<Event>, log: seq<Event>)
    ensures Untouched(minted, log, log)
  {
  }

  lemma UntouchedJoins(minted: seq<Event>, before: seq<Event>, mid: seq<Event>, after: seq<Event>)
    requires Untouched(minted, before, mid) && Untouched(minted, mid, after)
    ensures Untouched(minted, before, after)
  {
    forall m | m in minted
      ensures SameUnder(m, before, after)
    {
      assert SameUnder(m, before, mid) && SameUnder(m, mid, after);
    }
  }

  // ----- who made a revision

  function Members(writes: seq<Write>): set<Write> {
    set write | write in writes
  }

  /** One snapshot follows another by this write. */
  ghost predicate IsEffect(before: Snapshot, after: Snapshot, write: Write) {
    && Merge(before.log, write.events) == Some(after.log)
    && after.state == write.state
    && after.session == write.session
  }

  ghost predicate ByOthers(history: seq<Snapshot>, at: nat, writes: set<Write>)
    requires at + 1 < |history|
  {
    exists write :: write in writes && IsEffect(history[at], history[at + 1], write)
  }

  /** Every revision since `from` is one of the call's own or the effect of a given write. */
  ghost predicate Explained(history: seq<Snapshot>, from: nat, own: seq<nat>, writes: set<Write>) {
    forall at :: from <= at < |history| - 1 ==> at in own || ByOthers(history, at, writes)
  }

  lemma NothingYet(history: seq<Snapshot>, from: nat, writes: set<Write>)
    requires |history| == from + 1
    ensures Explained(history, from, [], writes)
  {
  }

  lemma OneMore(h: seq<Snapshot>, longer: seq<Snapshot>, from: nat, own: seq<nat>, writes: seq<Write>, i: nat)
    requires |longer| == |h| + 1 && h != [] && h <= longer && Explained(h, from, own, Members(writes))
    requires i < |writes| && IsEffect(h[|h| - 1], longer[|h|], writes[i])
    ensures Explained(longer, from, own, Members(writes))
  {
    forall at | from <= at < |longer| - 1
      ensures at in own || ByOthers(longer, at, Members(writes))
    {
      assert longer[at] == h[at];
      if at < |h| - 1 {
        assert longer[at + 1] == h[at + 1];
        if at !in own {
          assert ByOthers(h, at, Members(writes));
        }
      } else {
        assert writes[i] in Members(writes);
      }
    }
  }

  lemma ExplainedJoins(h: seq<Snapshot>, longer: seq<Snapshot>, from: nat, mid: nat,
                       own: seq<nat>, more: seq<nat>, writes: set<Write>, others: set<Write>)
    requires h <= longer && |h| == mid + 1
    requires Explained(h, from, own, writes) && Explained(longer, mid, more, others)
    ensures Explained(longer, from, own + more, writes + others)
  {
    forall at | from <= at < |longer| - 1
      ensures at in own + more || ByOthers(longer, at, writes + others)
    {
      if at < mid {
        assert longer[at] == h[at] && longer[at + 1] == h[at + 1];
        if at !in own {
          assert ByOthers(h, at, writes);
        }
      }
    }
  }

  /** What every given write keeps is kept while only they write. */
  ghost predicate Keeps(writes: set<Write>, p: Snapshot -> bool) {
    forall write, before, after ::
      write in writes && p(before) && IsEffect(before, after, write) ==> p(after)
  }

  lemma {:induction false} KeptByOthers(history: seq<Snapshot>, from: nat, to: nat, writes: set<Write>, p: Snapshot -> bool)
    requires from <= to < |history| && Explained(history, from, [], writes)
    requires Keeps(writes, p) && p(history[from])
    ensures p(history[to])
  {
    if from == to {
    } else {
      KeptByOthers(history, from, to - 1, writes, p);
      assert ByOthers(history, to - 1, writes);
    }
  }

  // ----- identities of this process

  predicate Respects(events: seq<Event>, minted: seq<Event>) {
    forall e, m :: e in events && m in minted ==> !Matches(e, m)
  }

  /** Every record under the identity was there before. */
  ghost predicate SameUnder(minted: Event, before: seq<Event>, after: seq<Event>) {
    forall e :: e in after && Matches(e, minted) ==> e in before
  }

  ghost predicate Untouched(minted: seq<Event>, before: seq<Event>, after: seq<Event>) {
    forall m :: m in minted ==> SameUnder(m, before, after)
  }

  lemma {:induction false} MergeSameUnder(minted: Event, log: seq<Event>, events: seq<Event>)
    requires Merge(log, events).Some? && forall e :: e in events ==> !Matches(e, minted)
    ensures SameUnder(minted, log, Merge(log, events).value)
    decreases |events|
  {
    if events == [] {
    } else {
      assert events[0] in events;
      match Place(log, events[0])
      case New(longer) =>
        MergeSameUnder(minted, longer, events[1..]);
        assert forall e :: e in longer && Matches(e, minted) ==> e in log;
      case Existing(_) =>
        MergeSameUnder(minted, log, events[1..]);
    }
  }

  lemma MergeUntouched(minted: seq<Event>, log: seq<Event>, events: seq<Event>)
    requires Merge(log, events).Some? && Respects(events, minted)
    ensures Untouched(minted, log, Merge(log, events).value)
  {
    forall m | m in minted
      ensures SameUnder(m, log, Merge(log, events).value)
    {
      MergeSameUnder(m, log, events);
    }
  }

  // ----- committing a checkpoint

  const ROUNDS: nat := 8

  datatype Result =
    | Committed(event: Event)
    | Stale
    | LoadFailed
    | NotFound
    | Unread

  /** Revision `at` became `at + 1` by this event alone, and was still valid. */
  ghost predicate CommittedAt(history: seq<Snapshot>, at: nat, event: Event, valid: Snapshot -> bool) {
    Adds(history, at, event) && valid(history[at])
  }

  /** The revisions this call made since `from`. */
  ghost predicate Commits(history: seq<Snapshot>, from: nat, commits: seq<nat>, event: Event, valid: Snapshot -> bool) {
    forall at :: at in commits ==> from <= at && CommittedAt(history, at, event, valid)
  }

  /** What happens to one write request: it is answered, or its answer is lost before or after
      the Store acted on it. */
  datatype Fault = Delivered | LostBefore | LostAfter

  /** One round of the writer: what others write before its request, the fate of the request,
      what others write before it reads the Store again, and whether that read succeeds. */
  datatype Round = Round(before: seq<Write>, fault: Fault, between: seq<Write>, readable: bool)

  function RoundWrites(round: Round): set<Write> {
    Members(round.before) + Members(round.between)
  }

  /** Everything others write in the first rounds of a script. */
  function Writes(script: nat -> Round, rounds: nat): set<Write> {
    if rounds == 0 then {} else Writes(script, rounds - 1) + RoundWrites(script(rounds - 1))
  }

  /** One write request. */
  method Attempt(store: Store, expected: Option<nat>, event: Event, fault: Fault) returns (r: Appended, ghost committed: bool)
    requires store.Valid()
    modifies store
    ensures store.Valid() && store.foreign == old(store.foreign)
    ensures committed <==> !fault.LostBefore? && (expected.Some? ==> expected.value == old(store.revision)) && Fresh(old(store.log), event)
    ensures committed ==> store.revision == old(store.revision) + 1 && store.history == old(store.history) + [store.Now()]
                          && store.Now() == old(store.Now()).(log := old(store.log) + [Stamp(old(store.log), event)])
    ensures !committed ==> store.revision == old(store.revision) && store.history == old(store.history) && store.Now() == old(store.Now())
    ensures r.Ok? ==> r.event in store.log && Matches(r.event, event) && SamePayload(r.event, event)
    ensures r == RevisionConflict <==> fault.Delivered? && expected.Some? && expected.value != old(store.revision)
    ensures fault.Delivered? && committed ==> r.Ok?
    ensures !fault.Delivered? ==> r == OtherError
  {
    if fault.LostBefore? {
      return OtherError, false;
    }
    r, committed := store.Append(expected, event);
    if fault.LostAfter? {
      r := OtherError;
    }
  }

  /** The first record under the identity, if it has the payload too. */
  function ReadBack(log: seq<Event>, want: Event): (r: Option<Event>)
    ensures r.Some? ==> r.value in log && Matches(r.value, want) && SamePayload(r.value, want)
  {
    if log == [] then None
    else if !Matches(log[0], want) then ReadBack(log[1..], want)
    else if SamePayload(log[0], want) then Some(log[0])
    else None
  }

  /** Reads the Store back for the identity of a write whose answer was an error. */
  method Reconcile(log: seq<Event>, want: Event) returns (r: Option<Event>)
    ensures r == ReadBack(log, want)
  {
    for i := 0 to |log|
      invariant ReadBack(log, want) == ReadBack(log[i..], want)
    {
      assert log[i..][0] == log[i] && log[i..][1..] == log[i + 1..];
      if Matches(log[i], want) {
        if SamePayload(log[i], want) {
          return Some(log[i]);
        }
        return None;
      }
    }
    return None;
  }

  lemma {:induction false} ReadPastOthers(before: seq<Event>, rest: seq<Event>, want: Event)
    requires Fresh(before, want)
    ensures ReadBack(before + rest, want) == ReadBack(rest, want)
  {
    if before == [] {
      assert before + rest == rest;
    } else {
      assert before[0] in before;
      assert (before + rest)[1..] == before[1..] + rest;
      ReadPastOthers(before[1..], rest, want);
    }
  }

  lemma FreshNotFound(log: seq<Event>, want: Event)
    ensures Fresh(log, want) ==> ReadBack(log, want).None?
  {
    if Fresh(log, want) {
      ReadPastOthers(log, [], want);
      assert log + [] == log;
    }
  }

  /** A write that was committed is what reading back finds, whatever was appended since. */
  lemma CommitIsReadBack(before: seq<Event>, now: seq<Event>, event: Event)
    requires Fresh(before, event) && before + [Stamp(before, event)] <= now
    ensures ReadBack(now, event) == Some(Stamp(before, event))
  {
    var n := |before|;
    assert now == before + now[n..] && now[n..][0] == now[n];
    assert now[n] == (before + [Stamp(before, event)])[n] == Stamp(before, event);
    ReadPastOthers(before, now[n..], event);
  }

  /** The identity is stored with this payload. */
  ghost predicate Stored(log: seq<Event>, event: Event) {
    exists e :: e in log && Matches(e, event) && SamePayload(e, event)
  }

  /** Requests are answered, reads succeed, and what others write keeps the rule. */
  ghost predicate Calm(round: Round, event: Event, valid: Snapshot -> bool) {
    && round.fault.Delivered?
    && round.readable
    && Keeps(RoundWrites(round), valid)
    && Avoid(RoundWrites(round), event)
  }

  /** What one reply says about the checkpoint. */
  ghost predicate Answers(r: Result, log: seq<Event>, event: Event, commits: seq<nat>) {
    && (r.Committed? ==>
          && r.event in log && (r.event.id == event.id || (event.key.Some? && r.event.key == event.key))
          && r.event.key == event.key && r.event.main == event.main && r.event.body == event.body)
    && (r.Stale? || r.LoadFailed? || r.NotFound? ==> commits == [])
  }

  /** Why a checkpoint was not committed: a read failed, nothing was found when reading back, or
      the rule no longer holds (or every round met a conflict). */
  ghost predicate Blames(r: Result, now: Snapshot, event: Event, valid: Snapshot -> bool, readable: bool, conflicts: bool) {
    match r
    case Committed(_) => true
    case Unread => !readable
    case LoadFailed => !readable
    case NotFound => readable && ReadBack(now.log, event).None?
    case Stale => !valid(now) || conflicts
  }

  /** Revision `at` became `at + 1` by this record alone. */
  ghost predicate Adds(history: seq<Snapshot>, at: nat, event: Event) {
    && at + 1 < |history|
    && history[at + 1] == history[at].(log := history[at].log + [Stamp(history[at].log, event)])
  }

  /** The identities this process minted are used by nobody else. */
  ghost predicate OnlyEvent(minted: seq<Event>, before: seq<Event>, after: seq<Event>, event: Event) {
    forall m, e :: m in minted && e in after && Matches(e, m) ==> e in before || (e.id == event.id && e.key == event.key)
  }

  ghost predicate Avoid(writes: set<Write>, event: Event) {
    forall write :: write in writes ==> Respects(write.events, [event])
  }

  lemma AvoidingKeepsFresh(history: seq<Snapshot>, from: nat, to: nat, writes: set<Write>, event: Event)
    requires from <= to < |history| && Explained(history, from, [], writes)
    requires Avoid(writes, event) && Fresh(history[from].log, event)
    ensures Fresh(history[to].log, event)
  {
    forall write, before: Snapshot, after | write in writes && Fresh(before.log, event) && IsEffect(before, after, write)
      ensures Fresh(after.log, event)
    {
      assert event in [event];
      MergeSameUnder(event, before.log, write.events);
    }
    KeptByOthers(history, from, to, writes, (snapshot: Snapshot) => Fresh(snapshot.log, event));
  }

  /** Others do not write under this identity. */
  ghost predicate Ours(writes: seq<Write>, minted: seq<Event>, event: Event) {
    event in minted || Avoid(Members(writes), event)
  }

  lemma StillFresh(history: seq<Snapshot>, from: nat, to: nat, writes: seq<Write>, minted: seq<Event>, event: Event)
    requires from <= to < |history| && Explained(history, from, [], Members(writes))
    requires Untouched(minted, history[from].log, history[to].log)
    requires Ours(writes, minted, event) && Fresh(history[from].log, event)
    ensures Fresh(history[to].log, event)
  {
    if event in minted {
      assert SameUnder(event, history[from].log, history[to].log);
    } else {
      AvoidingKeepsFresh(history, from, to, Members(writes), event);
    }
  }

  lemma NoMember(writes: seq<Write>)
    ensures Members(writes) == {} ==> writes == []
  {
    if writes != [] {
      assert writes[0] in Members(writes);
    }
  }

  lemma NoneWritten(round: Round)
    requires RoundWrites(round) == {}
    ensures round.before == round.between == []
  {
    NoMember(round.before);
    NoMember(round.between);
  }

  lemma OnlyEventAdded(minted: seq<Event>, before: seq<Event>, mid: seq<Event>, added: seq<Event>, event: Event)
    requires Untouched(minted, before, mid) && (added == [] || added == [Stamp(mid, event)])
    ensures OnlyEvent(minted, before, mid + added, event)
  {
    forall m, e | m in minted && e in mid + added && Matches(e, m)
      ensures e in before || (e.id == event.id && e.key == event.key)
    {
      assert SameUnder(m, before, mid);
      if e in mid {
        assert e in before;
      }
    }
  }

  lemma OnlyEventStays(minted: seq<Event>, before: seq<Event>, mid: seq<Event>, after: seq<Event>, event: Event)
    requires OnlyEvent(minted, before, mid, event) && Untouched(minted, mid, after)
    ensures OnlyEvent(minted, before, after, event)
  {
    forall m, e | m in minted && e in after && Matches(e, m)
      ensures e in before || (e.id == event.id && e.key == event.key)
    {
      assert SameUnder(m, mid, after);
      assert e in mid;
    }
  }

  lemma {:induction false} FoundStays(log: seq<Event>, now: seq<Event>, event: Event)
    requires log <= now && ReadBack(log, event).Some?
    ensures ReadBack(now, event) == ReadBack(log, event) && Stored(now, event)
  {
    assert now[0] == log[0] && log[1..] <= now[1..];
    if !Matches(log[0], event) {
      FoundStays(log[1..], now[1..], event);
    } else {
      assert log[0] in now;
    }
  }

  lemma AddedAt(h: seq<Snapshot>, longer: seq<Snapshot>, at: nat, event: Event)
    requires |h| == at + 1 && h <= longer && |longer| == at + 2
    requires longer[at + 1] == h[at].(log := h[at].log + [Stamp(h[at].log, event)])
    ensures Adds(longer, at, event)
  {
    assert longer[at] == h[at];
  }

  lemma AddedStays(h: seq<Snapshot>, longer: seq<Snapshot>, at: nat, event: Event)
    requires h <= longer && Adds(h, at, event)
    ensures Adds(longer, at, event)
  {
    assert longer[at] == h[at] && longer[at + 1] == h[at + 1];
  }

  lemma OwnStep(h: seq<Snapshot>, longer: seq<Snapshot>, from: nat, at: nat, step: seq<nat>, writes: set<Write>)
    requires |h| == at + 1 && h <= longer && |longer| == |h| + |step| && (step == [] || step == [at])
    requires Explained(h, from, [], writes)
    ensures Explained(longer, from, step, writes)
  {
    assert Explained(longer, at, step, {});
    ExplainedJoins(h, longer, from, at, [], step, writes, {});
    assert [] + step == step && writes + {} == writes;
  }

  lemma LaterOthers(h: seq<Snapshot>, longer: seq<Snapshot>, from: nat, step: seq<nat>, round: Round)
    requires h != [] && h <= longer
    requires Explained(h, from, step, Members(round.before)) && Explained(longer, |h| - 1, [], Members(round.between))
    ensures Explained(longer, from, step, RoundWrites(round))
  {
    ExplainedJoins(h, longer, from, |h| - 1, step, [], Members(round.before), Members(round.between));
    assert step + [] == step;
  }

  /** What others write until the Store acts on a request, and the request itself. */
  method Send(store: Store, expected: Option<nat>, event: Event, writes: seq<Write>, fault: Fault, minted: seq<Event>)
    returns (reply: Appended, ghost step: seq<nat>)
    requires store.Valid()
    modifies store
    ensures store.Valid() && old(store.history) <= store.history && old(store.log) <= store.log
    ensures old(store.foreign) <= store.foreign <= old(store.foreign) + |writes|
    ensures store.revision - store.foreign == old(store.revision) - old(store.foreign) + |step|
    ensures |step| <= 1 && Explained(store.history, old(store.revision), step, Members(writes))
    ensures forall at :: at in step ==> old(store.revision) <= at && Adds(store.history, at, event) && ReadBack(store.log, event).Some?
                                        && (expected.Some? ==> at == expected.value) && !fault.LostBefore?
    ensures reply.Ok? ==> reply.event in store.log && Matches(reply.event, event) && SamePayload(reply.event, event)
    ensures reply.RevisionConflict? ==> step == [] && expected.Some?
    ensures !fault.Delivered? ==> reply.OtherError?
    ensures writes == [] && fault.Delivered? ==> (reply.RevisionConflict? <==> expected.Some? && expected.value != old(store.revision))
    ensures Ours(writes, minted, event) && Fresh(old(store.log), event) ==>
              && (fault.Delivered? ==> reply.RevisionConflict? || (reply.Ok? && |step| == 1))
              && (expected.None? && !fault.LostBefore? ==> |step| == 1)
              && (step == [] ==> Fresh(store.log, event))
    ensures OnlyEvent(minted, old(store.log), store.log, event)
    ensures store.foreign == old(store.foreign) ==>
              store.Now() == old(store.Now()).(log := old(store.log) + if step == [] then [] else [Stamp(old(store.log), event)])
  {
    hide *;
    store.Sizes();
    store.Interfere(writes, minted);
    store.Sizes();
    ghost var at, before, h := store.revision, store.log, store.history;
    if Ours(writes, minted, event) && Fresh(old(store.log), event) {
      StillFresh(h, old(store.revision), at, writes, minted, event);
    }
    ghost var committed;
    reply, committed := Attempt(store, expected, event, fault);
    store.Sizes();
    step := if committed then [at] else [];
    ghost var added := if committed then [Stamp(before, event)] else [];
    assert store.log == before + added;
    OwnStep(h, store.history, old(store.revision), at, step, Members(writes));
    OnlyEventAdded(minted, old(store.log), before, added, event);
    if committed {
      AddedAt(h, store.history, at, event);
      CommitIsReadBack(before, store.log, event);
    }
  }

  /** One request of a round: after an error others write again before the Store is read. */
  method Request(store: Store, expected: Option<nat>, event: Event, round: Round, minted: seq<Event>)
    returns (reply: Appended, ghost step: seq<nat>)
    requires store.Valid()
    modifies store
    ensures store.Valid() && old(store.history) <= store.history && old(store.log) <= store.log
    ensures old(store.foreign) <= store.foreign
    ensures store.revision - store.foreign == old(store.revision) - old(store.foreign) + |step|
    ensures |step| <= 1 && Explained(store.history, old(store.revision), step, RoundWrites(round))
    ensures forall at :: at in step ==> old(store.revision) <= at && Adds(store.history, at, event) && ReadBack(store.log, event).Some?
                                        && (expected.Some? ==> at == expected.value) && !round.fault.LostBefore?
    ensures reply.Ok? ==> reply.event in store.log && Matches(reply.event, event) && SamePayload(reply.event, event)
    ensures reply.RevisionConflict? ==> step == [] && expected.Some?
    ensures !round.fault.Delivered? ==> reply.OtherError?
    ensures round.before == [] && round.fault.Delivered? ==>
              (reply.RevisionConflict? <==> expected.Some? && expected.value != old(store.revision))
    ensures Ours(round.before, minted, event) && Fresh(old(store.log), event) && round.fault.Delivered? ==>
              reply.RevisionConflict? || (reply.Ok? && |step| == 1)
    ensures event in minted && Fresh(old(store.log), event) && expected.None? ==>
              if round.fault.LostBefore? then step == [] && Fresh(store.log, event) else |step| == 1
    ensures OnlyEvent(minted, old(store.log), store.log, event)
    ensures store.foreign == old(store.foreign) ==>
              store.Now() == old(store.Now()).(log := old(store.log) + if step == [] then [] else [Stamp(old(store.log), event)])
    ensures RoundWrites(round) == {} ==> store.foreign == old(store.foreign)
  {
    hide *;
    reply, step := Send(store, expected, event, round.before, round.fault, minted);
    store.Sizes();
    ghost var h, mid := store.history, store.log;
    if event in minted {
      MintedAreOurs(round, minted, event);
    }
    if RoundWrites(round) == {} {
      NoneWritten(round);
    }
    UntouchedYet(minted, mid);
    NothingYet(h, store.revision, Members(round.between));
    if !reply.Ok? {
      store.Interfere(round.between, minted);
      store.Sizes();
    }
    LaterOthers(h, store.history, old(store.revision), step, round);
    OnlyEventStays(minted, old(store.log), mid, store.log, event);
    if step != [] {
      AddedStays(h, store.history, step[0], event);
      FoundStays(mid, store.log, event);
    } else if event in minted && Fresh(mid, event) {
      MintedFresh(minted, mid, store.log, event);
    }
  }

  lemma MintedAreOurs(round: Round, minted: seq<Event>, event: Event)
    requires event in minted
    ensures Ours(round.before, minted, event)
  {
  }

  lemma MintedFresh(minted: seq<Event>, before: seq<Event>, after: seq<Event>, event: Event)
    requires Untouched(minted, before, after) && event in minted && Fresh(before, event)
    ensures Fresh(after, event)
  {
    assert SameUnder(event, before, after);
  }

  /** One round of the commit. `None` asks for another round at the revision just read. */
  method CommitRound(store: Store, expected: nat, event: Event, valid: Snapshot -> bool, round: Round)
    returns (r: Option<Result>, next: nat, ghost commits: seq<nat>)
    requires store.Valid()
    requires expected <= store.revision && (expected == store.revision ==> valid(store.Now()))
    modifies store
    ensures store.Valid() && old(store.history) <= store.history && old(store.log) <= store.log
    ensures commits == [] || (commits == [expected] && expected == old(store.revision) && CommittedAt(store.history, expected, event, valid))
    ensures store.revision - store.foreign == old(store.revision) - old(store.foreign) + |commits|
    ensures Explained(store.history, old(store.revision), commits, RoundWrites(round))
    ensures r.None? ==> commits == [] && next == store.revision && valid(store.Now())
    ensures r.None? ==> round.before != [] || expected != old(store.revision)
    ensures r.Some? ==> Answers(r.value, store.log, event, commits)
    ensures r.Some? ==> Blames(r.value, store.Now(), event, valid, round.readable, false)
    ensures round.fault.Delivered? && round.before == [] && expected == old(store.revision) && Fresh(old(store.log), event) ==>
              r.Some? && r.value.Committed? && commits == [expected]
    ensures Calm(round, event, valid) && valid(old(store.Now())) && Fresh(old(store.log), event) ==>
              if r.None? then Fresh(store.log, event) else r.value.Committed? && commits == [expected]
  {
    var reply;
    next := expected;
    reply, commits := Request(store, Some(expected), event, round, []);
    if commits != [] {
      assert commits[0] in commits && commits == [expected];
      assert store.history[expected] == old(store.history)[expected];
    }
    match reply
    case Ok(persisted) =>
      r := Some(Committed(persisted));
    case OtherError =>
      if !round.readable {
        return Some(Unread), next, commits;
      }
      var found := Reconcile(store.log, event);
      r := if found.Some? then Some(Committed(found.value)) else Some(NotFound);
    case RevisionConflict =>
      if Calm(round, event, valid) && valid(old(store.Now())) && Fresh(old(store.log), event) {
        KeptByOthers(store.history, old(store.revision), store.revision, RoundWrites(round), valid);
        AvoidingKeepsFresh(store.history, old(store.revision), store.revision, RoundWrites(round), event);
      }
      if !round.readable {
        return Some(LoadFailed), next, commits;
      }
      if !valid(store.Now()) {
        return Some(Stale), next, commits;
      }
      r, next := None, store.revision;
  }

  lemma {:induction false} WritesGrow(script: nat -> Round, rounds: nat, more: nat)
    requires rounds <= more
    ensures Writes(script, rounds) <= Writes(script, more)
  {
    if rounds == more {
    } else {
      WritesGrow(script, rounds, more - 1);
    }
  }

  lemma ExplainedByMore(history: seq<Snapshot>, from: nat, own: seq<nat>, writes: set<Write>, more: set<Write>)
    requires Explained(history, from, own, writes) && writes <= more
    ensures Explained(history, from, own, more)
  {
    forall at | from <= at < |history| - 1 && at !in own
      ensures ByOthers(history, at, more)
    {
      assert ByOthers(history, at, writes);
    }
  }

  /** The script lets a checkpoint through: up to a round in which nobody writes between the
      writer's read and its request, requests are answered, reads succeed and others keep the
      rule. `current` says whether the revision held at the start is the Store's. */
  ghost predicate LetsThrough(script: nat -> Round, k: nat, current: bool, event: Event, valid: Snapshot -> bool)
    decreases ROUNDS - k
  {
    && k < ROUNDS
    && script(k).fault.Delivered?
    && ((current && script(k).before == []) || (Calm(script(k), event, valid) && LetsThrough(script, k + 1, true, event, valid)))
  }

  lemma {:induction false} LetsThroughFrom(script: nat -> Round, k: nat, event: Event, valid: Snapshot -> bool)
    requires k <= 7 && (forall j: nat :: j < 7 ==> Calm(script(j), event, valid)) && script(7).fault.Delivered? && script(7).before == []
    ensures LetsThrough(script, k, true, event, valid)
    decreases 7 - k
  {
    if k == 7 {
    } else {
      LetsThroughFrom(script, k + 1, event, valid);
    }
  }

  /** Seven disturbed but calm rounds are survived: a quiet eighth lets the checkpoint through. */
  lemma EighthRoundSuffices(script: nat -> Round, current: bool, event: Event, valid: Snapshot -> bool)
    requires (forall k: nat :: k < 7 ==> Calm(script(k), event, valid)) && script(7).fault.Delivered? && script(7).before == []
    ensures LetsThrough(script, 0, current, event, valid)
  {
    LetsThroughFrom(script, 1, event, valid);
  }

  /** Others wrote before the request of this round, or the revision held at the start was old. */
  predicate Disturbed(script: nat -> Round, k: nat, current: bool) {
    script(k).before != [] || (k == 0 && !current)
  }

  /** A result other than success names a cause in the script or in the Store. */
  ghost predicate Fails(r: Result, now: Snapshot, event: Event, valid: Snapshot -> bool, script: nat -> Round, current: bool) {
    exists k: nat :: k < ROUNDS && Blames(r, now, event, valid, script(k).readable, AllDisturbed(script, current))
  }

  predicate AllDisturbed(script: nat -> Round, current: bool) {
    forall k: nat :: k < ROUNDS ==> Disturbed(script, k, current)
  }

  lemma FailsIn(r: Result, now: Snapshot, event: Event, valid: Snapshot -> bool, script: nat -> Round, current: bool, k: nat)
    requires k < ROUNDS && Blames(r, now, event, valid, script(k).readable, false)
    ensures Fails(r, now, event, valid, script, current)
  {
    assert Blames(r, now, event, valid, script(k).readable, AllDisturbed(script, current));
  }

  lemma FailsByConflict(now: Snapshot, event: Event, valid: Snapshot -> bool, script: nat -> Round, current: bool)
    requires forall k: nat :: k < ROUNDS ==> Disturbed(script, k, current)
    ensures Fails(Stale, now, event, valid, script, current)
  {
    assert Blames(Stale, now, event, valid, script(0).readable, AllDisturbed(script, current));
  }

  lemma DisturbedBy(script: nat -> Round, k: nat, current: bool)
    requires script(k).before != [] || (k == 0 && !current)
    ensures Disturbed(script, k, current)
  {
  }

  /** The rounds of the commit. At most one of them adds a revision of this call's own, and
      every other revision made meanwhile is the effect of a write in the script. */
  method PersistCompactionArtifacts(store: Store, active: nat, event: Event, valid: Snapshot -> bool, script: nat -> Round)
    returns (r: Result, ghost commits: seq<nat>)
    requires store.Valid()
    requires active <= store.revision && (active == store.revision ==> valid(store.Now()))
    modifies store
    ensures store.Valid() && old(store.history) <= store.history && old(store.log) <= store.log
    ensures |commits| <= 1 && Commits(store.history, old(store.revision), commits, event, valid)
    ensures store.revision - store.foreign == old(store.revision) - old(store.foreign) + |commits|
    ensures Explained(store.history, old(store.revision), commits, Writes(script, ROUNDS))
    ensures Answers(r, store.log, event, commits)
    ensures Fails(r, store.Now(), event, valid, script, active == old(store.revision))
    ensures valid(old(store.Now())) && Fresh(old(store.log), event) && LetsThrough(script, 0, active == old(store.revision), event, valid) ==>
              r.Committed? && |commits| == 1
  {
    hide *;
    commits := [];
    var expected: nat := active;
    ghost var current := active == store.revision;
    ghost var through := valid(store.Now()) && Fresh(store.log, event) && LetsThrough(script, 0, active == store.revision, event, valid);
    store.Sizes();
    NothingYet(store.history, store.revision, Writes(script, 0));
    for round := 0 to ROUNDS
      invariant store.Valid() && old(store.history) <= store.history && old(store.log) <= store.log && commits == []
      invariant |store.history| == store.revision + 1 && old(store.revision) <= store.revision
      invariant store.revision - store.foreign == old(store.revision) - old(store.foreign)
      invariant Explained(store.history, old(store.revision), [], Writes(script, round))
      invariant expected <= store.revision && (expected == store.revision ==> valid(store.Now()))
      invariant round > 0 ==> expected == store.revision
      invariant round == 0 ==> expected == active && store.revision == old(store.revision)
      invariant forall k: nat :: k < round ==> Disturbed(script, k, current)
      invariant through ==> valid(store.Now()) && Fresh(store.log, event)
      invariant through ==> LetsThrough(script, round, expected == store.revision, event, valid)
    {
      ghost var h, mid := store.history, store.revision;
      var reply, next;
      reply, next, commits := CommitRound(store, expected, event, valid, script(round));
      store.Sizes();
      RoundExplained(h, store.history, old(store.revision), mid, commits, script, round);
      if through {
        NextRound(script, round, expected == mid, event, valid);
      }
      if reply.Some? {
        WritesGrow(script, round + 1, ROUNDS);
        ExplainedByMore(store.history, old(store.revision), commits, Writes(script, round + 1), Writes(script, ROUNDS));
        OneCommit(store.history, old(store.revision), commits, expected, event, valid);
        FailsIn(reply.value, store.Now(), event, valid, script, current, round);
        return reply.value, commits;
      }
      DisturbedBy(script, round, current);
      expected := next;
    }
    r := Stale;
    NothingClaimed(store.log, event);
    FailsByConflict(store.Now(), event, valid, script, current);
    if through {
      NextRound(script, ROUNDS, expected == store.revision, event, valid);
    }
    OneCommit(store.history, old(store.revision), commits, expected, event, valid);
  }

  lemma OneCommit(history: seq<Snapshot>, from: nat, commits: seq<nat>, at: nat, event: Event, valid: Snapshot -> bool)
    requires commits == [] || (commits == [at] && from <= at && CommittedAt(history, at, event, valid))
    ensures Commits(history, from, commits, event, valid)
  {
  }

  lemma NothingClaimed(log: seq<Event>, event: Event)
    ensures Answers(Stale, log, event, [])
  {
  }

  lemma NextRound(script: nat -> Round, k: nat, current: bool, event: Event, valid: Snapshot -> bool)
    requires LetsThrough(script, k, current, event, valid)
    ensures k < ROUNDS && script(k).fault.Delivered?
    ensures (current && script(k).before == []) || (Calm(script(k), event, valid) && LetsThrough(script, k + 1, true, event, valid))
  {
  }

  lemma RoundExplained(h: seq<Snapshot>, longer: seq<Snapshot>, from: nat, mid: nat, own: seq<nat>, script: nat -> Round, round: nat)
    requires h <= longer && |h| == mid + 1
    requires Explained(h, from, [], Writes(script, round)) && Explained(longer, mid, own, RoundWrites(script(round)))
    ensures Explained(longer, from, own, Writes(script, round + 1))
  {
    ExplainedJoins(h, longer, from, mid, [], own, Writes(script, round), RoundWrites(script(round)));
    assert [] + own == own;
  }

  // ----- what a checkpoint was computed from

  /** The events the main invocation sees. */
  function Main(log: seq<Event>): seq<Event> {
    if log == [] then []
    else
      var before, last := Main(log[..|log| - 1]), log[|log| - 1];
      if last.main then before + [last] else before
  }

  lemma MainUnfolds(log: seq<Event>)
    requires log != []
    ensures var n := |log| - 1; Main(log) == Main(log[..n]) + if log[n].main then [log[n]] else []
  {
  }

  /** Exactly the main events of the log, in order. */
  lemma {:induction false} MainExactly(log: seq<Event>) returns (at: seq<nat>)
    ensures |at| == |Main(log)| && forall j, k :: 0 <= j < k < |at| ==> at[j] < at[k]
    ensures forall k :: 0 <= k < |at| ==> at[k] < |log| && log[at[k]] == Main(log)[k]
    ensures forall i: nat :: i in at <==> i < |log| && log[i].main
  {
    if log == [] {
      at := [];
    } else {
      var n := |log| - 1;
      at := MainExactly(log[..n]);
      MainUnfolds(log);
      hide Main;
      assert forall k :: 0 <= k < |at| ==> at[k] < n;
      if log[n].main {
        assert forall i: nat :: i in at + [n] <==> i in at || i == n;
        at := at + [n];
      }
    }
  }

  /** The synchronous rule: the same main events and the same state. */
  predicate SameSource(source: Snapshot, now: Snapshot) {
    Main(source.log) == Main(now.log) && source.state == now.state
  }

  /** What an asynchronous summary covered: its source, and how its tail is judged. */
  datatype Coverage = Coverage(source: Snapshot, throughSeq: nat, checkpoint: Event -> bool, complete: seq<Event> -> bool)

  predicate Increasing(events: seq<Event>) {
    && (forall i :: 0 <= i < |events| ==> events[i].seqno > 0)
    && (forall i :: 0 < i < |events| ==> events[i - 1].seqno < events[i].seqno)
  }

  /** The asynchronous rule: the covered prefix, state and Session are unchanged, and what was
      appended since is later, holds no other checkpoint, and completes its tool pairs. */
  predicate ValidSource(job: Coverage, now: Snapshot) {
    var covered, events := Main(job.source.log), Main(now.log);
    && |covered| <= |events|
    && job.source.state == now.state
    && job.source.session == now.session
    && events[..|covered|] == covered
    && Increasing(events)
    && var tail := events[|covered|..];
       && (forall i :: 0 <= i < |tail| ==> !job.checkpoint(tail[i]) && tail[i].seqno > job.throughSeq)
       && job.complete(tail)
  }

  /** What the asynchronous rule amounts to: exactly the covered events and a tail stand in the log. */
  ghost predicate TailAfter(job: Coverage, now: Snapshot, tail: seq<Event>) {
    && Main(now.log) == Main(job.source.log) + tail
    && Increasing(Main(now.log))
    && (forall e :: e in tail ==> !job.checkpoint(e) && e.seqno > job.throughSeq)
    && job.complete(tail)
  }

  lemma ValidSourceExactly(job: Coverage, now: Snapshot)
    ensures ValidSource(job, now) <==>
              job.source.state == now.state && job.source.session == now.session && exists tail :: TailAfter(job, now, tail)
  {
    hide Main, Increasing;
    var covered, events := Main(job.source.log), Main(now.log);
    if ValidSource(job, now) {
      assert events == covered + events[|covered|..];
      assert TailAfter(job, now, events[|covered|..]);
    }
    if tail :| TailAfter(job, now, tail) {
      assert events[|covered|..] == tail && events[..|covered|] == covered;
    }
  }

  /** A checkpoint appended by anyone ends it for good: no later Store is a valid source. */
  lemma {:induction false} CheckpointEndsIt(job: Coverage, now: Snapshot, later: Snapshot, i: nat)
    requires |Main(job.source.log)| <= i < |Main(now.log)| && job.checkpoint(Main(now.log)[i]) && now.log <= later.log
    ensures !ValidSource(job, later)
  {
    MainGrows(now.log, later.log);
    hide Main, Increasing;
    var events := Main(later.log);
    assert events[i] == Main(now.log)[i];
    var covered := Main(job.source.log);
    assert |covered| <= |events| ==> events[|covered|..][i - |covered|] == events[i];
  }

  lemma {:induction false} MainGrows(before: seq<Event>, after: seq<Event>)
    requires before <= after
    ensures Main(before) <= Main(after)
    decreases |after|
  {
    if before == after {
    } else {
      MainGrows(before, after[..|after| - 1]);
      MainUnfolds(after);
      hide Main;
    }
  }

  /** Only journal records were appended. */
  ghost predicate OnlyReceipts(source: Snapshot, now: Snapshot) {
    && source.log <= now.log
    && (forall i :: |source.log| <= i < |now.log| ==> !now.log[i].main)
    && source.state == now.state
    && source.session == now.session
  }

  lemma {:induction false} ReceiptsNotMain(before: seq<Event>, after: seq<Event>)
    requires before <= after && forall i :: |before| <= i < |after| ==> !after[i].main
    ensures Main(after) == Main(before)
    decreases |after|
  {
    if |before| < |after| {
      ReceiptsNotMain(before, after[..|after| - 1]);
    } else {
      assert before == after;
    }
  }

  /** Neither rule can tell receipts apart from their absence. */
  lemma ReceiptsInvisible(job: Coverage, source: Snapshot, before: Snapshot, after: Snapshot)
    requires OnlyReceipts(before, after)
    ensures SameSource(source, before) <==> SameSource(source, after)
    ensures ValidSource(job, before) <==> ValidSource(job, after)
  {
    ReceiptsNotMain(before.log, after.log);
  }

  // ----- receipts and the counted revision

  /** New, mutually different identities of journal records. */
  ghost predicate Receipts(log: seq<Event>, receipts: seq<Event>) {
    && (forall i :: 0 <= i < |receipts| ==> !receipts[i].main && Fresh(log, receipts[i]))
    && (forall i, j :: 0 <= i < j < |receipts| ==> !Matches(receipts[i], receipts[j]))
  }

  /** The counted revision trails the Store by exactly the writes of others since the load,
      and without any the Store holds what was loaded and receipts. */
  ghost predicate Tracks(store: Store, counted: nat, since: nat, source: Snapshot)
    reads store
  {
    && since <= store.foreign
    && store.revision == counted + (store.foreign - since)
    && (store.foreign == since ==> OnlyReceipts(source, store.Now()))
  }

  lemma NextReceipts(receipts: seq<Event>, i: nat, before: seq<Event>, after: seq<Event>)
    requires i < |receipts| && Receipts(before, receipts[i..]) && OnlyEvent(receipts, before, after, receipts[i])
    ensures Receipts(after, receipts[i + 1..])
  {
    var rest, next := receipts[i..], receipts[i + 1..];
    forall k | 0 <= k < |next|
      ensures !next[k].main && Fresh(after, next[k])
    {
      assert next[k] == receipts[i + 1 + k] == rest[k + 1] && next[k] in receipts;
      assert rest[0] == receipts[i] && !Matches(rest[0], rest[k + 1]);
    }
    forall j, k | 0 <= j < k < |next|
      ensures !Matches(next[j], next[k])
    {
      assert next[j] == rest[j + 1] && next[k] == rest[k + 1];
    }
  }

  lemma TrackedExactly(store: Store, counted: nat, since: nat, source: Snapshot)
    requires Tracks(store, counted, since, source)
    ensures counted <= store.revision && (counted == store.revision <==> store.foreign == since)
    ensures counted == store.revision ==> OnlyReceipts(source, store.Now())
  {
  }

  /** The receipts written so far: the step that wrote each, and the record of each. */
  ghost predicate Written(history: seq<Snapshot>, log: seq<Event>, receipts: seq<Event>, steps: seq<nat>)
  {
    && |steps| <= |receipts|
    && (forall i :: 0 <= i < |steps| ==> Adds(history, steps[i], receipts[i]))
    && (forall i :: 0 <= i < |steps| ==> Stored(log, receipts[i]))
  }

  /** Whether a receipt is known to be written: its request was answered, or it was acted on and
      the Store could be read back. */
  predicate Known(round: Round) {
    round.fault.Delivered? || (round.fault.LostAfter? && round.readable)
  }

  /** Every record was there before or carries the identity of a receipt. */
  ghost predicate OnlyAdds(before: seq<Event>, after: seq<Event>, receipts: seq<Event>) {
    forall e :: e in after ==> e in before || exists r :: r in receipts && e.id == r.id && e.key == r.key
  }

  lemma StartWritten(history: seq<Snapshot>, log: seq<Event>, receipts: seq<Event>)
    ensures Written(history, log, receipts, []) && OnlyAdds(log, log, receipts)
  {
  }

  lemma MoreWritten(h: seq<Snapshot>, longer: seq<Snapshot>, before: seq<Event>, after: seq<Event>,
                    receipts: seq<Event>, steps: seq<nat>, step: seq<nat>)
    requires h <= longer && before <= after && |steps| < |receipts| && Written(h, before, receipts, steps)
    requires |step| <= 1 && forall at :: at in step ==> Adds(longer, at, receipts[|steps|]) && Stored(after, receipts[|steps|])
    ensures Written(longer, after, receipts, steps + step)
  {
    forall i | 0 <= i < |steps|
      ensures Stored(after, receipts[i])
    {
      assert Stored(before, receipts[i]);
      var e :| e in before && Matches(e, receipts[i]) && SamePayload(e, receipts[i]);
      assert e in after;
    }
  }

  lemma ReceiptExplained(h: seq<Snapshot>, longer: seq<Snapshot>, from: nat, mid: nat, own: seq<nat>, more: seq<nat>,
                         script: nat -> Round, i: nat)
    requires h <= longer && |h| == mid + 1
    requires Explained(h, from, own, Writes(script, i)) && Explained(longer, mid, more, RoundWrites(script(i)))
    ensures Explained(longer, from, own + more, Writes(script, i + 1))
  {
    ExplainedJoins(h, longer, from, mid, own, more, Writes(script, i), RoundWrites(script(i)));
  }

  lemma AddsJoin(before: seq<Event>, mid: seq<Event>, after: seq<Event>, receipts: seq<Event>, i: nat)
    requires i < |receipts| && OnlyAdds(before, mid, receipts) && OnlyAdds(mid, after, [receipts[i]])
    ensures OnlyAdds(before, after, receipts)
  {
  }

  lemma NoWrites(script: nat -> Round, i: nat)
    ensures Writes(script, i + 1) == {} ==> Writes(script, i) == {} && RoundWrites(script(i)) == {}
  {
  }

  /** Writes the receipts without an expected revision and counts each one. */
  method PersistCompactionInvocations(store: Store, active: nat, receipts: seq<Event>, script: nat -> Round, ghost since: nat, ghost source: Snapshot)
    returns (ok: bool, counted: nat, ghost steps: seq<nat>)
    requires store.Valid() && Receipts(store.log, receipts) && Tracks(store, active, since, source)
    modifies store
    ensures store.Valid() && old(store.history) <= store.history
    ensures Written(store.history, store.log, receipts, steps)
    ensures store.revision - store.foreign == old(store.revision) - old(store.foreign) + |steps|
    ensures Explained(store.history, old(store.revision), steps, Writes(script, |receipts|))
    ensures ok <==> forall i :: 0 <= i < |receipts| ==> Known(script(i))
    ensures ok ==> |steps| == |receipts| && counted == active + |receipts| && Tracks(store, counted, since, source)
    ensures ok ==> (counted == store.revision <==> store.foreign == since)
    ensures store.foreign == old(store.foreign) ==> OnlyAdds(old(store.log), store.log, receipts)
    ensures Writes(script, |receipts|) == {} ==> store.foreign == old(store.foreign)
  {
    hide *;
    counted, steps := active, [];
    assert receipts[0..] == receipts;
    StartWritten(store.history, store.log, receipts);
    store.Sizes();
    NothingYet(store.history, store.revision, Writes(script, 0));
    for i := 0 to |receipts|
      invariant store.Valid() && old(store.history) <= store.history && old(store.foreign) <= store.foreign
      invariant |store.history| == store.revision + 1
      invariant counted == active + i && Tracks(store, counted, since, source)
      invariant Receipts(store.log, receipts[i..])
      invariant |steps| == i && Written(store.history, store.log, receipts, steps)
      invariant store.revision - store.foreign == old(store.revision) - old(store.foreign) + |steps|
      invariant Explained(store.history, old(store.revision), steps, Writes(script, i))
      invariant forall k :: 0 <= k < i ==> Known(script(k))
      invariant store.foreign == old(store.foreign) ==> OnlyAdds(old(store.log), store.log, receipts)
      invariant Writes(script, i) == {} ==> store.foreign == old(store.foreign)
    {
      ghost var h, l, mid := store.history, store.log, store.revision;
      var written;
      ghost var step;
      written, step := WriteReceipt(store, receipts, i, script(i), counted, since, source);
      store.Sizes();
      MoreWritten(h, store.history, l, store.log, receipts, steps, step);
      NoWrites(script, i);
      ReceiptExplained(h, store.history, old(store.revision), mid, steps, step, script, i);
      if store.foreign == old(store.foreign) {
        AddsJoin(old(store.log), l, store.log, receipts, i);
      }
      steps := steps + step;
      if !written {
        WritesGrow(script, i + 1, |receipts|);
        ExplainedByMore(store.history, old(store.revision), steps, Writes(script, i + 1), Writes(script, |receipts|));
        return false, counted, steps;
      }
      counted := counted + 1;
    }
    ok := true;
    TrackedExactly(store, counted, since, source);

  }

  /** One receipt: an error is resolved by reading the Store back. */
  method WriteReceipt(store: Store, receipts: seq<Event>, i: nat, round: Round, ghost counted: nat, ghost since: nat, ghost source: Snapshot)
    returns (ok: bool, ghost step: seq<nat>)
    requires store.Valid() && i < |receipts| && Receipts(store.log, receipts[i..]) && Tracks(store, counted, since, source)
    modifies store
    ensures store.Valid() && old(store.history) <= store.history && old(store.log) <= store.log
    ensures |step| <= 1 && forall at :: at in step ==> Adds(store.history, at, receipts[i]) && Stored(store.log, receipts[i])
    ensures store.revision - store.foreign == old(store.revision) - old(store.foreign) + |step|
    ensures Explained(store.history, old(store.revision), step, RoundWrites(round))
    ensures ok <==> Known(round)
    ensures ok ==> |step| == 1 && Tracks(store, counted + 1, since, source) && Receipts(store.log, receipts[i + 1..])
    ensures old(store.foreign) <= store.foreign
    ensures store.foreign == old(store.foreign) ==> OnlyAdds(old(store.log), store.log, [receipts[i]])
    ensures RoundWrites(round) == {} ==> store.foreign == old(store.foreign)
  {
    var receipt := receipts[i];
    var reply;
    assert receipt == receipts[i..][0] && receipt in receipts;
    reply, step := Request(store, None, receipt, round, receipts);
    if step == [] {
      FreshNotFound(store.log, receipt);
    } else {
      assert step[0] in step;
      FoundStays(store.log, store.log, receipt);
      NextReceipts(receipts, i, old(store.log), store.log);
    }
    if reply.Ok? {
      return true, step;
    }
    if !round.readable {
      return false, step;
    }
    var found := Reconcile(store.log, receipt);
    ok := found.Some?;
  }

  // ----- whole compactions

  lemma StillReceipts(receipts: seq<Event>, before: seq<Event>, after: seq<Event>)
    requires Receipts(before, receipts) && Untouched(receipts, before, after)
    ensures Receipts(after, receipts)
  {
    forall i | 0 <= i < |receipts|
      ensures Fresh(after, receipts[i])
    {
      MintedFresh(receipts, before, after, receipts[i]);
    }
  }

  lemma WrittenStays(h: seq<Snapshot>, longer: seq<Snapshot>, before: seq<Event>, after: seq<Event>, receipts: seq<Event>, steps: seq<nat>)
    requires h <= longer && before <= after && Written(h, before, receipts, steps)
    ensures Written(longer, after, receipts, steps)
  {
    forall i | 0 <= i < |steps|
      ensures Stored(after, receipts[i]) && Adds(longer, steps[i], receipts[i])
    {
      assert Stored(before, receipts[i]);
      var e :| e in before && Matches(e, receipts[i]) && SamePayload(e, receipts[i]);
      assert e in after;
      AddedStays(h, longer, steps[i], receipts[i]);
    }
  }

  lemma CommitsSince(history: seq<Snapshot>, from: nat, later: nat, commits: seq<nat>, event: Event, valid: Snapshot -> bool)
    requires from <= later && Commits(history, later, commits, event, valid)
    ensures Commits(history, from, commits, event, valid)
  {
  }

  /** No receipt carries the checkpoint's identity. */
  predicate Apart(receipts: seq<Event>, event: Event) {
    forall receipt :: receipt in receipts ==> !Matches(receipt, event)
  }

  lemma FreshPastReceipts(before: seq<Event>, after: seq<Event>, receipts: seq<Event>, event: Event)
    requires OnlyAdds(before, after, receipts) && Fresh(before, event) && Apart(receipts, event)
    ensures Fresh(after, event)
  {
  }

  function SourceRule(source: Snapshot): Snapshot -> bool {
    now => SameSource(source, now)
  }

  function CoverageRule(job: Coverage): Snapshot -> bool {
    now => ValidSource(job, now)
  }

  lemma ReceiptsKeepSource(source: Snapshot, now: Snapshot)
    requires OnlyReceipts(source, now)
    ensures SourceRule(source)(now)
  {
    ReceiptsNotMain(source.log, now.log);
  }

  lemma StartsTracked(store: Store, counted: nat, since: nat, source: Snapshot)
    requires since <= store.foreign && store.revision == counted + (store.foreign - since)
    requires store.foreign == since ==> store.Now() == source
    ensures Tracks(store, counted, since, source)
  {
  }

  /** The main events and the state a checkpoint was computed from. */
  ghost predicate OnSource(now: Snapshot, source: Snapshot) {
    Main(now.log) == Main(source.log) && now.state == source.state
  }

  lemma CommitsOnSource(history: seq<Snapshot>, from: nat, commits: seq<nat>, event: Event, source: Snapshot)
    requires Commits(history, from, commits, event, SourceRule(source))
    ensures forall at :: at in commits ==> at < |history| && OnSource(history[at], source)
  {
    hide Main;
    forall at | at in commits
      ensures at < |history| && OnSource(history[at], source)
    {
      assert CommittedAt(history, at, event, SourceRule(source));
    }
  }

  /** Synchronous compaction: load, let the model run while others write, write the receipts,
      then commit. A committed checkpoint directly follows the main events it was made from. */
  method CompactSession(store: Store, receipts: seq<Event>, event: Event, during: seq<Write>, accounting: nat -> Round, script: nat -> Round)
    returns (r: Option<Result>, source: Snapshot, ghost steps: seq<nat>, ghost commits: seq<nat>)
    requires store.Valid() && Receipts(store.log, receipts)
    modifies store
    ensures store.Valid() && old(store.history) <= store.history && source == old(store.Now())
    ensures |commits| <= 1 && Commits(store.history, old(store.revision), commits, event, SourceRule(source))
    ensures forall at :: at in commits ==> at < |store.history| && OnSource(store.history[at], source)
    ensures Written(store.history, store.log, receipts, steps)
    ensures store.revision - store.foreign == old(store.revision) - old(store.foreign) + |steps| + |commits|
    ensures Explained(store.history, old(store.revision), steps + commits,
                      Members(during) + Writes(accounting, |receipts|) + Writes(script, ROUNDS))
    ensures r.Some? <==> forall i :: 0 <= i < |receipts| ==> Known(accounting(i))
    ensures if r.Some? then |steps| == |receipts| && Answers(r.value, store.log, event, commits) else commits == []
    ensures during == [] && Writes(accounting, |receipts|) == {} && Fresh(old(store.log), event) && Apart(receipts, event) ==>
              r.Some? && LetsThrough(script, 0, true, event, SourceRule(source)) ==>
                r.value.Committed? && |commits| == 1
  {
    hide *;
    store.Sizes();
    source, steps, commits := store.Now(), [], [];
    var active := store.revision;
    ghost var since, h0, l0 := store.foreign, store.history, store.log;
    store.Interfere(during, receipts);
    store.Sizes();
    StillReceipts(receipts, l0, store.log);
    StartsTracked(store, active, since, source);
    ghost var h1, mid1 := store.history, store.revision;
    var ok, counted;
    ok, counted, steps := PersistCompactionInvocations(store, active, receipts, accounting, since, source);
    store.Sizes();
    ghost var h2, l2, mid2 := store.history, store.log, store.revision;
    ExplainedJoins(h1, h2, active, mid1, [], steps, Members(during), Writes(accounting, |receipts|));
    NothingYet(h2, mid2, Writes(script, ROUNDS));
    r := None;
    if ok {
      TrackedExactly(store, counted, since, source);
      if counted == store.revision {
        ReceiptsKeepSource(source, store.Now());
        if store.foreign == old(store.foreign) && during == [] && Fresh(l0, event) && Apart(receipts, event) {
          FreshPastReceipts(l0, l2, receipts, event);
        }
      }
      var result;
      result, commits := PersistCompactionArtifacts(store, counted, event, SourceRule(source), script);
      r := Some(result);
      WrittenStays(h2, store.history, l2, store.log, receipts, steps);
      CommitsSince(store.history, active, mid2, commits, event, SourceRule(source));
    } else {
      OneCommit(store.history, active, commits, 0, event, SourceRule(source));
    }
    ExplainedJoins(h2, store.history, active, mid2, [] + steps, commits, Members(during) + Writes(accounting, |receipts|), Writes(script, ROUNDS));
    assert [] + steps == steps;
    CommitsOnSource(store.history, active, commits, event, source);
  }

  /** The covered events, followed by a tail that is later, complete and free of checkpoints. */
  ghost predicate OnCoverage(now: Snapshot, job: Coverage) {
    now.state == job.source.state && now.session == job.source.session && exists tail :: TailAfter(job, now, tail)
  }

  lemma CommitsOnCoverage(history: seq<Snapshot>, from: nat, commits: seq<nat>, event: Event, job: Coverage)
    requires Commits(history, from, commits, event, CoverageRule(job))
    ensures forall at :: at in commits ==> at < |history| && OnCoverage(history[at], job)
  {
    hide ValidSource, TailAfter;
    forall at | at in commits
      ensures at < |history| && OnCoverage(history[at], job)
    {
      assert CommittedAt(history, at, event, CoverageRule(job));
      ValidSourceExactly(job, history[at]);
    }
  }

  /** Asynchronous adoption: a finished summary is committed only on top of its own source. */
  method AdoptCompactionCandidate(store: Store, job: Coverage, event: Event, waiting: seq<Write>, readable: bool, smaller: Snapshot -> bool,
                                  preparing: seq<Write>, script: nat -> Round)
    returns (adopted: bool, ghost commits: seq<nat>)
    requires store.Valid()
    modifies store
    ensures store.Valid() && old(store.history) <= store.history
    ensures |commits| <= 1 && Commits(store.history, old(store.revision), commits, event, CoverageRule(job))
    ensures forall at :: at in commits ==> at < |store.history| && OnCoverage(store.history[at], job)
    ensures store.revision - store.foreign == old(store.revision) - old(store.foreign) + |commits|
    ensures Explained(store.history, old(store.revision), commits, Members(waiting) + Members(preparing) + Writes(script, ROUNDS))
    ensures adopted ==> Stored(store.log, event)
    ensures !readable ==> !adopted && commits == []
    ensures waiting == preparing == [] && (!ValidSource(job, old(store.Now())) || !smaller(old(store.Now()))) ==> !adopted && commits == []
    ensures waiting == preparing == [] && readable && ValidSource(job, old(store.Now())) && smaller(old(store.Now())) ==>
              Fresh(old(store.log), event) && LetsThrough(script, 0, true, event, CoverageRule(job)) ==> adopted && |commits| == 1
  {
    hide *;
    commits := [];
    store.Sizes();
    ghost var from := store.revision;
    store.Interfere(waiting, []);
    store.Sizes();
    ghost var h1, mid1 := store.history, store.revision;
    RuleIs(job, store.Now());
    adopted := false;
    if !readable || !ValidSource(job, store.Now()) || !smaller(store.Now()) {
      ExplainedByMore(h1, from, [], Members(waiting), Members(waiting) + Members(preparing) + Writes(script, ROUNDS));
      OneCommit(store.history, from, [], 0, event, CoverageRule(job));
      return false, [];
    }
    var active := store.revision;
    store.Interfere(preparing, []);
    store.Sizes();
    ghost var h2, mid2 := store.history, store.revision;
    ExplainedJoins(h1, h2, from, mid1, [], [], Members(waiting), Members(preparing));
    var result;
    result, commits := PersistCompactionArtifacts(store, active, event, CoverageRule(job), script);
    adopted := result.Committed?;
    ExplainedJoins(h2, store.history, from, mid2, [] + [], commits, Members(waiting) + Members(preparing), Writes(script, ROUNDS));
    assert [] + [] + commits == commits;
    CommitsSince(store.history, from, mid2, commits, event, CoverageRule(job));
    CommitsOnCoverage(store.history, from, commits, event, job);
    IsStored(result, store.log, event, commits);
  }

  lemma RuleIs(job: Coverage, now: Snapshot)
    ensures CoverageRule(job)(now) <==> ValidSource(job, now)
  {
  }

  lemma IsStored(r: Result, log: seq<Event>, event: Event, commits: seq<nat>)
    requires Answers(r, log, event, commits)
    ensures r.Committed? ==> Stored(log, event)
  {
  }
}
