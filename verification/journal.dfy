/** The execution journal: Run, Turn and Step records and approval pause tokens are events in
    an append-only Session log. Writers read the log, prepare the next revision and append;
    the Store keeps one payload per idempotency key, so a writer that lost a race is refused. */
module Journal {

  import opened Blanks
  import opened Wrappers

  /** What a record is about. */
  datatype Ident = Run(run: string) | Turn(run: string, turn: string) | Step(run: string, turn: string, step: string)
                 | Token(token: string)

  datatype Status =
    | Prepared | Started | WaitingApproval | CancelRequested
    | Succeeded | Failed | Cancelled | Interrupted | UnknownOutcome
    | Pending | Resolved | Withdrawn

  datatype Decision = Decision(outcome: string, optionId: string, approved: bool, reason: string, reviewText: string)

  /** Journal events are keyed by identity and revision; a tool's own journal carries Step
      records under keys of its own. */
  datatype Writer = Runtime | ToolJournal(call: int)

  datatype Entry = Entry(
    id: Ident, revision: nat, status: Status, reason: string, error: string, recoveredFrom: Option<Status>,
    decision: Option<Decision>, updatedAt: int, writer: Writer)

  // ----- validators

  predicate KeyValid(id: Ident) {
    match id
    case Run(run) => run != ""
    case Turn(run, turn) => run != "" && turn != ""
    case Step(run, turn, step) => run != "" && turn != "" && step != ""
    case Token(token) => token != ""
  }

  predicate Terminal(status: Status) {
    status.Succeeded? || status.Failed? || status.Cancelled? || status.Interrupted? || status.UnknownOutcome?
  }

  /** Statuses an identity ends in. */
  predicate Final(status: Status) {
    Terminal(status) || status.Resolved? || status.Withdrawn?
  }

  predicate Allowed(from: Status, to: Status) {
    match from
    case Prepared => to.Started? || to.Failed? || to.Cancelled?
    case Started => to.WaitingApproval? || to.CancelRequested? || Terminal(to)
    case WaitingApproval => to.Started? || to.CancelRequested? || to.Failed? || to.Cancelled? || to.Interrupted?
    case CancelRequested => Terminal(to)
    case Pending => to.Resolved? || to.Withdrawn?
    case _ => false
  }

  function Initial(id: Ident): Status {
    if id.Token? then Pending else Prepared
  }

  /** A first record is revision 1 in its initial status; a later one follows its predecessor. */
  predicate ValidNext(previous: Option<Entry>, next: Entry) {
    && KeyValid(next.id)
    && match previous
       case None => next.revision == 1 && next.status == Initial(next.id)
       case Some(p) => p.id == next.id && next.revision == p.revision + 1 && Allowed(p.status, next.status)
  }

  // ----- the Store

  predicate SameKey(a: Entry, b: Entry) {
    a.id == b.id && a.revision == b.revision && a.writer == b.writer
  }

  function Find(log: seq<Entry>, entry: Entry): (r: Option<Entry>)
    ensures r.Some? <==> exists e :: e in log && SameKey(e, entry)
    ensures r.Some? ==> r.value in log && SameKey(r.value, entry)
  {
    if log == [] then None
    else if SameKey(log[|log| - 1], entry) then Some(log[|log| - 1])
    else Find(log[..|log| - 1], entry)
  }

  /** Appends a batch or nothing: an entry already there is skipped, a different payload
      under its key refuses the whole batch. */
  function Append(log: seq<Entry>, batch: seq<Entry>): (r: Option<seq<Entry>>)
    ensures r.Some? ==> log <= r.value
    decreases |batch|
  {
    if batch == [] then Some(log)
    else
      match Find(log, batch[0])
      case None => Append(log + [batch[0]], batch[1..])
      case Some(prior) => if prior == batch[0] then Append(log, batch[1..]) else None
  }

  // ----- reading the log

  /** The record with the highest revision, the earliest of equals. */
  function Latest(log: seq<Entry>, id: Ident): (r: Option<Entry>)
    ensures r.Some? ==> r.value in log && r.value.id == id
    ensures forall e :: e in log && e.id == id ==> r.Some? && e.revision <= r.value.revision
  {
    if log == [] then None
    else
      var before, last := Latest(log[..|log| - 1], id), log[|log| - 1];
      if last.id == id && (before.None? || last.revision > before.value.revision) then Some(last) else before
  }

  lemma LatestSnoc(log: seq<Entry>, entry: Entry, id: Ident)
    ensures Latest(log + [entry], id) ==
            if entry.id == id && (Latest(log, id).None? || entry.revision > Latest(log, id).value.revision) then Some(entry)
            else Latest(log, id)
  {
  }

  ghost predicate Indexes(latest: map<Ident, Entry>, log: seq<Entry>, tokens: bool) {
    forall id: Ident :: if id.Token? == tokens && Latest(log, id).Some? then id in latest && latest[id] == Latest(log, id).value else id !in latest
  }

  lemma IndexSnoc(latest: map<Ident, Entry>, log: seq<Entry>, entry: Entry, tokens: bool)
    requires Indexes(latest, log, tokens)
    ensures
      var keep := entry.id.Token? != tokens || (entry.id in latest && entry.revision <= latest[entry.id].revision);
      Indexes(if keep then latest else latest[entry.id := entry], log + [entry], tokens)
  {
    hide Latest;
    forall id: Ident {
      LatestSnoc(log, entry, id);
    }
  }

  /** The newest record of every Run, Turn and Step, or of every pause token. */
  method LatestRecords(log: seq<Entry>, tokens: bool) returns (latest: map<Ident, Entry>)
    ensures Indexes(latest, log, tokens)
  {
    latest := map[];
    for i := 0 to |log|
      invariant Indexes(latest, log[..i], tokens)
    {
      hide Indexes;
      var record := log[i];
      IndexSnoc(latest, log[..i], record, tokens);
      assert log[..i + 1] == log[..i] + [record];
      if record.id.Token? == tokens && (record.id !in latest || record.revision > latest[record.id].revision) {
        latest := latest[record.id := record];
      }
    }
    assert log[..|log|] == log;
  }

  // ----- starting a Run and its Turn

  function NewRecord(id: Ident, now: int): Entry {
    Entry(id, 1, Prepared, "", "", None, None, now, Runtime)
  }

  /** Prepared and started, in one append. */
  function Opening(id: Ident, now: int, later: int): seq<Entry> {
    [NewRecord(id, now), NewRecord(id, now).(revision := 2, status := Started, updatedAt := later)]
  }

  function StartBatch(run: string, turn: string, now: int, later: int): Option<seq<Entry>> {
    if KeyValid(Run(run)) && KeyValid(Turn(run, turn)) then Some(Opening(Run(run), now, later) + Opening(Turn(run, turn), now, later))
    else None
  }

  method StartRunTurnJournal(run: string, turn: string, now: int, later: int) returns (batch: Option<seq<Entry>>)
    ensures batch == StartBatch(run, turn, now, later)
  {
    var events: seq<Entry> := [];
    var records := [NewRecord(Run(run), now), NewRecord(Turn(run, turn), now)];
    for i := 0 to |records|
      invariant i == 0 ==> events == []
      invariant i == 1 ==> events == Opening(Run(run), now, later) && KeyValid(Run(run))
      invariant i == 2 ==> StartBatch(run, turn, now, later) == Some(events)
    {
      var prepared := records[i];
      if !ValidNext(None, prepared) {
        return None;
      }
      var started := prepared.(revision := prepared.revision + 1, status := Started, updatedAt := later);
      if !ValidNext(Some(prepared), started) {
        return None;
      }
      events := events + [prepared, started];
    }
    return Some(events);
  }

  // ----- moving a Run and its Turn on

  function Advance(previous: Entry, status: Status, reason: string, now: int): Entry {
    previous.(revision := previous.revision + 1, status := status, reason := TrimSpace(reason),
              error := if status == Failed then TrimSpace(reason) else previous.error, updatedAt := now, writer := Runtime)
  }

  /** The update for one record: none if it is over or there already, an error if not allowed. */
  function Update(previous: Option<Entry>, status: Status, reason: string, now: int): Option<seq<Entry>> {
    match previous
    case None => Some([])
    case Some(p) =>
      if Terminal(p.status) || p.status == status then Some([])
      else if ValidNext(previous, Advance(p, status, reason, now)) then Some([Advance(p, status, reason, now)])
      else None
  }

  function TransitionBatch(log: seq<Entry>, run: string, turn: string, status: Status, reason: string, now: int): Option<seq<Entry>> {
    var first := Update(Latest(log, Turn(run, turn)), status, reason, now);
    var second := Update(Latest(log, Run(run)), status, reason, now);
    if first.Some? && second.Some? then Some(first.value + second.value) else None
  }

  method TransitionRunTurnJournal(log: seq<Entry>, run: string, turn: string, status: Status, reason: string, now: int)
    returns (batch: Option<seq<Entry>>)
    ensures batch == TransitionBatch(log, run, turn, status, reason, now)
  {
    hide Latest, ValidNext;
    var latest := LatestRecords(log, false);
    var kinds := [Turn(run, turn), Run(run)];
    var updates: seq<Entry> := [];
    for i := 0 to |kinds|
      invariant i == 0 ==> updates == []
      invariant i == 1 ==> Update(Latest(log, kinds[0]), status, reason, now) == Some(updates)
      invariant i == 2 ==> TransitionBatch(log, run, turn, status, reason, now) == Some(updates)
    {
      var one := UpdateRecord(log, latest, kinds[i], status, reason, now);
      if one.None? {
        return None;
      }
      assert i == 0 ==> updates + one.value == one.value;
      updates := updates + one.value;
    }
    return Some(updates);
  }

  method UpdateRecord(ghost log: seq<Entry>, latest: map<Ident, Entry>, id: Ident, status: Status, reason: string, now: int)
    returns (update: Option<seq<Entry>>)
    requires Indexes(latest, log, false) && !id.Token?
    ensures update == Update(Latest(log, id), status, reason, now)
  {
    if id !in latest {
      return Some([]);
    }
    var previous := latest[id];
    if Terminal(previous.status) || previous.status == status {
      return Some([]);
    }
    var next := Advance(previous, status, reason, now);
    return if ValidNext(Some(previous), next) then Some([next]) else None;
  }

  // ----- recovery

  /** Left open by a process that ended. */
  predicate Incomplete(e: Entry) {
    if e.id.Token? then e.status.Pending? else e.status.Started? || e.status.WaitingApproval? || e.status.CancelRequested?
  }

  const RECOVERED: string := "runtime recovered without a durable terminal record"
  const NO_WAITER: string := "runtime recovered without a live approval waiter"

  function Recovered(p: Entry, now: int): Entry {
    if p.id.Token? then p.(revision := p.revision + 1, status := Withdrawn, reason := NO_WAITER, updatedAt := now, writer := Runtime)
    else p.(revision := p.revision + 1, status := if p.id.Step? then UnknownOutcome else Interrupted, reason := RECOVERED,
            recoveredFrom := Some(p.status), updatedAt := now, writer := Runtime)
  }

  /** An open execution record recovery must not move: its transition is not valid. */
  predicate Blocks(p: Entry) {
    !p.id.Token? && Incomplete(p) && !ValidNext(Some(p), Recovered(p, 0))
  }

  ghost predicate Open(log: seq<Entry>, id: Ident) {
    Latest(log, id).Some? && Incomplete(Latest(log, id).value)
  }

  ghost predicate Closes(log: seq<Entry>, update: Entry) {
    Open(log, update.id) && update == Recovered(Latest(log, update.id).value, update.updatedAt)
  }

  /** The updates close every open identity once, and no other. */
  ghost predicate IsRecovery(log: seq<Entry>, updates: seq<Entry>) {
    && (forall i :: 0 <= i < |updates| ==> Closes(log, updates[i]) && !Blocks(Latest(log, updates[i].id).value))
    && (forall i, j :: 0 <= i < j < |updates| ==> updates[i].id != updates[j].id)
    && (forall id :: Open(log, id) ==> exists i :: 0 <= i < |updates| && updates[i].id == id)
  }

  ghost predicate Blocked(log: seq<Entry>) {
    exists id :: Open(log, id) && Blocks(Latest(log, id).value)
  }

  /** The updates close the open identities among those looked at. */
  ghost predicate Covers(log: seq<Entry>, updates: seq<Entry>, done: set<Ident>) {
    && (forall i :: 0 <= i < |updates| ==> Closes(log, updates[i]) && !Blocks(Latest(log, updates[i].id).value) && updates[i].id in done)
    && (forall i, j :: 0 <= i < j < |updates| ==> updates[i].id != updates[j].id)
    && (forall id :: id in done && Open(log, id) ==> exists i :: 0 <= i < |updates| && updates[i].id == id)
  }

  lemma CoverSkip(log: seq<Entry>, updates: seq<Entry>, done: set<Ident>, id: Ident)
    requires Covers(log, updates, done) && !Open(log, id)
    ensures Covers(log, updates, done + {id})
  {
  }

  lemma CoverAdd(log: seq<Entry>, updates: seq<Entry>, done: set<Ident>, update: Entry)
    requires Covers(log, updates, done) && update.id !in done
    requires Closes(log, update) && !Blocks(Latest(log, update.id).value)
    ensures Covers(log, updates + [update], done + {update.id})
  {
    hide Closes, Blocks, Latest, Open;
    var all := updates + [update];
    forall id | id in done + {update.id} && Open(log, id)
      ensures exists i :: 0 <= i < |all| && all[i].id == id
    {
      if id == update.id {
        assert all[|updates|].id == id;
      } else {
        var i :| 0 <= i < |updates| && updates[i].id == id;
        assert all[i].id == id;
      }
    }
  }

  lemma IndexAt(latest: map<Ident, Entry>, log: seq<Entry>, tokens: bool, id: Ident)
    requires Indexes(latest, log, tokens) && id in latest
    ensures Latest(log, id) == Some(latest[id]) && latest[id].id == id
  {
  }

  lemma CannotClose(log: seq<Entry>, p: Entry, now: int)
    requires Latest(log, p.id) == Some(p) && Incomplete(p) && !p.id.Token? && !ValidNext(Some(p), Recovered(p, now))
    ensures Blocked(log)
  {
  }

  lemma CanClose(log: seq<Entry>, p: Entry, now: int)
    requires Latest(log, p.id) == Some(p) && Incomplete(p) && (p.id.Token? || ValidNext(Some(p), Recovered(p, now)))
    ensures Closes(log, Recovered(p, now)) && !Blocks(p) && Recovered(p, now).id == p.id
  {
  }

  /** One pass over the newest records, in any order. */
  method CloseAll(ghost log: seq<Entry>, latest: map<Ident, Entry>, ghost tokens: bool, now: nat -> int, before: seq<Entry>, ghost done: set<Ident>)
    returns (updates: Option<seq<Entry>>)
    requires Indexes(latest, log, tokens) && Covers(log, before, done) && done !! latest.Keys
    ensures updates.Some? ==> Covers(log, updates.value, done + latest.Keys)
    ensures updates.None? ==> Blocked(log)
  {
    hide *;
    var rest, found := latest.Keys, before;
    ghost var seen := done;
    while rest != {}
      invariant rest <= latest.Keys && seen !! rest && seen + rest == done + latest.Keys
      invariant Covers(log, found, seen)
      decreases |rest|
    {
      var id :| id in rest;
      var previous := latest[id];
      IndexAt(latest, log, tokens, id);
      if Incomplete(previous) {
        var next := Recovered(previous, now(|found|));
        if !id.Token? && !ValidNext(Some(previous), next) {
          CannotClose(log, previous, now(|found|));
          return None;
        }
        CanClose(log, previous, now(|found|));
        CoverAdd(log, found, seen, next);
        found := found + [next];
      } else {
        NotOpen(log, previous);
        CoverSkip(log, found, seen, id);
      }
      rest, seen := rest - {id}, seen + {id};
    }
    assert seen == done + latest.Keys;
    return Some(found);
  }

  lemma NotOpen(log: seq<Entry>, p: Entry)
    requires Latest(log, p.id) == Some(p) && !Incomplete(p)
    ensures !Open(log, p.id)
  {
  }

  /** Recovery fails exactly when an open record cannot be moved. */
  method RecoverIncompleteExecutionJournal(log: seq<Entry>, now: nat -> int) returns (updates: Option<seq<Entry>>)
    ensures updates.Some? ==> IsRecovery(log, updates.value)
    ensures updates.Some? ==> forall id :: LeavesEnded(log, updates.value, id)
    ensures updates.None? <==> Blocked(log)
  {
    var latest := LatestRecords(log, false);
    var latestPause := LatestRecords(log, true);
    CoverNothing(log);
    hide Covers;
    var executions := CloseAll(log, latest, false, now, [], {});
    if executions.None? {
      return None;
    }
    assert {} + latest.Keys == latest.Keys;
    updates := CloseAll(log, latestPause, true, now, executions.value, latest.Keys);
    if updates.Some? {
      CoveredAll(log, updates.value, latest, latestPause);
      hide *;
      RecoveryNotBlocked(log, updates.value);
      forall id
        ensures LeavesEnded(log, updates.value, id)
      {
        RecoveredRecords(log, updates.value, id);
      }
    }
  }

  lemma CoverNothing(log: seq<Entry>)
    ensures Covers(log, [], {})
  {
  }

  lemma CoveredAll(log: seq<Entry>, updates: seq<Entry>, latest: map<Ident, Entry>, latestPause: map<Ident, Entry>)
    requires Indexes(latest, log, false) && Indexes(latestPause, log, true)
    requires Covers(log, updates, latest.Keys + latestPause.Keys)
    ensures IsRecovery(log, updates)
  {
  }

  lemma {:induction false} RecoveryNotBlocked(log: seq<Entry>, updates: seq<Entry>)
    requires IsRecovery(log, updates)
    ensures !Blocked(log)
  {
    hide Blocks, Latest, Closes;
    forall id | Open(log, id)
      ensures !Blocks(Latest(log, id).value)
    {
      var i :| 0 <= i < |updates| && updates[i].id == id;
    }
  }

  /** A record recovery cannot move is one whose identity is incomplete or a waiting Step. */
  lemma BlocksExactly(p: Entry)
    requires !p.id.Token? && Incomplete(p)
    ensures Blocks(p) <==> !KeyValid(p.id) || (p.id.Step? && p.status == WaitingApproval)
  {
  }

  // ----- what recovery leaves

  lemma FreshUpdate(log: seq<Entry>, updates: seq<Entry>, n: nat)
    requires n < |updates| && Closes(log, updates[n])
    requires forall i, j :: 0 <= i < j < |updates| ==> updates[i].id != updates[j].id
    ensures Find(log + updates[..n], updates[n]).None?
  {
  }

  /** The updates of a recovery are new, so all of them are appended. */
  lemma {:induction false} RecoveryAppends(log: seq<Entry>, updates: seq<Entry>, n: nat)
    requires n <= |updates| && forall i :: 0 <= i < |updates| ==> Closes(log, updates[i])
    requires forall i, j :: 0 <= i < j < |updates| ==> updates[i].id != updates[j].id
    ensures Append(log + updates[..n], updates[n..]) == Some(log + updates)
    decreases |updates| - n
  {
    hide Closes, Find;
    if n == |updates| {
      assert updates[..n] == updates;
    } else {
      FreshUpdate(log, updates, n);
      RecoveryAppends(log, updates, n + 1);
      assert log + updates[..n] + [updates[n]] == log + updates[..n + 1];
      assert updates[n..][1..] == updates[n + 1..];
    }
  }

  lemma {:induction false} LatestUntouched(log: seq<Entry>, more: seq<Entry>, id: Ident)
    requires forall e :: e in more ==> e.id != id
    ensures Latest(log + more, id) == Latest(log, id)
  {
    hide Latest;
    if more == [] {
      assert log + more == log;
    } else {
      var n := |more| - 1;
      assert more[n] in more;
      LatestUntouched(log, more[..n], id);
      LatestSnoc(log + more[..n], more[n], id);
      assert log + more == log + more[..n] + [more[n]];
    }
  }

  lemma Newer(log: seq<Entry>, update: Entry)
    requires Closes(log, update)
    ensures update.revision == Latest(log, update.id).value.revision + 1
    ensures !Incomplete(update)
  {
  }

  /** After the updates the newest record of an identity is its update. */
  lemma LatestAfter(log: seq<Entry>, before: seq<Entry>, update: Entry, after: seq<Entry>)
    requires Closes(log, update) && (forall e :: e in before ==> e.id != update.id) && (forall e :: e in after ==> e.id != update.id)
    ensures Latest(log + (before + [update] + after), update.id) == Some(update)
  {
  }

  /** Recovery run alone: everything it found open is appended closed, nothing stays open, and
      recovering again appends nothing. */
  lemma {:induction false} RecoveryCloses(log: seq<Entry>, updates: seq<Entry>)
    requires IsRecovery(log, updates)
    ensures Append(log, updates) == Some(log + updates)
    ensures forall id :: !Open(log + updates, id)
    ensures forall again :: IsRecovery(log + updates, again) <==> again == []
  {
    RecoveryAppends(log, updates, 0);
    assert log + updates[..0] == log && updates[0..] == updates && updates[..|updates|] == updates;
    forall id
      ensures !Open(log + updates, id)
    {
      ClosedAfter(log, updates, id);
    }
    hide Open, Blocks, Latest, Append;
    forall again
      ensures IsRecovery(log + updates, again) <==> again == []
    {
      assert again != [] && IsRecovery(log + updates, again) ==> Closes(log + updates, again[0]);
    }
  }

  /** What that means: no Run, Turn or Step is left started, waiting or being cancelled, and no token
      is left pending. */
  lemma {:induction false} NothingUnderWay(log: seq<Entry>, updates: seq<Entry>, id: Ident)
    requires IsRecovery(log, updates) && Latest(log + updates, id).Some?
    ensures var status := Latest(log + updates, id).value.status;
      if id.Token? then status != Pending else status != Started && status != WaitingApproval && status != CancelRequested
  {
    ClosedAfter(log, updates, id);
    hide Latest, IsRecovery;
  }

  lemma {:induction false} ClosedAfter(log: seq<Entry>, updates: seq<Entry>, id: Ident)
    requires IsRecovery(log, updates)
    ensures !Open(log + updates, id)
  {
    hide Latest, Blocks, Closes;
    if i: nat :| i < |updates| && updates[i].id == id {
      Newer(log, updates[i]);
      LatestAfter(log, updates[..i], updates[i], updates[i + 1..]);
      assert updates[..i] + [updates[i]] + updates[i + 1..] == updates;
    } else {
      LatestUntouched(log, updates, id);
      assert !Open(log, id);
    }
  }

  /** What recovery makes of an open record: the next revision ends it, says what it was, and
      keeps everything else. */
  ghost predicate Ended(was: Entry, now: Entry) {
    && now.id == was.id && now.revision == was.revision + 1
    && now.error == was.error && now.decision == was.decision && now.writer == Runtime
    && match was.id
       case Run(_) => now.status == Interrupted && now.recoveredFrom == Some(was.status) && now.reason == RECOVERED
       case Turn(_, _) => now.status == Interrupted && now.recoveredFrom == Some(was.status) && now.reason == RECOVERED
       case Step(_, _, _) => now.status == UnknownOutcome && now.recoveredFrom == Some(was.status) && now.reason == RECOVERED
       case Token(_) => now.status == Withdrawn && now.recoveredFrom == was.recoveredFrom && now.reason == NO_WAITER
  }

  /** After the updates the newest record of an identity that was open ends it, and any other
      identity is as before. */
  ghost predicate LeavesEnded(log: seq<Entry>, updates: seq<Entry>, id: Ident) {
    var was, now := Latest(log, id), Latest(log + updates, id);
    if Open(log, id) then now.Some? && Ended(was.value, now.value) else now == was
  }

  lemma {:induction false} RecoveredRecords(log: seq<Entry>, updates: seq<Entry>, id: Ident)
    requires IsRecovery(log, updates)
    ensures LeavesEnded(log, updates, id)
  {
    hide Latest, Blocks, Closes, Ended;
    if i: nat :| i < |updates| && updates[i].id == id {
      EndedBy(log, updates[i]);
      LatestAfter(log, updates[..i], updates[i], updates[i + 1..]);
      assert updates[..i] + [updates[i]] + updates[i + 1..] == updates;
    } else {
      LatestUntouched(log, updates, id);
    }
  }

  lemma EndedBy(log: seq<Entry>, update: Entry)
    requires Closes(log, update)
    ensures Open(log, update.id) && Ended(Latest(log, update.id).value, update)
  {
    hide Latest;
  }

  // ----- what starting and moving on leave

  /** A record moved to a status: unless it was over or there already, its next revision has the
      status and the reason, and only a failure changes the error. */
  ghost predicate MovedTo(was: Option<Entry>, now: Option<Entry>, status: Status, reason: string) {
    if was.None? || Terminal(was.value.status) || was.value.status == status then now == was
    else
      && now.Some?
      && now.value.id == was.value.id && now.value.revision == was.value.revision + 1
      && now.value.status == status && now.value.reason == TrimSpace(reason)
      && now.value.error == (if status == Failed then TrimSpace(reason) else was.value.error)
      && now.value.recoveredFrom == was.value.recoveredFrom && now.value.decision == was.value.decision
      && KeyValid(was.value.id) && Allowed(was.value.status, status)
  }

  /** The record could not be moved: the status may not follow the one it has. */
  ghost predicate Immovable(was: Option<Entry>, status: Status) {
    && was.Some? && !Terminal(was.value.status) && was.value.status != status
    && !(KeyValid(was.value.id) && Allowed(was.value.status, status))
  }

  lemma UpdateMoves(log: seq<Entry>, id: Ident, status: Status, reason: string, now: int)
    ensures var update := Update(Latest(log, id), status, reason, now);
      && (update.None? <==> Immovable(Latest(log, id), status))
      && (update.Some? ==>
            && MovedTo(Latest(log, id), Latest(log + update.value, id), status, reason)
            && forall e :: e in update.value ==> e.id == id)
  {
    hide Latest, TrimSpace;
    var update := Update(Latest(log, id), status, reason, now);
    if update.Some? && update.value != [] {
      LatestSnoc(log, update.value[0], id);
    } else {
      assert log + [] == log;
    }
  }

  /** After a transition the newest Turn and Run records are in the requested status unless they
      were over, every other identity is as before; it fails exactly when one cannot be moved. */
  lemma {:induction false} TransitionMoves(log: seq<Entry>, run: string, turn: string, status: Status, reason: string, now: int, id: Ident)
    ensures var batch := TransitionBatch(log, run, turn, status, reason, now);
      && (batch.None? <==> Immovable(Latest(log, Turn(run, turn)), status) || Immovable(Latest(log, Run(run)), status))
      && (batch.Some? ==>
            var was, after := Latest(log, id), Latest(log + batch.value, id);
            if id == Turn(run, turn) || id == Run(run) then MovedTo(was, after, status, reason) else after == was)
  {
    hide Latest, Update, MovedTo, Immovable;
    UpdateMoves(log, Turn(run, turn), status, reason, now);
    UpdateMoves(log, Run(run), status, reason, now);
    var first, second := Update(Latest(log, Turn(run, turn)), status, reason, now), Update(Latest(log, Run(run)), status, reason, now);
    if first.Some? && second.Some? {
      assert log + (first.value + second.value) == log + first.value + second.value;
      if id == Run(run) {
        LatestSkips(log, first.value, second.value, id);
      } else if id == Turn(run, turn) {
        LatestUntouched(log + first.value, second.value, id);
      } else {
        LatestUntouched(log, first.value, id);
        LatestUntouched(log + first.value, second.value, id);
      }
    }
  }

  /** Records of others in between do not matter. */
  lemma {:induction false} LatestSkips(log: seq<Entry>, others: seq<Entry>, more: seq<Entry>, id: Ident)
    requires forall e :: e in others ==> e.id != id
    ensures Latest(log + others + more, id) == Latest(log + more, id)
  {
    hide Latest;
    if more == [] {
      LatestUntouched(log, others, id);
      assert log + others + more == log + others && log + more == log;
    } else {
      var init, last := more[..|more| - 1], more[|more| - 1];
      LatestSkips(log, others, init, id);
      assert log + others + more == log + others + init + [last];
      assert log + more == log + init + [last];
      LatestSnoc(log + others + init, last, id);
      LatestSnoc(log + init, last, id);
    }
  }

  /** Two records of an identity: prepared as revision 1 and started as revision 2. */
  ghost predicate OpensAs(pair: seq<Entry>, id: Ident) {
    && |pair| == 2
    && pair[0].id == pair[1].id == id && pair[0].writer == pair[1].writer == Runtime
    && pair[0].revision == 1 && pair[0].status == Prepared
    && pair[1].revision == 2 && pair[1].status == Started
  }

  lemma LatestOpened(log: seq<Entry>, pair: seq<Entry>, id: Ident)
    requires OpensAs(pair, id) && Latest(log, id).None?
    ensures Latest(log + pair, id) == Some(pair[1])
  {
    hide Latest;
    LatestSnoc(log, pair[0], id);
    LatestSnoc(log + [pair[0]], pair[1], id);
    assert log + pair == log + [pair[0]] + [pair[1]];
  }

  /** Starting opens the Run and then the Turn, and fails exactly when one of them has no name. */
  lemma StartIs(run: string, turn: string, now: int, later: int)
    ensures StartBatch(run, turn, now, later).Some? <==> run != "" && turn != ""
    ensures StartBatch(run, turn, now, later).Some? ==>
      exists first, second :: StartBatch(run, turn, now, later) == Some(first + second) && OpensAs(first, Run(run)) && OpensAs(second, Turn(run, turn))
  {
    if StartBatch(run, turn, now, later).Some? {
      var first, second := Opening(Run(run), now, later), Opening(Turn(run, turn), now, later);
      assert OpensAs(first, Run(run)) && OpensAs(second, Turn(run, turn));
    }
  }

  /** Starting a Run and a Turn the log does not know leaves both started. */
  lemma {:induction false} StartOpens(log: seq<Entry>, run: string, turn: string, first: seq<Entry>, second: seq<Entry>)
    requires OpensAs(first, Run(run)) && OpensAs(second, Turn(run, turn))
    requires Latest(log, Run(run)).None? && Latest(log, Turn(run, turn)).None?
    ensures Latest(log + (first + second), Run(run)) == Some(first[1])
    ensures Latest(log + (first + second), Turn(run, turn)) == Some(second[1])
  {
    hide Latest;
    LatestOpened(log, first, Run(run));
    LatestUntouched(log + first, second, Run(run));
    LatestUntouched(log, first, Turn(run, turn));
    LatestOpened(log + first, second, Turn(run, turn));
    assert log + (first + second) == log + first + second;
  }

  // ----- racing writers

  /** What may be appended when `known` is in the log. Runs, Turns and tokens follow a record of
      theirs; Steps are written by the tool journal, which never lets one wait. */
  ghost predicate Admissible(known: seq<Entry>, e: Entry) {
    && KeyValid(e.id)
    && if e.id.Step? then e.status != WaitingApproval
       else e.writer == Runtime && (ValidNext(None, e) || exists p :: p in known && ValidNext(Some(p), e))
  }

  ghost predicate AllAdmissible(known: seq<Entry>, batch: seq<Entry>) {
    forall i :: 0 <= i < |batch| ==> Admissible(known + batch[..i], batch[i])
  }

  ghost predicate WellFormed(log: seq<Entry>) {
    && (forall l :: 0 <= l < |log| ==> Admissible(log[..l], log[l]))
    && (forall i, j :: 0 <= i < j < |log| ==> !SameKey(log[i], log[j]))
  }

  lemma AdmissibleGrows(known: seq<Entry>, more: seq<Entry>, e: Entry)
    requires Admissible(known, e) && forall p :: p in known ==> p in more
    ensures Admissible(more, e)
  {
  }

  lemma WellFormedSnoc(log: seq<Entry>, e: Entry)
    requires WellFormed(log) && Admissible(log, e) && Find(log, e).None?
    ensures WellFormed(log + [e])
  {
    hide Admissible;
    var longer := log + [e];
    forall l | 0 <= l < |longer|
      ensures Admissible(longer[..l], longer[l])
    {
      assert longer[..l] == log[..l];
    }
    forall i, j | 0 <= i < j < |longer|
      ensures !SameKey(longer[i], longer[j])
    {
      if j == |log| {
        assert log[i] in log;
      }
    }
  }

  lemma BatchTail(known: seq<Entry>, batch: seq<Entry>)
    requires batch != [] && AllAdmissible(known, batch)
    ensures Admissible(known, batch[0]) && AllAdmissible(known + [batch[0]], batch[1..])
  {
  }

  /** Whatever was appended since a batch was prepared, appending it keeps the log well formed. */
  lemma {:induction false} AppendKeeps(log: seq<Entry>, known: seq<Entry>, batch: seq<Entry>)
    requires WellFormed(log) && AllAdmissible(known, batch) && (forall p :: p in known ==> p in log)
    requires Append(log, batch).Some?
    ensures WellFormed(Append(log, batch).value)
    decreases |batch|
  {
    if batch == [] {
    } else {
      BatchTail(known, batch);
      hide Admissible, AllAdmissible, WellFormed;
      if Find(log, batch[0]).None? {
        AdmissibleGrows(known, log, batch[0]);
        WellFormedSnoc(log, batch[0]);
        AppendKeeps(log + [batch[0]], known + [batch[0]], batch[1..]);
      } else {
        AppendKeeps(log, known + [batch[0]], batch[1..]);
      }
    }
  }

  /** `plans` holds the batch each writer has prepared and not yet appended. */
  datatype World = World(log: seq<Entry>, plans: map<nat, seq<Entry>>)

  datatype Act =
    | Start(writer: nat, run: string, turn: string, now: int, later: int)
    | Transition(writer: nat, run: string, turn: string, status: Status, reason: string, now: int)
    | Recover(writer: nat, updates: seq<Entry>)
    | Write(writer: nat, entry: Entry)
    | Commit(writer: nat)
    | Crash(writer: nat)

  ghost function Planned(w: World, writer: nat, batch: Option<seq<Entry>>): World {
    if batch.Some? then w.(plans := w.plans[writer := batch.value]) else w
  }

  /** Reading and preparing is one step, appending another, so writers race in between.
      `Write` stands for the tool journal and for requesting and ending pause tokens. */
  ghost function Do(w: World, act: Act): World {
    match act
    case Start(writer, run, turn, now, later) => Planned(w, writer, StartBatch(run, turn, now, later))
    case Transition(writer, run, turn, status, reason, now) =>
      Planned(w, writer, TransitionBatch(w.log, run, turn, status, reason, now))
    case Recover(writer, updates) => Planned(w, writer, if IsRecovery(w.log, updates) then Some(updates) else None)
    case Write(writer, entry) =>
      Planned(w, writer, if (entry.id.Step? || entry.id.Token?) && Admissible(w.log, entry) then Some([entry]) else None)
    case Commit(writer) =>
      if writer in w.plans then
        var appended := Append(w.log, w.plans[writer]);
        World(if appended.Some? then appended.value else w.log, w.plans - {writer})
      else w
    case Crash(writer) => w.(plans := w.plans - {writer})
  }

  ghost function RunAll(acts: seq<Act>): World {
    if acts == [] then World([], map[]) else Do(RunAll(acts[..|acts| - 1]), acts[|acts| - 1])
  }

  ghost predicate Inv(w: World) {
    WellFormed(w.log) && forall writer :: writer in w.plans ==> AllAdmissible(w.log, w.plans[writer])
  }

  lemma AdvanceAdmissible(log: seq<Entry>, known: seq<Entry>, id: Ident, status: Status, reason: string, now: int, i: nat)
    requires log <= known && !id.Step? && Update(Latest(log, id), status, reason, now).Some?
    requires i < |Update(Latest(log, id), status, reason, now).value|
    ensures Admissible(known, Update(Latest(log, id), status, reason, now).value[i])
  {
  }

  lemma TransitionAdmissible(log: seq<Entry>, run: string, turn: string, status: Status, reason: string, now: int)
    requires TransitionBatch(log, run, turn, status, reason, now).Some?
    ensures AllAdmissible(log, TransitionBatch(log, run, turn, status, reason, now).value)
  {
    var first := Update(Latest(log, Turn(run, turn)), status, reason, now).value;
    var second := Update(Latest(log, Run(run)), status, reason, now).value;
    var batch := first + second;
    hide Latest, Admissible;
    forall i | 0 <= i < |batch|
      ensures Admissible(log + batch[..i], batch[i])
    {
      if i < |first| {
        AdvanceAdmissible(log, log + batch[..i], Turn(run, turn), status, reason, now, i);
      } else {
        AdvanceAdmissible(log, log + batch[..i], Run(run), status, reason, now, i - |first|);
      }
    }
  }

  lemma StartAdmissible(log: seq<Entry>, run: string, turn: string, now: int, later: int)
    requires StartBatch(run, turn, now, later).Some?
    ensures AllAdmissible(log, StartBatch(run, turn, now, later).value)
  {
    var batch := StartBatch(run, turn, now, later).value;
    forall i | 0 <= i < |batch|
      ensures Admissible(log + batch[..i], batch[i])
    {
      if i == 1 || i == 3 {
        assert batch[i - 1] in batch[..i];
        assert ValidNext(Some(batch[i - 1]), batch[i]);
      } else {
        assert ValidNext(None, batch[i]);
      }
    }
  }

  lemma LatestValid(log: seq<Entry>, id: Ident)
    requires WellFormed(log) && Latest(log, id).Some?
    ensures KeyValid(id)
  {
  }

  lemma RecoveredFollows(p: Entry, now: int)
    requires Incomplete(p) && !Blocks(p) && KeyValid(p.id)
    ensures ValidNext(Some(p), Recovered(p, now))
  {
  }

  lemma CloseAdmissible(log: seq<Entry>, known: seq<Entry>, update: Entry)
    requires WellFormed(log) && log <= known && Closes(log, update) && !Blocks(Latest(log, update.id).value)
    ensures Admissible(known, update)
  {
    LatestValid(log, update.id);
    hide WellFormed;
    var p := Latest(log, update.id).value;
    assert p in known;
    RecoveredFollows(p, update.updatedAt);
    hide Latest, ValidNext, Blocks;
    assert ValidNext(Some(p), update);
  }

  lemma RecoveryAdmissible(log: seq<Entry>, updates: seq<Entry>)
    requires WellFormed(log) && IsRecovery(log, updates)
    ensures AllAdmissible(log, updates)
  {
    hide WellFormed, Latest, Closes, Blocks, Admissible;
    forall i | 0 <= i < |updates|
      ensures Admissible(log + updates[..i], updates[i])
    {
      CloseAdmissible(log, log + updates[..i], updates[i]);
    }
  }

  lemma BatchGrows(known: seq<Entry>, more: seq<Entry>, batch: seq<Entry>)
    requires AllAdmissible(known, batch) && known <= more
    ensures AllAdmissible(more, batch)
  {
  }

  lemma CommitKeeps(w: World, writer: nat)
    requires Inv(w)
    ensures Inv(Do(w, Commit(writer)))
  {
    if writer in w.plans && Append(w.log, w.plans[writer]).Some? {
      AppendKeeps(w.log, w.log, w.plans[writer]);
      hide WellFormed, AllAdmissible;
      forall other | other in w.plans
        ensures AllAdmissible(Append(w.log, w.plans[writer]).value, w.plans[other])
      {
        BatchGrows(w.log, Append(w.log, w.plans[writer]).value, w.plans[other]);
      }
    }
  }

  lemma ActKeeps(w: World, act: Act)
    requires Inv(w)
    ensures Inv(Do(w, act))
  {
    hide WellFormed, Admissible, IsRecovery, TransitionBatch, StartBatch;
    match act
    case Start(_, run, turn, now, later) =>
      if StartBatch(run, turn, now, later).Some? { StartAdmissible(w.log, run, turn, now, later); }
    case Transition(_, run, turn, status, reason, now) =>
      if TransitionBatch(w.log, run, turn, status, reason, now).Some? { TransitionAdmissible(w.log, run, turn, status, reason, now); }
    case Recover(_, updates) =>
      if IsRecovery(w.log, updates) { RecoveryAdmissible(w.log, updates); }
    case Write(_, entry) => assert w.log + [entry][..0] == w.log;
    case Commit(writer) => CommitKeeps(w, writer);
    case Crash(_) =>
  }

  lemma {:induction false} RunKeeps(acts: seq<Act>)
    ensures Inv(RunAll(acts))
  {
    if acts == [] {
    } else {
      RunKeeps(acts[..|acts| - 1]);
      ActKeeps(RunAll(acts[..|acts| - 1]), acts[|acts| - 1]);
    }
  }

  // ----- histories

  /** The records of one identity, oldest first. */
  function Of(log: seq<Entry>, id: Ident): (h: seq<Entry>)
    ensures forall e :: e in h <==> e in log && e.id == id
  {
    if log == [] then []
    else
      var before, last := Of(log[..|log| - 1], id), log[|log| - 1];
      if last.id == id then before + [last] else before
  }

  /** Revisions count 1, 2, 3, ... through allowed transitions, so nothing follows a final status. */
  ghost predicate History(h: seq<Entry>, id: Ident) {
    && Numbered(h)
    && (h != [] ==> h[0].status == Initial(id))
    && (forall k :: 0 < k < |h| ==> Allowed(h[k - 1].status, h[k].status))
    && (forall k :: 0 <= k < |h| - 1 ==> !Final(h[k].status))
  }

  ghost predicate Numbered(h: seq<Entry>) {
    forall k :: 0 <= k < |h| ==> h[k].revision == k + 1
  }

  lemma Taken(h: seq<Entry>, revision: nat)
    requires Numbered(h)
    ensures 1 <= revision <= |h| ==> exists p :: p in h && p.revision == revision
  {
    if 1 <= revision <= |h| {
      assert h[revision - 1] in h;
    }
  }

  /** A record under a new key that is first or follows one of the history is the next one. */
  lemma NextInLine(h: seq<Entry>, e: Entry)
    requires Numbered(h) && !(1 <= e.revision <= |h|)
    requires ValidNext(None, e) || exists p :: p in h && ValidNext(Some(p), e)
    ensures e.revision == |h| + 1
    ensures if h == [] then ValidNext(None, e) else Allowed(h[|h| - 1].status, e.status)
  {
  }

  lemma HistoryGrows(h: seq<Entry>, id: Ident, e: Entry)
    requires History(h, id) && e.revision == |h| + 1
    requires if h == [] then e.status == Initial(id) else Allowed(h[|h| - 1].status, e.status)
    ensures History(h + [e], id)
  {
  }

  lemma HistorySnoc(h: seq<Entry>, log: seq<Entry>, id: Ident, e: Entry)
    requires History(h, id) && h == Of(log, id) && e.id == id && !id.Step? && Admissible(log, e)
    requires forall p :: p in log ==> !SameKey(p, e)
    requires forall p :: p in h ==> p.writer == Runtime
    ensures History(h + [e], id)
  {
    hide Allowed, Final, Of;
    assert forall p :: p in log && ValidNext(Some(p), e) ==> p in h;
    Taken(h, e.revision);
    NextInLine(h, e);
    hide Admissible, History;
    HistoryGrows(h, id, e);
  }

  lemma WellFormedInit(log: seq<Entry>)
    requires WellFormed(log) && log != []
    ensures var n := |log| - 1;
      WellFormed(log[..n]) && Admissible(log[..n], log[n]) && forall p :: p in log[..n] ==> !SameKey(p, log[n])
  {
    hide Admissible;
    var n := |log| - 1;
    assert forall l :: 0 <= l < n ==> log[..n][..l] == log[..l];
  }

  lemma OfSnoc(log: seq<Entry>, id: Ident)
    requires log != []
    ensures var n := |log| - 1;
      Of(log, id) == if log[n].id == id then Of(log[..n], id) + [log[n]] else Of(log[..n], id)
  {
  }

  lemma HistoryOfNone(id: Ident)
    ensures Of([], id) == [] && History([], id)
  {
  }

  lemma AdmissibleRuntime(known: seq<Entry>, e: Entry)
    requires Admissible(known, e) && !e.id.Step?
    ensures e.writer == Runtime
  {
  }

  lemma {:induction false} WellFormedHistory(log: seq<Entry>, id: Ident)
    requires WellFormed(log) && !id.Step?
    ensures History(Of(log, id), id) && forall p :: p in Of(log, id) ==> p.writer == Runtime
  {
    hide WellFormed, Of, History, Admissible;
    if log == [] {
      HistoryOfNone(id);
    } else {
      var before, last := log[..|log| - 1], log[|log| - 1];
      WellFormedInit(log);
      WellFormedHistory(before, id);
      OfSnoc(log, id);
      if last.id == id {
        AdmissibleRuntime(before, last);
        HistorySnoc(Of(before, id), before, id, last);
      }
    }
  }

  /** Over every interleaving of starts, transitions, recoveries, token updates and crashes,
      each Run, Turn and pause token has revisions 1, 2, 3, ... and nothing after its end. */
  lemma {:induction false} EveryHistory(acts: seq<Act>, id: Ident)
    requires !id.Step?
    ensures History(Of(RunAll(acts).log, id), id)
  {
    RunKeeps(acts);
    WellFormedHistory(RunAll(acts).log, id);
  }

  /** Recovery never fails in a run: no open record blocks it. */
  lemma {:induction false} RecoveryNeverBlocked(acts: seq<Act>)
    ensures !Blocked(RunAll(acts).log)
  {
    RunKeeps(acts);
    var log := RunAll(acts).log;
    hide RunAll, AllAdmissible;
    forall id | Open(log, id)
      ensures !Blocks(Latest(log, id).value)
    {
      var p := Latest(log, id).value;
      var l :| 0 <= l < |log| && log[l] == p;
      assert Admissible(log[..l], log[l]);
      if !id.Token? {
        BlocksExactly(p);
      }
    }
  }

  /** Work that was under way: such a status is reached only after the start. */
  predicate UnderWay(status: Status) {
    status.WaitingApproval? || status.CancelRequested? || status.Succeeded? || status.Interrupted? || status.UnknownOutcome?
  }

  lemma {:induction false} StartedBefore(h: seq<Entry>, id: Ident, k: nat)
    requires History(h, id) && k < |h| && UnderWay(h[k].status)
    ensures exists j :: 0 <= j < k && h[j].status == Started
  {
    assert k > 0 && Allowed(h[k - 1].status, h[k].status);
    if h[k - 1].status != Started {
      StartedBefore(h, id, k - 1);
    }
  }

  /** In every run a Run or Turn that waited, succeeded, was interrupted or has an unknown outcome
      was started before, and a token that ended was pending right before. */
  lemma {:induction false} NothingBeforeItsStart(acts: seq<Act>, id: Ident, k: nat)
    requires !id.Step? && k < |Of(RunAll(acts).log, id)|
    ensures var h := Of(RunAll(acts).log, id);
      && (UnderWay(h[k].status) ==> exists j :: 0 <= j < k && h[j].status == Started)
      && (id.Token? ==> if k == 0 then h[k].status == Pending else k == 1 && h[0].status == Pending && (h[1].status == Resolved || h[1].status == Withdrawn))
  {
    EveryHistory(acts, id);
    var h := Of(RunAll(acts).log, id);
    hide RunAll, Of;
    if UnderWay(h[k].status) {
      StartedBefore(h, id, k);
    }
    if id.Token? && k > 0 {
      assert Allowed(h[0].status, h[1].status);
    }
  }
}
