/** Durable approvals: a pause token is requested, then resolved, cancelled or recovered by
    racing writers, and the decision is handed to the waiter of the paused Run. Reading the
    token, appending its end and waking the waiter are separate steps. */
module PauseToken {

  import opened Journal
  import opened Wrappers

  /** A waiter's channel holds at most one decision. */
  type Waiters = map<string, Option<Decision>>

  /** What a participant does next. */
  datatype Plan =
    | Resolving(next: Entry, decision: Decision)
    | Rereading(token: string, decision: Decision)
    | Waking(resolved: Entry)
    | Ending(batch: seq<Entry>)

  datatype Verdict = Accepted(token: string, decision: Decision) | Rejected(token: string, decision: Decision)

  datatype World = World(
    log: seq<Entry>, waiters: Waiters, plans: map<nat, Plan>, verdicts: seq<Verdict>, received: seq<(string, Decision)>)

  function PendingToken(token: string, now: int): Entry {
    Entry(Token(token), 1, Pending, "", "", None, None, now, Runtime)
  }

  function ResolvedToken(p: Entry, decision: Decision, now: int): Entry {
    p.(revision := p.revision + 1, status := Resolved, reason := decision.reason, decision := Some(decision), updatedAt := now, writer := Runtime)
  }

  function CancelledToken(p: Entry, reason: string, now: int): Entry {
    p.(revision := p.revision + 1, status := Withdrawn, reason := reason, updatedAt := now, writer := Runtime)
  }

  // ----- one participant at a time

  /** The newest record of the token. */
  method ReadToken(log: seq<Entry>, token: string) returns (latest: Option<Entry>)
    ensures latest == Latest(log, Token(token))
  {
    latest := None;
    for i := 0 to |log|
      invariant latest == Latest(log[..i], Token(token))
    {
      LatestSnoc(log[..i], log[i], Token(token));
      assert log[..i + 1] == log[..i] + [log[i]];
      if log[i].id == Token(token) && (latest.None? || log[i].revision > latest.value.revision) {
        latest := Some(log[i]);
      }
    }
    assert log[..|log|] == log;
  }

  /** Hands a resolved token's decision to its waiter, if there is one with room. */
  function Wake(waiters: Waiters, e: Entry): Waiters {
    if e.id.Token? && e.status == Resolved && e.id.token in waiters && waiters[e.id.token].None? then
      waiters[e.id.token := e.decision]
    else waiters
  }

  class Approvals {
    var waiters: Waiters

    constructor ()
      ensures waiters == map[]
    {
      waiters := map[];
    }

    method Register(token: string)
      modifies this
      ensures waiters == old(waiters)[token := None]
    {
      waiters := waiters[token := None];
    }

    method Unregister(token: string)
      modifies this
      ensures waiters == old(waiters) - {token}
    {
      waiters := waiters - {token};
    }

    method DeliverApprovalDecision(e: Entry)
      requires e.id.Token?
      modifies this
      ensures waiters == Wake(old(waiters), e)
    {
      if e.status != Resolved {
        return;
      }
      var token := e.id.token;
      if token in waiters && waiters[token].None? {
        waiters := waiters[token := e.decision];
      }
    }
  }

  // ----- interleavings

  datatype Outcome = Answered | LostBefore | LostAfter | ReportedCommitted

  datatype Act =
    | Register(token: string)
    | AppendPending(token: string, now: int)
    | ReadResolve(who: nat, token: string, decision: Decision, now: int)
    | AppendResolve(who: nat, outcome: Outcome)
    | Reread(who: nat)
    | Deliver(who: nat)
    | ReadCancel(who: nat, token: string, reason: string, now: int)
    | CancelUnread(who: nat, pending: Entry, reason: string, now: int)
    | ReadRecover(who: nat, updates: seq<Entry>)
    | AppendEnd(who: nat, outcome: Outcome)
    | Receive(token: string)
    | Leave(token: string)
    | Other(batch: seq<Entry>)

  function Appended(log: seq<Entry>, batch: seq<Entry>): seq<Entry> {
    match Append(log, batch)
    case None => log
    case Some(longer) => longer
  }

  function Plans(w: World, who: nat, plan: Plan): World {
    w.(plans := w.plans[who := plan])
  }

  function Judge(w: World, who: nat, verdict: Verdict): World {
    w.(plans := w.plans - {who}, verdicts := w.verdicts + [verdict])
  }

  /** Accepts a decision that equals the stored one and wakes the waiter again. */
  function Compare(w: World, who: nat, stored: Entry, decision: Decision): World
    requires stored.id.Token?
  {
    if stored.status == Resolved && stored.decision == Some(decision) then
      Plans(w, who, Waking(stored)).(verdicts := w.verdicts + [Accepted(stored.id.token, decision)])
    else Judge(w, who, Rejected(stored.id.token, decision))
  }

  function DoReadResolve(w: World, who: nat, token: string, decision: Decision, now: int): World {
    match Latest(w.log, Token(token))
    case None => Judge(w, who, Rejected(token, decision))
    case Some(p) =>
      if p.status == Pending && ValidNext(Some(p), ResolvedToken(p, decision, now)) then
        Plans(w, who, Resolving(ResolvedToken(p, decision, now), decision))
      else if p.status == Resolved then Compare(w, who, p, decision)
      else Judge(w, who, Rejected(token, decision))
  }

  function DoAppendResolve(w: World, who: nat, next: Entry, decision: Decision, outcome: Outcome): World
    requires next.id.Token?
  {
    var token := next.id.token;
    match outcome
    case Answered =>
      if Append(w.log, [next]).Some? then
        Plans(w, who, Waking(next)).(log := Appended(w.log, [next]), verdicts := w.verdicts + [Accepted(token, decision)])
      else Judge(w, who, Rejected(token, decision))
    case LostBefore => Judge(w, who, Rejected(token, decision))
    case LostAfter => Judge(w, who, Rejected(token, decision)).(log := Appended(w.log, [next]))
    case ReportedCommitted => Plans(w, who, Rereading(token, decision)).(log := Appended(w.log, [next]))
  }

  function DoReread(w: World, who: nat, token: string, decision: Decision): World {
    match Latest(w.log, Token(token))
    case None => Judge(w, who, Rejected(token, decision))
    case Some(p) => Compare(w, who, p, decision)
  }

  function DoCancel(w: World, who: nat, p: Entry, reason: string, now: int): World {
    if p.status == Pending && ValidNext(Some(p), CancelledToken(p, reason, now)) then
      Plans(w, who, Ending([CancelledToken(p, reason, now)]))
    else w
  }

  function DoEnd(w: World, who: nat, batch: seq<Entry>, outcome: Outcome): World {
    w.(log := if outcome == LostBefore then w.log else Appended(w.log, batch), plans := w.plans - {who})
  }

  ghost function Do(w: World, act: Act): World {
    match act
    case Register(token) => w.(waiters := w.waiters[token := None])
    case AppendPending(token, now) =>
      var pending := PendingToken(token, now);
      if ValidNext(None, pending) && Append(w.log, [pending]).Some? then w.(log := Appended(w.log, [pending]))
      else w.(waiters := w.waiters - {token})
    case ReadResolve(who, token, decision, now) => DoReadResolve(w, who, token, decision, now)
    case AppendResolve(who, outcome) =>
      if who in w.plans && w.plans[who].Resolving? && w.plans[who].next.id.Token? then
        DoAppendResolve(w, who, w.plans[who].next, w.plans[who].decision, outcome)
      else w
    case Reread(who) =>
      if who in w.plans && w.plans[who].Rereading? then DoReread(w, who, w.plans[who].token, w.plans[who].decision) else w
    case Deliver(who) =>
      if who in w.plans && w.plans[who].Waking? then
        w.(waiters := Wake(w.waiters, w.plans[who].resolved), plans := w.plans - {who})
      else w
    case ReadCancel(who, token, reason, now) =>
      var latest := Latest(w.log, Token(token));
      if latest.Some? then DoCancel(w, who, latest.value, reason, now) else w
    case CancelUnread(who, pending, reason, now) =>
      if pending in w.log && pending.id.Token? then DoCancel(w, who, pending, reason, now) else w
    case ReadRecover(who, updates) => if IsRecovery(w.log, updates) then Plans(w, who, Ending(updates)) else w
    case AppendEnd(who, outcome) =>
      if who in w.plans && w.plans[who].Ending? then DoEnd(w, who, w.plans[who].batch, outcome) else w
    case Receive(token) =>
      if token in w.waiters && w.waiters[token].Some? then
        w.(waiters := w.waiters - {token}, received := w.received + [(token, w.waiters[token].value)])
      else w
    case Leave(token) => w.(waiters := w.waiters - {token})
    case Other(batch) =>
      if AllAdmissible(w.log, batch) && forall e :: e in batch ==> !e.id.Token? then w.(log := Appended(w.log, batch)) else w
  }

  ghost function RunAll(acts: seq<Act>): World {
    if acts == [] then World.World([], map[], map[], [], []) else Do(RunAll(acts[..|acts| - 1]), acts[|acts| - 1])
  }

  // ----- invariant

  /** The log holds the decision as the token's resolution. */
  ghost predicate Durable(log: seq<Entry>, token: string, decision: Decision) {
    exists e :: e in log && e.id == Token(token) && e.status == Resolved && e.decision == Some(decision)
  }

  ghost predicate PlanOk(log: seq<Entry>, plan: Plan) {
    match plan
    case Resolving(next, decision) =>
      Admissible(log, next) && next.id.Token? && next.status == Resolved && next.decision == Some(decision)
    case Rereading(_, _) => true
    case Waking(e) => e in log && e.id.Token? && e.status == Resolved && e.decision.Some?
    case Ending(batch) => AllAdmissible(log, batch)
  }

  ghost predicate PlansOk(log: seq<Entry>, plans: map<nat, Plan>) {
    forall who :: who in plans ==> PlanOk(log, plans[who])
  }

  ghost predicate WaitersOk(log: seq<Entry>, waiters: Waiters) {
    forall token :: token in waiters && waiters[token].Some? ==> Durable(log, token, waiters[token].value)
  }

  ghost predicate VerdictsOk(log: seq<Entry>, verdicts: seq<Verdict>) {
    forall i :: 0 <= i < |verdicts| && verdicts[i].Accepted? ==> Durable(log, verdicts[i].token, verdicts[i].decision)
  }

  ghost predicate ReceivedOk(log: seq<Entry>, received: seq<(string, Decision)>) {
    forall i :: 0 <= i < |received| ==> Durable(log, received[i].0, received[i].1)
  }

  ghost predicate Inv(w: World) {
    && WellFormed(w.log)
    && PlansOk(w.log, w.plans)
    && WaitersOk(w.log, w.waiters)
    && VerdictsOk(w.log, w.verdicts)
    && ReceivedOk(w.log, w.received)
  }

  lemma PlanGrows(log: seq<Entry>, longer: seq<Entry>, plan: Plan)
    requires log <= longer && PlanOk(log, plan)
    ensures PlanOk(longer, plan)
  {
  }

  /** A longer log keeps everything that was durable. */
  lemma LogGrows(w: World, longer: seq<Entry>)
    requires Inv(w) && WellFormed(longer) && w.log <= longer
    ensures Inv(w.(log := longer))
  {
    hide WellFormed, PlanOk;
    forall who | who in w.plans
      ensures PlanOk(longer, w.plans[who])
    {
      PlanGrows(w.log, longer, w.plans[who]);
    }
    assert forall token, decision :: Durable(w.log, token, decision) ==> Durable(longer, token, decision);
    hide Durable;
  }

  lemma AppendInv(w: World, batch: seq<Entry>)
    requires Inv(w) && AllAdmissible(w.log, batch)
    ensures Inv(w.(log := Appended(w.log, batch)))
    ensures w.log <= Appended(w.log, batch)
  {
    if Append(w.log, batch).Some? {
      AppendKeeps(w.log, w.log, batch);
      hide WellFormed, AllAdmissible;
      LogGrows(w, Appended(w.log, batch));
    }
  }

  lemma Single(log: seq<Entry>, e: Entry)
    requires Admissible(log, e)
    ensures AllAdmissible(log, [e])
    ensures Append(log, [e]).Some? ==> e in Appended(log, [e])
  {
    assert log + [e][..0] == log;
    var longer := log + [e];
    assert [e][1..] == [] && longer[|log|] == e;
    assert Append(longer, []) == Some(longer) && Append(log, []) == Some(log);
  }

  lemma PlanInv(w: World, who: nat, plan: Plan)
    requires Inv(w) && PlanOk(w.log, plan)
    ensures Inv(Plans(w, who, plan))
  {
  }

  lemma DropInv(w: World, who: nat)
    requires Inv(w)
    ensures Inv(w.(plans := w.plans - {who}))
  {
  }

  lemma VerdictInv(w: World, verdict: Verdict)
    requires Inv(w) && (verdict.Accepted? ==> Durable(w.log, verdict.token, verdict.decision))
    ensures Inv(w.(verdicts := w.verdicts + [verdict]))
  {
  }

  lemma JudgeInv(w: World, who: nat, verdict: Verdict)
    requires Inv(w) && verdict.Rejected?
    ensures Inv(Judge(w, who, verdict))
  {
  }

  lemma CompareInv(w: World, who: nat, stored: Entry, decision: Decision)
    requires Inv(w) && stored in w.log && stored.id.Token?
    ensures Inv(Compare(w, who, stored, decision))
  {
    hide Inv;
    if stored.status == Resolved && stored.decision == Some(decision) {
      PlanInv(w, who, Waking(stored));
      VerdictInv(Plans(w, who, Waking(stored)), Accepted(stored.id.token, decision));
    } else {
      JudgeInv(w, who, Rejected(stored.id.token, decision));
    }
  }

  lemma ReadResolveInv(w: World, who: nat, token: string, decision: Decision, now: int)
    requires Inv(w)
    ensures Inv(DoReadResolve(w, who, token, decision, now))
  {
    var latest := Latest(w.log, Token(token));
    if latest.Some? {
      var p := latest.value;
      var next := ResolvedToken(p, decision, now);
      hide Inv, Latest;
      if ValidNext(Some(p), next) {
        assert Admissible(w.log, next);
        PlanInv(w, who, Resolving(next, decision));
      }
      CompareInv(w, who, p, decision);
      JudgeInv(w, who, Rejected(token, decision));
    } else {
      JudgeInv(w, who, Rejected(token, decision));
    }
  }

  lemma AppendResolveInv(w: World, who: nat, outcome: Outcome)
    requires Inv(w) && who in w.plans && w.plans[who].Resolving? && w.plans[who].next.id.Token?
    ensures Inv(DoAppendResolve(w, who, w.plans[who].next, w.plans[who].decision, outcome))
  {
    var next, decision := w.plans[who].next, w.plans[who].decision;
    var token, grown := next.id.token, w.(log := Appended(w.log, [next]));
    assert PlanOk(w.log, w.plans[who]);
    Single(w.log, next);
    AppendInv(w, [next]);
    hide Inv, Append, Appended;
    JudgeInv(w, who, Rejected(token, decision));
    JudgeInv(grown, who, Rejected(token, decision));
    PlanInv(grown, who, Rereading(token, decision));
    if Append(w.log, [next]).Some? {
      PlanInv(grown, who, Waking(next));
      VerdictInv(Plans(grown, who, Waking(next)), Accepted(token, decision));
    }
  }

  lemma RereadInv(w: World, who: nat, token: string, decision: Decision)
    requires Inv(w)
    ensures Inv(DoReread(w, who, token, decision))
  {
    hide Inv;
    if Latest(w.log, Token(token)).Some? {
      CompareInv(w, who, Latest(w.log, Token(token)).value, decision);
    } else {
      JudgeInv(w, who, Rejected(token, decision));
    }
  }

  lemma WakeInv(w: World, who: nat)
    requires Inv(w) && who in w.plans && w.plans[who].Waking?
    ensures Inv(w.(waiters := Wake(w.waiters, w.plans[who].resolved), plans := w.plans - {who}))
  {
  }

  lemma CancelInv(w: World, who: nat, p: Entry, reason: string, now: int)
    requires Inv(w) && p in w.log && p.id.Token?
    ensures Inv(DoCancel(w, who, p, reason, now))
  {
  }

  lemma EndInv(w: World, who: nat, outcome: Outcome)
    requires Inv(w) && who in w.plans && w.plans[who].Ending?
    ensures Inv(DoEnd(w, who, w.plans[who].batch, outcome))
  {
    assert PlanOk(w.log, w.plans[who]);
    AppendInv(w, w.plans[who].batch);
    hide Inv, Appended;
    DropInv(w, who);
    DropInv(w.(log := Appended(w.log, w.plans[who].batch)), who);
  }

  lemma PendingInv(w: World, token: string, now: int)
    requires Inv(w)
    ensures Inv(Do(w, AppendPending(token, now)))
  {
    var pending := PendingToken(token, now);
    if ValidNext(None, pending) {
      Single(w.log, pending);
      AppendInv(w, [pending]);
    }
    LeaveInv(w, token);
    hide Inv, Append, Appended, ValidNext;
  }

  lemma LeaveInv(w: World, token: string)
    requires Inv(w)
    ensures Inv(w.(waiters := w.waiters - {token}))
  {
  }

  lemma RegisterInv(w: World, token: string)
    requires Inv(w)
    ensures Inv(w.(waiters := w.waiters[token := None]))
  {
  }

  lemma ReceiveInv(w: World, token: string)
    requires Inv(w)
    ensures Inv(Do(w, Receive(token)))
  {
    LeaveInv(w, token);
    hide WellFormed, PlansOk, VerdictsOk, Durable;
  }

  lemma RecoverInv(w: World, who: nat, updates: seq<Entry>)
    requires Inv(w)
    ensures Inv(Do(w, ReadRecover(who, updates)))
  {
    if IsRecovery(w.log, updates) {
      RecoveryAdmissible(w.log, updates);
      hide Inv, AllAdmissible;
      PlanInv(w, who, Ending(updates));
    }
  }

  lemma ActKeeps(w: World, act: Act)
    requires Inv(w)
    ensures Inv(Do(w, act))
  {
    hide Inv, DoEnd, DoReadResolve, DoAppendResolve, DoReread, DoCancel, Wake, Appended, Append, AllAdmissible, IsRecovery;
    match act
    case Register(token) => RegisterInv(w, token);
    case AppendPending(token, now) => PendingInv(w, token, now);
    case ReadResolve(who, token, decision, now) => ReadResolveInv(w, who, token, decision, now);
    case AppendResolve(who, outcome) =>
      if who in w.plans && w.plans[who].Resolving? && w.plans[who].next.id.Token? { AppendResolveInv(w, who, outcome); }
    case Reread(who) =>
      if who in w.plans && w.plans[who].Rereading? { RereadInv(w, who, w.plans[who].token, w.plans[who].decision); }
    case Deliver(who) =>
      if who in w.plans && w.plans[who].Waking? { WakeInv(w, who); }
    case ReadCancel(who, token, reason, now) =>
      if Latest(w.log, Token(token)).Some? { CancelInv(w, who, Latest(w.log, Token(token)).value, reason, now); }
    case CancelUnread(who, pending, reason, now) =>
      if pending in w.log && pending.id.Token? { CancelInv(w, who, pending, reason, now); }
    case ReadRecover(who, updates) => RecoverInv(w, who, updates);
    case AppendEnd(who, outcome) =>
      if who in w.plans && w.plans[who].Ending? { EndInv(w, who, outcome); }
    case Receive(token) => ReceiveInv(w, token);
    case Leave(token) => LeaveInv(w, token);
    case Other(batch) =>
      if AllAdmissible(w.log, batch) { AppendInv(w, batch); }
  }

  lemma {:induction false} RunKeeps(acts: seq<Act>)
    ensures Inv(RunAll(acts))
  {
    if acts == [] {
    } else {
      RunKeeps(acts[..|acts| - 1]);
      ActKeeps(RunAll(acts[..|acts| - 1]), acts[|acts| - 1]);
    }
  }

  // ----- whole runs

  predicate Ends(log: seq<Entry>, token: string, e: Entry) {
    e in log && e.id == Token(token) && Final(e.status)
  }

  /** A token has at most two records, and at most one of them ends it. */
  lemma {:induction false} OneEnd(acts: seq<Act>, token: string)
    ensures |Of(RunAll(acts).log, Token(token))| <= 2
    ensures forall e, f :: Ends(RunAll(acts).log, token, e) && Ends(RunAll(acts).log, token, f) ==> e == f
  {
    RunKeeps(acts);
    var log := RunAll(acts).log;
    WellFormedHistory(log, Token(token));
    hide RunAll, WellFormed;
    AtMostTwo(Of(log, Token(token)), Token(token));
    OneFinal(Of(log, Token(token)), Token(token));
    hide Of, Final;
  }

  lemma {:induction false} AtMostTwo(h: seq<Entry>, id: Ident)
    requires History(h, id) && id.Token?
    ensures |h| <= 2
  {
    assert |h| > 1 ==> Final(h[1].status);
  }

  lemma {:induction false} OneFinal(h: seq<Entry>, id: Ident)
    requires History(h, id)
    ensures forall e, f :: e in h && f in h && Final(e.status) && Final(f.status) ==> e == f
  {
    forall e, f | e in h && f in h && Final(e.status) && Final(f.status)
      ensures e == f
    {
      var i :| 0 <= i < |h| && h[i] == e;
      var j :| 0 <= j < |h| && h[j] == f;
    }
  }

  lemma {:induction false} DurableAgrees(acts: seq<Act>, token: string, one: Decision, other: Decision)
    requires Durable(RunAll(acts).log, token, one) && Durable(RunAll(acts).log, token, other)
    ensures one == other
  {
    OneEnd(acts, token);
    var log := RunAll(acts).log;
    hide RunAll, Of;
    var e :| e in log && e.id == Token(token) && e.status == Resolved && e.decision == Some(one);
    var f :| f in log && f.id == Token(token) && f.status == Resolved && f.decision == Some(other);
    assert Ends(log, token, e) && Ends(log, token, f);
  }

  ghost predicate Agree(received: seq<(string, Decision)>, verdicts: seq<Verdict>) {
    forall i, j :: 0 <= i < |received| && 0 <= j < |verdicts| && verdicts[j].Accepted? && received[i].0 == verdicts[j].token ==>
      received[i].1 == verdicts[j].decision
  }

  /** Whatever a waiter receives is the token's one durable decision, and so is whatever a
      resolver was told is accepted. */
  lemma {:induction false} ReceivedIsDurable(acts: seq<Act>)
    ensures ReceivedOk(RunAll(acts).log, RunAll(acts).received)
    ensures VerdictsOk(RunAll(acts).log, RunAll(acts).verdicts)
    ensures Agree(RunAll(acts).received, RunAll(acts).verdicts)
  {
    RunKeeps(acts);
    var w := RunAll(acts);
    hide Durable, WellFormed, PlansOk, WaitersOk;
    forall i, j | 0 <= i < |w.received| && 0 <= j < |w.verdicts| && w.verdicts[j].Accepted? && w.received[i].0 == w.verdicts[j].token
      ensures w.received[i].1 == w.verdicts[j].decision
    {
      DurableAgrees(acts, w.received[i].0, w.received[i].1, w.verdicts[j].decision);
    }
  }

  /** A decision that reads an ended token is accepted exactly when it equals the durable one. */
  lemma {:induction false} AcceptedIffStored(acts: seq<Act>, who: nat, token: string, decision: Decision, now: int)
    requires var latest := Latest(RunAll(acts).log, Token(token)); latest.Some? && Final(latest.value.status)
    ensures var w := RunAll(acts);
      Accepted(token, decision) == Do(w, ReadResolve(who, token, decision, now)).verdicts[|w.verdicts|] <==> Durable(w.log, token, decision)
  {
    var w := RunAll(acts);
    var stored := Latest(w.log, Token(token)).value;
    OneEnd(acts, token);
    hide RunAll, Of, Latest, Final;
    if Durable(w.log, token, decision) {
      var e :| e in w.log && e.id == Token(token) && e.status == Resolved && e.decision == Some(decision);
      assert Ends(w.log, token, e) && Ends(w.log, token, stored);
    }
  }

  // ----- a decision reaches its waiter

  /** The token is waited for: its newest record is pending and its channel is empty. */
  ghost predicate Awaited(w: World, token: string, p: Entry) {
    Latest(w.log, Token(token)) == Some(p) && p.status == Pending && token in w.waiters && w.waiters[token].None?
  }

  /** Nothing in the log is newer than the newest record, so the next revision is free. */
  lemma NextIsFree(log: seq<Entry>, p: Entry, next: Entry)
    requires Latest(log, p.id) == Some(p) && next.id == p.id && next.revision == p.revision + 1
    ensures Append(log, [next]) == Some(log + [next])
  {
    assert Find(log, next).None?;
    assert [next][1..] == [];
    hide Latest;
  }

  lemma ResolveOpens(w: World, who: nat, token: string, p: Entry, decision: Decision, now: int)
    requires WellFormed(w.log) && Awaited(w, token, p)
    ensures var next := ResolvedToken(p, decision, now);
      && Do(w, ReadResolve(who, token, decision, now)) == Plans(w, who, Resolving(next, decision))
      && Append(w.log, [next]) == Some(w.log + [next])
      && next.id == Token(token)
  {
    LatestValid(w.log, Token(token));
    hide WellFormed, Append;
    NextIsFree(w.log, p, ResolvedToken(p, decision, now));
  }

  lemma AppendsResolution(w: World, who: nat, next: Entry, decision: Decision)
    requires next.id.Token? && Append(w.log, [next]) == Some(w.log + [next])
    ensures Do(Plans(w, who, Resolving(next, decision)), AppendResolve(who, Answered)) ==
            Plans(w, who, Waking(next)).(log := w.log + [next], verdicts := w.verdicts + [Accepted(next.id.token, decision)])
  {
    hide Append;
    assert w.plans[who := Resolving(next, decision)][who := Waking(next)] == w.plans[who := Waking(next)];
  }

  lemma WakesAndReceives(w: World, who: nat, next: Entry, decision: Decision)
    requires who in w.plans && w.plans[who] == Waking(next) && next.id.Token? && next.status == Resolved && next.decision == Some(decision)
    requires next.id.token in w.waiters && w.waiters[next.id.token].None?
    ensures var end := Do(Do(w, Deliver(who)), Receive(next.id.token));
      && end.received == w.received + [(next.id.token, decision)]
      && end.verdicts == w.verdicts && next.id.token !in end.waiters
  {
  }

  /** Resolving an awaited token without interference: the decision becomes durable, is accepted,
      and is what the waiter receives. */
  lemma {:induction false} DecisionIsReceived(acts: seq<Act>, who: nat, token: string, p: Entry, decision: Decision, now: int)
    requires Awaited(RunAll(acts), token, p)
    ensures var w := RunAll(acts);
      var resolved := Do(Do(w, ReadResolve(who, token, decision, now)), AppendResolve(who, Answered));
      var end := Do(Do(resolved, Deliver(who)), Receive(token));
      && |resolved.log| == |w.log| + 1 && w.log <= resolved.log
      && Durable(resolved.log, token, decision)
      && end.verdicts == w.verdicts + [Accepted(token, decision)]
      && end.received == w.received + [(token, decision)]
      && token !in end.waiters
  {
    RunKeeps(acts);
    var w, next := RunAll(acts), ResolvedToken(p, decision, now);
    hide RunAll, WellFormed, Do, Append, Latest;
    ResolveOpens(w, who, token, p, decision, now);
    AppendsResolution(w, who, next, decision);
    var resolved := Do(Do(w, ReadResolve(who, token, decision, now)), AppendResolve(who, Answered));
    assert next in resolved.log;
    WakesAndReceives(resolved, who, next, decision);
  }

  /** Waking fills an empty channel with the token's decision and touches no other. */
  lemma WakeExactly(waiters: Waiters, e: Entry, token: string)
    requires e.id.Token? && e.status == Resolved && token in waiters
    ensures Wake(waiters, e).Keys == waiters.Keys
    ensures Wake(waiters, e)[token] == if token == e.id.token && waiters[token].None? then e.decision else waiters[token]
  {
  }

  /** Cancelling an awaited token without interference ends it as withdrawn, with the reason and
      without a decision. */
  lemma {:induction false} CancelEnds(acts: seq<Act>, who: nat, token: string, p: Entry, reason: string, now: int)
    requires Awaited(RunAll(acts), token, p)
    ensures var w := RunAll(acts);
      var end := Do(Do(w, ReadCancel(who, token, reason, now)), AppendEnd(who, Answered));
      exists e :: end.log == w.log + [e] && e.id == Token(token) && e.revision == p.revision + 1 &&
        e.status == Withdrawn && e.reason == reason && e.decision == p.decision
  {
    RunKeeps(acts);
    var w, next := RunAll(acts), CancelledToken(p, reason, now);
    hide RunAll;
    LatestValid(w.log, Token(token));
    hide WellFormed, Append;
    NextIsFree(w.log, p, next);
    hide Latest, Inv;
    assert Do(w, ReadCancel(who, token, reason, now)) == Plans(w, who, Ending([next]));
  }
}
