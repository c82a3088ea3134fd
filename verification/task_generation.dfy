/** Child Task generations: an activity observed on a host opens the next generation of its
    Task in the host's cached copy and writes it to the Store by compare-and-swap, while other
    hosts and lifecycle writers move the Task. */
module TaskGeneration {

  import opened Wrappers

  /** A Task as stored or cached: its revision, current generation and the activity bound to
      it, and the generation a cancellation journal selected, if any. */
  datatype Task = Task(revision: nat, turnSeq: nat, activityId: string, running: bool, cancelTurn: Option<nat>)

  datatype Activity = Activity(turnSeq: nat, id: string)

  // ----- opening a generation

  /** A running Task is only advanced by the activity its cancellation journal selected. */
  predicate MayOpen(t: Task, a: Activity) {
    t.turnSeq + 1 == a.turnSeq && (t.running ==> t.cancelTurn == Some(a.turnSeq))
  }

  function Opened(t: Task, a: Activity): Task {
    if MayOpen(t, a) then
      Task(t.revision, a.turnSeq, a.id, true, if t.cancelTurn == Some(a.turnSeq) then t.cancelTurn else None)
    else t
  }

  /** Whether the activity owns the Task's generation afterwards. */
  predicate Owns(t: Task, a: Activity) {
    if t.turnSeq == a.turnSeq then t.activityId == a.id else MayOpen(t, a)
  }

  class SubagentTask {
    var revision: nat
    var turnSeq: nat
    var activityId: string
    var running: bool
    var cancelTurn: Option<nat>

    function View(): Task
      reads this
    {
      Task(revision, turnSeq, activityId, running, cancelTurn)
    }

    constructor (t: Task)
      ensures View() == t
    {
      revision, turnSeq, activityId, running, cancelTurn := t.revision, t.turnSeq, t.activityId, t.running, t.cancelTurn;
    }

    method OpenLocked(a: Activity) returns (ok: bool)
      modifies this
      ensures ok == Owns(old(View()), a) && View() == Opened(old(View()), a)
      ensures ok <==> turnSeq == a.turnSeq && activityId == a.id
    {
      if turnSeq == a.turnSeq {
        return activityId == a.id;
      }
      if turnSeq + 1 != a.turnSeq {
        return false;
      }
      if running && (cancelTurn.None? || cancelTurn.value != a.turnSeq) {
        return false;
      }
      turnSeq, activityId, running := a.turnSeq, a.id, true;
      if cancelTurn.None? || cancelTurn.value != a.turnSeq {
        cancelTurn := None;
      }
      return true;
    }
  }

  // ----- hosts

  const TRIES: nat := 4

  /** An attempt under way: what it will write next, or `None` after a conflict, and how many
      more writes it has. */
  datatype Attempt = Attempt(activity: Activity, entry: Option<Task>, tries: nat)

  datatype Host = Host(cache: Option<Task>, busy: Option<Attempt>)

  /** `history[r - 1]` is the Task as stored at revision `r`; the first revision is 1. */
  datatype World = World(history: seq<Task>, hosts: map<string, Host>)

  datatype Outcome = Acknowledged | AnswerLost | NotWritten

  datatype Act =
    | Begin(host: string, activity: Activity)
    | Put(host: string, outcome: Outcome)
    | Reload(host: string, readable: bool)
    | Adopt(host: string)
    | WriteUsage(host: string)
    | Restart(host: string)
    | Lifecycle(stops: bool, cancelTurn: Option<nat>)

  function Stored(w: World): Task
    requires w.history != []
  {
    w.history[|w.history| - 1]
  }

  function HostOf(w: World, h: string): Host {
    if h in w.hosts then w.hosts[h] else Host(None, None)
  }

  function SetHost(w: World, h: string, host: Host): World {
    w.(hosts := w.hosts[h := host])
  }

  function Written(w: World, t: Task): World
    requires w.history != []
  {
    w.(history := w.history + [t.(revision := Stored(w).revision + 1)])
  }

  /** Looks the Task up, opens it in memory and prepares the write. */
  function DoBegin(w: World, h: string, a: Activity): World
    requires w.history != []
  {
    var host := HostOf(w, h);
    var task := if host.cache.Some? then host.cache.value else Stored(w);
    var next := Opened(task, a);
    if host.busy.Some? then w
    else SetHost(w, h, Host(Some(next), if Owns(task, a) && next.running then Some(Attempt(a, Some(next), TRIES - 1)) else None))
  }

  /** One compare-and-swap. A conflict, or an answer that is lost, leaves the cache as it is. */
  function DoPut(w: World, h: string, attempt: Attempt, entry: Task, outcome: Outcome): World
    requires w.history != []
  {
    var host := HostOf(w, h);
    if entry.revision != Stored(w).revision then
      SetHost(w, h, host.(busy := Some(attempt.(entry := None))))
    else
      match outcome
      case Acknowledged =>
        var done := Written(w, entry);
        SetHost(done, h, Host(if host.cache.Some? then Some(host.cache.value.(revision := Stored(done).revision)) else None, None))
      case AnswerLost => SetHost(Written(w, entry), h, host.(busy := None))
      case NotWritten => SetHost(w, h, host.(busy := None))
  }

  /** After a conflict: what is stored wins unless it is still the predecessor. */
  function DoReload(w: World, h: string, attempt: Attempt): World
    requires w.history != []
  {
    var current, a := Stored(w), attempt.activity;
    var next := Opened(current, a);
    if current.turnSeq + 1 != a.turnSeq || !Owns(current, a) then SetHost(w, h, Host(Some(current), None))
    else SetHost(w, h, Host(Some(next), if attempt.tries > 0 then Some(Attempt(a, Some(next), attempt.tries - 1)) else None))
  }

  /** A cached copy of an older revision is replaced by the stored Task. */
  function Refreshed(w: World, host: Host): Task
    requires w.history != []
  {
    if host.cache.Some? && host.cache.value.revision >= Stored(w).revision then host.cache.value else Stored(w)
  }

  function Do(w: World, act: Act): World
    requires w.history != []
  {
    match act
    case Begin(h, a) => DoBegin(w, h, a)
    case Put(h, outcome) =>
      var busy := HostOf(w, h).busy;
      if busy.Some? && busy.value.entry.Some? then DoPut(w, h, busy.value, busy.value.entry.value, outcome) else w
    case Reload(h, readable) =>
      var busy := HostOf(w, h).busy;
      if busy.None? || busy.value.entry.Some? then w
      else if readable then DoReload(w, h, busy.value)
      else SetHost(w, h, HostOf(w, h).(busy := None))
    case Adopt(h) =>
      if HostOf(w, h).busy.None? then SetHost(w, h, Host(Some(Refreshed(w, HostOf(w, h))), None)) else w
    case WriteUsage(h) =>
      if HostOf(w, h).busy.None? then
        var task, done := Refreshed(w, HostOf(w, h)), Written(w, Stored(w));
        SetHost(done, h, Host(Some(task.(revision := Stored(done).revision)), None))
      else w
    case Restart(h) => SetHost(w, h, Host(None, None))
    case Lifecycle(stops, cancelTurn) =>
      Written(w, Stored(w).(running := Stored(w).running && !stops, cancelTurn := cancelTurn))
  }

  function Init(first: Task): World {
    World([first.(revision := 1)], map[])
  }

  function Run(first: Task, acts: seq<Act>): (w: World)
    ensures w.history != []
  {
    if acts == [] then Init(first) else Do(Run(first, acts[..|acts| - 1]), acts[|acts| - 1])
  }

  // ----- invariant

  /** What a write may do to the stored Task: keep its generation and activity, possibly ending
      it, or open the next generation over one that ended or was to be cancelled for it. */
  ghost predicate Follows(d: Task, e: Task) {
    && e.revision == d.revision + 1
    && if e.turnSeq == d.turnSeq then e.activityId == d.activityId && (e.running ==> d.running)
       else
         && e.turnSeq == d.turnSeq + 1 && e.running && (d.running ==> d.cancelTurn == Some(e.turnSeq))
         && e.cancelTurn == (if d.cancelTurn == Some(e.turnSeq) then Some(e.turnSeq) else None)
  }

  ghost predicate HistoryOk(history: seq<Task>) {
    && history != []
    && (forall i :: 0 <= i < |history| ==> history[i].revision == i + 1)
    && (forall i :: 0 < i < |history| ==> Follows(history[i - 1], history[i]))
  }

  /** One opened activity ahead of the stored Task. */
  ghost predicate Ahead(d: Task, c: Task) {
    && c.revision == d.revision
    && c.turnSeq == d.turnSeq + 1
    && c.running
    && (d.running ==> d.cancelTurn == Some(c.turnSeq))
    && c.cancelTurn == (if d.cancelTurn == Some(c.turnSeq) then Some(c.turnSeq) else None)
  }

  /** A cached copy is the Task stored at its revision, or one opened activity ahead of it. */
  ghost predicate CopyOk(history: seq<Task>, c: Task) {
    0 < c.revision <= |history| && (c == history[c.revision - 1] || Ahead(history[c.revision - 1], c))
  }

  ghost predicate HostOk(history: seq<Task>, host: Host) {
    && (host.cache.Some? ==> CopyOk(history, host.cache.value))
    && (host.busy.Some? && host.busy.value.entry.Some? ==> host.cache == host.busy.value.entry)
  }

  ghost predicate Inv(w: World) {
    HistoryOk(w.history) && forall h :: h in w.hosts ==> HostOk(w.history, w.hosts[h])
  }

  lemma SetHostKeeps(w: World, h: string, host: Host)
    requires Inv(w) && HostOk(w.history, host)
    ensures Inv(SetHost(w, h, host))
  {
  }

  lemma HostHolds(w: World, h: string)
    requires Inv(w)
    ensures HostOk(w.history, HostOf(w, h))
  {
  }

  lemma HostGrows(history: seq<Task>, e: Task, host: Host)
    requires HostOk(history, host)
    ensures HostOk(history + [e], host)
  {
  }

  lemma WriteKeeps(w: World, t: Task)
    requires Inv(w) && Follows(Stored(w), t.(revision := Stored(w).revision + 1))
    ensures Inv(Written(w, t)) && Stored(Written(w, t)) == t.(revision := Stored(w).revision + 1)
    ensures Stored(Written(w, t)).revision == |w.history| + 1
  {
  }

  lemma LastRevision(w: World)
    requires HistoryOk(w.history)
    ensures Stored(w).revision == |w.history|
  {
  }

  lemma BeginKeeps(w: World, h: string, a: Activity)
    requires Inv(w)
    ensures Inv(DoBegin(w, h, a))
  {
  }

  lemma EntryFollows(w: World, entry: Task)
    requires Inv(w) && CopyOk(w.history, entry) && entry.revision == Stored(w).revision
    ensures Follows(Stored(w), entry.(revision := Stored(w).revision + 1))
  {
  }

  lemma PutKeeps(w: World, h: string, outcome: Outcome)
    requires Inv(w) && HostOf(w, h).busy.Some? && HostOf(w, h).busy.value.entry.Some?
    ensures Inv(DoPut(w, h, HostOf(w, h).busy.value, HostOf(w, h).busy.value.entry.value, outcome))
  {
    HostHolds(w, h);
    var host := HostOf(w, h);
    var attempt := host.busy.value;
    var entry := attempt.entry.value;
    if entry.revision != Stored(w).revision {
      SetHostKeeps(w, h, host.(busy := Some(attempt.(entry := None))));
    } else {
      EntryFollows(w, entry);
      WriteKeeps(w, entry);
      var done := Written(w, entry);
      HostGrows(w.history, Stored(done), host);
      hide Inv, Follows, Ahead;
      SetHostKeeps(w, h, host.(busy := None));
      SetHostKeeps(done, h, host.(busy := None));
      assert CopyOk(done.history, Stored(done));
      SetHostKeeps(done, h, Host(Some(entry.(revision := Stored(done).revision)), None));
    }
  }

  lemma ReloadKeeps(w: World, h: string, attempt: Attempt)
    requires Inv(w)
    ensures Inv(DoReload(w, h, attempt))
  {
  }

  lemma RefreshedOk(w: World, host: Host)
    requires Inv(w) && HostOk(w.history, host)
    ensures CopyOk(w.history, Refreshed(w, host)) && Refreshed(w, host).revision == Stored(w).revision
  {
  }

  lemma UsageKeeps(w: World, h: string)
    requires Inv(w) && HostOf(w, h).busy.None?
    ensures Inv(Do(w, WriteUsage(h)))
  {
    HostHolds(w, h);
    RefreshedOk(w, HostOf(w, h));
    var task := Refreshed(w, HostOf(w, h));
    WriteKeeps(w, Stored(w));
    var done := Written(w, Stored(w));
    assert w.history[task.revision - 1] == Stored(w) by {
      LastRevision(w);
    }
    var copy := task.(revision := Stored(done).revision);
    assert CopyOk(done.history, copy);
    hide Inv, CopyOk, Refreshed;
    SetHostKeeps(done, h, Host(Some(copy), None));
  }

  lemma ActKeeps(w: World, act: Act)
    requires Inv(w)
    ensures Inv(Do(w, act))
  {
    match act
    case Begin(h, a) => BeginKeeps(w, h, a);
    case Put(h, outcome) =>
      var busy := HostOf(w, h).busy;
      if busy.Some? && busy.value.entry.Some? { PutKeeps(w, h, outcome); }
    case Reload(h, readable) =>
      var busy := HostOf(w, h).busy;
      HostHolds(w, h);
      SetHostKeeps(w, h, HostOf(w, h).(busy := None));
      if busy.Some? { ReloadKeeps(w, h, busy.value); }
    case Adopt(h) =>
      HostHolds(w, h);
      RefreshedOk(w, HostOf(w, h));
      SetHostKeeps(w, h, Host(Some(Refreshed(w, HostOf(w, h))), None));
    case WriteUsage(h) =>
      if HostOf(w, h).busy.None? { UsageKeeps(w, h); }
    case Restart(h) => SetHostKeeps(w, h, Host(None, None));
    case Lifecycle(stops, cancelTurn) =>
      WriteKeeps(w, Stored(w).(running := Stored(w).running && !stops, cancelTurn := cancelTurn));
  }

  lemma {:induction false} RunKeeps(first: Task, acts: seq<Act>)
    ensures Inv(Run(first, acts))
  {
    if acts == [] {
    } else {
      RunKeeps(first, acts[..|acts| - 1]);
      ActKeeps(Run(first, acts[..|acts| - 1]), acts[|acts| - 1]);
    }
  }

  // ----- whole runs

  /** Under racing activities, hosts and lifecycle writers every stored revision keeps its
      generation or opens exactly the next one. */
  lemma {:induction false} EveryWrite(first: Task, acts: seq<Act>, i: nat)
    requires i + 1 < |Run(first, acts).history|
    ensures Follows(Run(first, acts).history[i], Run(first, acts).history[i + 1])
  {
    RunKeeps(first, acts);
    hide Follows, Run;
    var history := Run(first, acts).history;
    assert Follows(history[i + 1 - 1], history[i + 1]);
  }

  lemma {:induction false} Bound(history: seq<Task>, i: nat, j: nat)
    requires HistoryOk(history) && i <= j < |history|
    ensures history[i].turnSeq <= history[j].turnSeq
    ensures history[i].turnSeq == history[j].turnSeq ==>
              history[i].activityId == history[j].activityId && (history[j].running ==> history[i].running)
    decreases j
  {
    if i == j {
    } else {
      Bound(history, i, j - 1);
      assert Follows(history[j - 1], history[j]);
    }
  }

  /** A generation never goes back, stays bound to one activity, and once durably ended is
      never running again. */
  lemma {:induction false} GenerationsBound(first: Task, acts: seq<Act>, i: nat, j: nat)
    requires i <= j < |Run(first, acts).history|
    ensures var history := Run(first, acts).history;
      && history[i].turnSeq <= history[j].turnSeq <= history[i].turnSeq + (j - i)
      && (history[i].turnSeq == history[j].turnSeq ==>
            history[i].activityId == history[j].activityId && (!history[i].running ==> !history[j].running))
  {
    RunKeeps(first, acts);
    Bound(Run(first, acts).history, i, j);
    Slow(Run(first, acts).history, i, j);
    hide Run;
  }

  lemma {:induction false} Slow(history: seq<Task>, i: nat, j: nat)
    requires HistoryOk(history) && i <= j < |history|
    ensures history[j].turnSeq <= history[i].turnSeq + (j - i)
    decreases j
  {
    if i == j {
    } else {
      Slow(history, i, j - 1);
      assert Follows(history[j - 1], history[j]);
    }
  }

  /** What a host has cached was stored, or is one open activity ahead of what was stored. */
  lemma {:induction false} CacheIsClose(first: Task, acts: seq<Act>, h: string)
    requires h in Run(first, acts).hosts && Run(first, acts).hosts[h].cache.Some?
    ensures CopyOk(Run(first, acts).history, Run(first, acts).hosts[h].cache.value)
  {
    RunKeeps(first, acts);
  }

  // ----- which activity a generation is bound to

  /** The activities observed in a run. */
  function Begun(acts: seq<Act>): set<Activity> {
    set act | act in acts && act.Begin? :: act.activity
  }

  /** The copy has the stored generation, or one of the activities opened the next. */
  ghost predicate CopyBound(begun: set<Activity>, history: seq<Task>, c: Task) {
    0 < c.revision <= |history| && (c.turnSeq == history[c.revision - 1].turnSeq || Activity(c.turnSeq, c.activityId) in begun)
  }

  ghost predicate HostBound(begun: set<Activity>, history: seq<Task>, host: Host) {
    && (host.cache.Some? ==> CopyBound(begun, history, host.cache.value))
    && (host.busy.Some? ==> host.busy.value.activity in begun)
  }

  ghost predicate HistoryBound(begun: set<Activity>, history: seq<Task>) {
    forall i :: 0 < i < |history| && history[i].turnSeq != history[i - 1].turnSeq ==>
      Activity(history[i].turnSeq, history[i].activityId) in begun
  }

  ghost predicate BoundTo(begun: set<Activity>, w: World) {
    HistoryBound(begun, w.history) && forall h :: h in w.hosts ==> HostBound(begun, w.history, w.hosts[h])
  }

  lemma SetHostBound(begun: set<Activity>, w: World, h: string, host: Host)
    requires BoundTo(begun, w) && HostBound(begun, w.history, host)
    ensures BoundTo(begun, SetHost(w, h, host))
  {
    hide HostBound;
  }

  lemma HostHeld(begun: set<Activity>, w: World, h: string)
    requires BoundTo(begun, w)
    ensures HostBound(begun, w.history, HostOf(w, h))
  {
  }

  lemma WrittenBound(begun: set<Activity>, w: World, t: Task)
    requires BoundTo(begun, w) && w.history != []
    requires t.turnSeq == Stored(w).turnSeq || Activity(t.turnSeq, t.activityId) in begun
    ensures BoundTo(begun, Written(w, t))
  {
    var done := Written(w, t);
    forall h | h in w.hosts
      ensures HostBound(begun, done.history, w.hosts[h])
    {
      assert HostBound(begun, w.history, w.hosts[h]);
    }
  }

  lemma StoredBound(begun: set<Activity>, w: World)
    requires HistoryOk(w.history)
    ensures CopyBound(begun, w.history, Stored(w))
  {
    LastRevision(w);
  }

  lemma OpenedBound(begun: set<Activity>, history: seq<Task>, t: Task, a: Activity)
    requires CopyBound(begun, history, t) && a in begun
    ensures CopyBound(begun, history, Opened(t, a))
  {
  }

  lemma PutBound(begun: set<Activity>, w: World, h: string, outcome: Outcome)
    requires Inv(w) && BoundTo(begun, w) && HostOf(w, h).busy.Some? && HostOf(w, h).busy.value.entry.Some?
    ensures BoundTo(begun, DoPut(w, h, HostOf(w, h).busy.value, HostOf(w, h).busy.value.entry.value, outcome))
  {
    HostHolds(w, h);
    HostHeld(begun, w, h);
    var host := HostOf(w, h);
    var attempt := host.busy.value;
    var entry := attempt.entry.value;
    if entry.revision != Stored(w).revision {
      SetHostBound(begun, w, h, host.(busy := Some(attempt.(entry := None))));
    } else {
      LastRevision(w);
      var done := Written(w, entry);
      WrittenBound(begun, w, entry);
      EntryFollows(w, entry);
      WriteKeeps(w, entry);
      HostHeld(begun, done, h);
      StoredBound(begun, done);
      hide Inv, Follows, BoundTo, CopyOk;
      SetHostBound(begun, w, h, host.(busy := None));
      SetHostBound(begun, done, h, host.(busy := None));
      SetHostBound(begun, done, h, Host(Some(Stored(done)), None));
    }
  }

  lemma UsageBound(begun: set<Activity>, w: World, h: string)
    requires Inv(w) && BoundTo(begun, w) && HostOf(w, h).busy.None?
    ensures BoundTo(begun, Do(w, WriteUsage(h)))
  {
    HostHolds(w, h);
    HostHeld(begun, w, h);
    RefreshedOk(w, HostOf(w, h));
    StoredBound(begun, w);
    LastRevision(w);
    WrittenBound(begun, w, Stored(w));
    WriteKeeps(w, Stored(w));
    var task, done := Refreshed(w, HostOf(w, h)), Written(w, Stored(w));
    var copy := task.(revision := Stored(done).revision);
    assert CopyBound(begun, w.history, task);
    assert CopyBound(begun, done.history, copy);
    hide Inv, CopyBound, Refreshed, BoundTo;
    SetHostBound(begun, done, h, Host(Some(copy), None));
  }

  lemma ActBound(begun: set<Activity>, w: World, act: Act)
    requires Inv(w) && BoundTo(begun, w) && (act.Begin? ==> act.activity in begun)
    ensures BoundTo(begun, Do(w, act))
  {
    StoredBound(begun, w);
    match act
    case Begin(h, a) =>
      HostHeld(begun, w, h);
      var host := HostOf(w, h);
      var task := if host.cache.Some? then host.cache.value else Stored(w);
      OpenedBound(begun, w.history, task, a);
      hide BoundTo, Inv, CopyBound, Opened;
      SetHostBound(begun, w, h, Host(Some(Opened(task, a)), None));
      SetHostBound(begun, w, h, Host(Some(Opened(task, a)), Some(Attempt(a, Some(Opened(task, a)), TRIES - 1))));
    case Put(h, outcome) =>
      var busy := HostOf(w, h).busy;
      if busy.Some? && busy.value.entry.Some? { PutBound(begun, w, h, outcome); }
    case Reload(h, readable) =>
      HostHeld(begun, w, h);
      ReloadBound(begun, w, h, readable);
    case Adopt(h) =>
      HostHeld(begun, w, h);
      hide BoundTo, Inv, CopyBound;
      SetHostBound(begun, w, h, Host(Some(Refreshed(w, HostOf(w, h))), None));
    case WriteUsage(h) =>
      if HostOf(w, h).busy.None? { UsageBound(begun, w, h); }
    case Restart(h) => SetHostBound(begun, w, h, Host(None, None));
    case Lifecycle(stops, cancelTurn) =>
      WrittenBound(begun, w, Stored(w).(running := Stored(w).running && !stops, cancelTurn := cancelTurn));
  }

  lemma ReloadBound(begun: set<Activity>, w: World, h: string, readable: bool)
    requires Inv(w) && BoundTo(begun, w) && CopyBound(begun, w.history, Stored(w)) && HostBound(begun, w.history, HostOf(w, h))
    ensures BoundTo(begun, Do(w, Reload(h, readable)))
  {
    var host := HostOf(w, h);
    if host.busy.Some? {
      var attempt, next := host.busy.value, Opened(Stored(w), host.busy.value.activity);
      OpenedBound(begun, w.history, Stored(w), attempt.activity);
      hide BoundTo, Inv, CopyBound, Opened;
      SetHostBound(begun, w, h, host.(busy := None));
      SetHostBound(begun, w, h, Host(Some(Stored(w)), None));
      SetHostBound(begun, w, h, Host(Some(next), None));
      SetHostBound(begun, w, h, Host(Some(next), Some(Attempt(attempt.activity, Some(next), if attempt.tries > 0 then attempt.tries - 1 else 0))));
    }
  }

  lemma BoundMore(begun: set<Activity>, more: set<Activity>, w: World)
    requires BoundTo(begun, w) && begun <= more
    ensures BoundTo(more, w)
  {
    forall h | h in w.hosts
      ensures HostBound(more, w.history, w.hosts[h])
    {
      assert HostBound(begun, w.history, w.hosts[h]);
    }
  }

  lemma BegunGrows(acts: seq<Act>)
    requires acts != []
    ensures var n := |acts| - 1;
      Begun(acts[..n]) <= Begun(acts) && (acts[n].Begin? ==> acts[n].activity in Begun(acts))
  {
    assert acts[|acts| - 1] in acts;
  }

  lemma {:induction false} RunBound(first: Task, acts: seq<Act>)
    ensures BoundTo(Begun(acts), Run(first, acts))
  {
    if acts == [] {
    } else {
      var init := acts[..|acts| - 1];
      RunBound(first, init);
      RunKeeps(first, init);
      BegunGrows(acts);
      hide Inv, BoundTo, Begun;
      BoundMore(Begun(init), Begun(acts), Run(first, init));
      ActBound(Begun(acts), Run(first, init), acts[|acts| - 1]);
    }
  }

  /** A newly opened generation is bound to an activity that was observed for just that
      generation. */
  lemma {:induction false} OpenedByActivity(first: Task, acts: seq<Act>, i: nat)
    requires i + 1 < |Run(first, acts).history|
    ensures var history := Run(first, acts).history;
      history[i + 1].turnSeq != history[i].turnSeq ==> Activity(history[i + 1].turnSeq, history[i + 1].activityId) in Begun(acts)
  {
    RunBound(first, acts);
    hide Run, Begun;
    var history := Run(first, acts).history;
    assert history[i + 1 - 1] == history[i];
  }

  /** And an activity observed on a host without a copy, when its generation is the next one and
      none is running or it was selected by the cancellation, does open it. */
  lemma {:induction false} ActivityOpens(first: Task, acts: seq<Act>, h: string, a: Activity)
    requires var w := Run(first, acts);
      && h !in w.hosts && Stored(w).turnSeq + 1 == a.turnSeq
      && (!Stored(w).running || Stored(w).cancelTurn == Some(a.turnSeq))
    ensures var w := Run(first, acts);
      var now := Stored(Do(Do(w, Begin(h, a)), Put(h, Acknowledged)));
      now.turnSeq == a.turnSeq && now.activityId == a.id && now.running && now.revision == Stored(w).revision + 1
  {
    hide Run;
  }

  /** After a conflict the host tries again: if the stored Task is still the predecessor and may be
      opened, reading it and writing once more opens the generation. */
  lemma {:induction false} ConflictIsRetried(first: Task, acts: seq<Act>, h: string)
    requires var w := Run(first, acts);
      && h in w.hosts && w.hosts[h].busy.Some? && w.hosts[h].busy.value.entry.None? && w.hosts[h].busy.value.tries > 0
      && var a := w.hosts[h].busy.value.activity;
         Stored(w).turnSeq + 1 == a.turnSeq && (!Stored(w).running || Stored(w).cancelTurn == Some(a.turnSeq))
    ensures var w := Run(first, acts);
      var a, now := w.hosts[h].busy.value.activity, Stored(Do(Do(w, Reload(h, true)), Put(h, Acknowledged)));
      now.turnSeq == a.turnSeq && now.activityId == a.id && now.running && now.revision == Stored(w).revision + 1
  {
    hide Run;
  }

  /** A host writes only for an activity that owns the generation it would store. */
  ghost predicate WritesOwn(w: World) {
    forall h :: h in w.hosts && w.hosts[h].busy.Some? && w.hosts[h].busy.value.entry.Some? ==>
      var a, entry := w.hosts[h].busy.value.activity, w.hosts[h].busy.value.entry.value;
      entry.turnSeq == a.turnSeq && entry.activityId == a.id && entry.running
  }

  lemma ActWritesOwn(w: World, act: Act)
    requires w.history != [] && WritesOwn(w)
    ensures WritesOwn(Do(w, act))
  {
  }

  lemma {:induction false} OnlyOwnersWrite(first: Task, acts: seq<Act>)
    ensures WritesOwn(Run(first, acts))
  {
    if acts == [] {
    } else {
      OnlyOwnersWrite(first, acts[..|acts| - 1]);
      ActWritesOwn(Run(first, acts[..|acts| - 1]), acts[|acts| - 1]);
    }
  }

  /** An attempt has three more writes after its first, each conflict that may be retried uses one,
      and without one left the host gives up. */
  lemma TriesCountDown(w: World, h: string, a: Activity)
    requires w.history != []
    ensures HostOf(w, h).busy.None? && HostOf(Do(w, Begin(h, a)), h).busy.Some? ==> HostOf(Do(w, Begin(h, a)), h).busy.value.tries == 3
    ensures var before, after := HostOf(w, h).busy, HostOf(Do(w, Reload(h, true)), h).busy;
      before.Some? && before.value.entry.None? && after.Some? ==> before.value.tries > 0 && after.value.tries == before.value.tries - 1 && after.value.entry.Some?
  {
  }
}
