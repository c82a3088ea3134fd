/** The usage writer of a child Task activity: producers replace the latest context gauge and
    start a background worker when none runs; the worker persists the latest gauge and retires
    itself once there is nothing to write. */
module UsageWriter {

  import opened Wrappers

  /** Gauges are compared by pointer, so each admitted one has an identity of its own. */
  type Gauge = nat

  datatype Usage = Usage(latest: Option<Gauge>, persisted: Option<Gauge>, running: bool, closed: bool)

  // ----- sections under the usage lock

  function Noted(u: Usage, g: Gauge): Usage {
    if u.closed then u else u.(latest := Some(g), running := true)
  }

  predicate Idle(u: Usage) {
    u.closed || u.latest == u.persisted
  }

  class ChildTaskUsage {
    var latest: Option<Gauge>
    var persisted: Option<Gauge>
    var running: bool
    var closed: bool

    function View(): Usage
      reads this
    {
      Usage(latest, persisted, running, closed)
    }

    constructor ()
      ensures View() == Usage(None, None, false, false)
    {
      latest, persisted, running, closed := None, None, false, false;
    }

    /** `start` tells the caller to start a worker. */
    method NoteUsage(g: Gauge) returns (start: bool)
      modifies this
      ensures View() == Noted(old(View()), g)
      ensures start <==> !old(closed) && !old(running)
    {
      start := false;
      if closed {
        return;
      }
      latest := Some(g);
      if !running {
        running, start := true, true;
      }
    }

    /** The worker's idle check gives up its ownership in the same section. */
    method RetireIfIdle() returns (retired: bool)
      modifies this
      ensures retired == Idle(old(View()))
      ensures View() == if retired then old(View()).(running := false) else old(View())
    {
      retired := closed || latest == persisted;
      if retired {
        running := false;
      }
    }

    method SealUsage()
      modifies this
      ensures View() == old(View()).(closed := true)
    {
      closed := true;
    }

    method DropLatest()
      modifies this
      ensures View() == old(View()).(latest := None)
    {
      latest := None;
    }

    method PeekUsage() returns (g: Option<Gauge>)
      ensures g == View().latest
    {
      g := latest;
    }
  }

  // ----- producers, workers and the Store

  datatype Phase =
    | Installing
    | Opening
    | Checking
    | Claiming
    | Claimed
    | Writing(record: Option<Gauge>)
    | Wrote(record: Option<Gauge>)
    | Sealing
    | Dropping
    | Backoff
    | Retired

  /** `admitted` are the gauges producers got in, `writes` those that reached the Store. */
  datatype World = World(
    usage: Usage, workers: seq<Phase>, installed: bool, isOpen: bool, dropped: bool,
    admitted: nat, writes: seq<Option<Gauge>>)

  datatype WriteResult = Written | NotCurrent | Refused | AnswerLost

  datatype Act =
    | Note
    | Seal
    | Drop
    | Install
    | Open
    | Step(worker: nat, claimed: bool, result: WriteResult)

  function Init(): World {
    World(Usage(None, None, false, false), [], false, false, false, 0, [])
  }

  function DoNote(w: World): World {
    if w.usage.closed then w
    else
      w.(usage := Noted(w.usage, w.admitted), admitted := w.admitted + 1,
         workers := if w.usage.running then w.workers else w.workers + [Installing])
  }

  function To(w: World, i: nat, phase: Phase): World
    requires i < |w.workers|
  {
    w.(workers := w.workers[i := phase])
  }

  function Retire(w: World, i: nat): World
    requires i < |w.workers|
  {
    To(w, i, Retired).(usage := w.usage.(running := false))
  }

  function DoWrite(w: World, i: nat, record: Option<Gauge>, result: WriteResult): World
    requires i < |w.workers|
  {
    match result
    case Written => To(w, i, Wrote(record)).(writes := w.writes + [record])
    case NotCurrent => To(w, i, Sealing)
    case Refused => To(w, i, Backoff)
    case AnswerLost => To(w, i, Backoff).(writes := w.writes + [record])
  }

  /** One section of the worker. Sealing cancels its context, so a sealed worker no longer
      waits to be installed or opened. */
  function DoStep(w: World, i: nat, claimed: bool, result: WriteResult): World
    requires i < |w.workers|
  {
    match w.workers[i]
    case Installing => if w.installed || w.usage.closed then To(w, i, Opening) else w
    case Opening => if w.isOpen then To(w, i, Checking) else if w.usage.closed then Retire(w, i) else w
    case Checking => if Idle(w.usage) then Retire(w, i) else To(w, i, Claiming)
    case Claiming => To(w, i, if claimed then Claimed else Backoff)
    case Claimed => To(w, i, if w.usage.closed then Checking else Writing(w.usage.latest))
    case Writing(record) => DoWrite(w, i, record, result)
    case Wrote(record) => To(w, i, Checking).(usage := w.usage.(persisted := record))
    case Sealing => To(w, i, Dropping).(usage := w.usage.(closed := true))
    case Dropping => To(w, i, Checking).(usage := w.usage.(latest := None), dropped := true)
    case Backoff => To(w, i, Checking)
    case Retired => w
  }

  function Do(w: World, act: Act): World {
    match act
    case Note => DoNote(w)
    case Seal => w.(usage := w.usage.(closed := true))
    case Drop => if w.usage.closed then w.(usage := w.usage.(latest := None), dropped := true) else w
    case Install => w.(installed := true)
    case Open => w.(isOpen := true)
    case Step(i, claimed, result) => if i < |w.workers| then DoStep(w, i, claimed, result) else w
  }

  function Run(acts: seq<Act>): World {
    if acts == [] then Init() else Do(Run(acts[..|acts| - 1]), acts[|acts| - 1])
  }

  // ----- invariant

  /** All workers but the last are retired, and the last is alive exactly when one is running. */
  ghost predicate OneWorker(workers: seq<Phase>, running: bool) {
    && (forall i :: 0 <= i < |workers| - 1 ==> workers[i] == Retired)
    && (running <==> workers != [] && workers[|workers| - 1] != Retired)
  }

  /** The newest gauge, unless it was dropped. */
  ghost predicate Newest(u: Usage, admitted: nat, dropped: bool) {
    && (dropped ==> u.closed && u.latest == None)
    && (!dropped ==> u.latest == if admitted == 0 then None else Some(admitted - 1))
  }

  predicate Before(a: Option<Gauge>, b: Option<Gauge>) {
    a.None? || (b.Some? && a.value <= b.value)
  }

  function LastWrite(writes: seq<Option<Gauge>>): Option<Gauge> {
    if writes == [] then None else writes[|writes| - 1]
  }

  /** Writes never go back, and none is newer than what producers got in. */
  ghost predicate Forward(writes: seq<Option<Gauge>>, admitted: nat) {
    && (forall i :: 0 <= i < |writes| ==> writes[i].Some? && writes[i].value < admitted)
    && (forall i, j :: 0 <= i <= j < |writes| ==> Before(writes[i], writes[j]))
  }

  function Current(workers: seq<Phase>): Phase {
    if workers == [] then Retired else workers[|workers| - 1]
  }

  /** What the worker holds is no older than the Store, and what is marked persisted was written. */
  ghost predicate Holds(phase: Phase, u: Usage, writes: seq<Option<Gauge>>, admitted: nat) {
    && Before(u.persisted, LastWrite(writes))
    && (phase.Writing? ==> phase.record.Some? && phase.record.value < admitted && Before(LastWrite(writes), phase.record))
    && (phase.Wrote? ==> phase.record == LastWrite(writes))
    && (phase == Dropping ==> u.closed)
    && (!u.running ==> Idle(u))
  }

  ghost predicate Inv(w: World) {
    && OneWorker(w.workers, w.usage.running)
    && Newest(w.usage, w.admitted, w.dropped)
    && Forward(w.writes, w.admitted)
    && Holds(Current(w.workers), w.usage, w.writes, w.admitted)
    && (w.admitted > 0 || !w.usage.running)
  }

  lemma ForwardSnoc(writes: seq<Option<Gauge>>, record: Option<Gauge>, admitted: nat)
    requires Forward(writes, admitted) && record.Some? && record.value < admitted && Before(LastWrite(writes), record)
    ensures Forward(writes + [record], admitted)
  {
  }

  /** The live worker moves on, with the usage and writes it leaves behind. */
  lemma MoveKeeps(w: World, i: nat, phase: Phase, usage: Usage, dropped: bool, writes: seq<Option<Gauge>>)
    requires Inv(w) && i < |w.workers| && w.workers[i] != Retired
    requires usage.running <==> phase != Retired
    requires Newest(usage, w.admitted, dropped) && Forward(writes, w.admitted) && Holds(phase, usage, writes, w.admitted)
    ensures Inv(w.(workers := w.workers[i := phase], usage := usage, dropped := dropped, writes := writes))
  {
  }

  lemma WriteKeeps(w: World, i: nat, result: WriteResult)
    requires Inv(w) && i < |w.workers| && w.workers[i].Writing?
    ensures Inv(DoWrite(w, i, w.workers[i].record, result))
  {
    var record, next := w.workers[i].record, DoWrite(w, i, w.workers[i].record, result);
    assert i == |w.workers| - 1;
    ForwardSnoc(w.writes, record, w.admitted);
    hide Forward, OneWorker;
    MoveKeeps(w, i, next.workers[i], w.usage, w.dropped, next.writes);
  }

  lemma Latest(w: World, i: nat)
    requires Inv(w) && i < |w.workers| && w.workers[i] != Retired
    ensures Current(w.workers) == w.workers[i] && w.usage.running
  {
  }

  lemma SimpleKeeps(w: World, i: nat, phase: Phase)
    requires Inv(w) && i < |w.workers| && w.workers[i] != Retired
    requires !phase.Writing? && !phase.Wrote? && phase != Dropping && phase != Retired
    ensures Inv(To(w, i, phase))
  {
  }

  lemma RetireKeeps(w: World, i: nat)
    requires Inv(w) && i < |w.workers| && w.workers[i] != Retired && Idle(w.usage)
    ensures Inv(Retire(w, i))
  {
  }

  /** The record is read after the claim, so it is the newest there is. */
  lemma ClaimedKeeps(w: World, i: nat)
    requires Inv(w) && i < |w.workers| && w.workers[i] == Claimed && !w.usage.closed
    ensures Inv(To(w, i, Writing(w.usage.latest)))
  {
  }

  lemma WroteKeeps(w: World, i: nat)
    requires Inv(w) && i < |w.workers| && w.workers[i].Wrote?
    ensures Inv(To(w, i, Checking).(usage := w.usage.(persisted := w.workers[i].record)))
  {
  }

  lemma DiscardKeeps(w: World, i: nat)
    requires Inv(w) && i < |w.workers|
    ensures w.workers[i] == Sealing ==> Inv(To(w, i, Dropping).(usage := w.usage.(closed := true)))
    ensures w.workers[i] == Dropping ==> Inv(To(w, i, Checking).(usage := w.usage.(latest := None), dropped := true))
  {
    if w.workers[i] == Sealing {
      Latest(w, i);
      hide OneWorker, Forward;
      MoveKeeps(w, i, Dropping, w.usage.(closed := true), w.dropped, w.writes);
    } else if w.workers[i] == Dropping {
      Latest(w, i);
      hide OneWorker, Forward;
      MoveKeeps(w, i, Checking, w.usage.(latest := None), true, w.writes);
    }
  }

  lemma StepKeeps(w: World, i: nat, claimed: bool, result: WriteResult)
    requires Inv(w) && i < |w.workers|
    ensures Inv(DoStep(w, i, claimed, result))
  {
    hide Inv, DoWrite, Retire;
    match w.workers[i]
    case Installing => SimpleKeeps(w, i, Opening);
    case Opening =>
      SimpleKeeps(w, i, Checking);
      if w.usage.closed { RetireKeeps(w, i); }
    case Checking =>
      if Idle(w.usage) { RetireKeeps(w, i); } else { SimpleKeeps(w, i, Claiming); }
    case Claiming => SimpleKeeps(w, i, if claimed then Claimed else Backoff);
    case Claimed =>
      if w.usage.closed { SimpleKeeps(w, i, Checking); } else { ClaimedKeeps(w, i); }
    case Writing(_) => WriteKeeps(w, i, result);
    case Wrote(_) => WroteKeeps(w, i);
    case Sealing => DiscardKeeps(w, i);
    case Dropping => DiscardKeeps(w, i);
    case Backoff => SimpleKeeps(w, i, Checking);
    case Retired =>
  }

  lemma ActKeeps(w: World, act: Act)
    requires Inv(w)
    ensures Inv(Do(w, act))
  {
    if act.Step? && act.worker < |w.workers| {
      StepKeeps(w, act.worker, act.claimed, act.result);
    }
  }

  lemma {:induction false} RunKeeps(acts: seq<Act>)
    ensures Inv(Run(acts))
  {
    if acts == [] {
    } else {
      RunKeeps(acts[..|acts| - 1]);
      ActKeeps(Run(acts[..|acts| - 1]), acts[|acts| - 1]);
    }
  }

  // ----- whole runs

  predicate Alive(phase: Phase) {
    phase != Retired
  }

  /** At most one worker is alive, and one is exactly while the usage says so. */
  lemma {:induction false} AtMostOneWorker(acts: seq<Act>, i: nat, j: nat)
    requires i < |Run(acts).workers| && j < |Run(acts).workers| && Alive(Run(acts).workers[i]) && Alive(Run(acts).workers[j])
    ensures i == j && Run(acts).usage.running
  {
    RunKeeps(acts);
  }

  /** With no worker alive and usage open, the newest gauge a producer got in is the one in
      the Store: no update is lost. */
  lemma {:induction false} NothingLost(acts: seq<Act>)
    ensures var w := Run(acts);
      && (w.usage.running <==> exists i :: 0 <= i < |w.workers| && Alive(w.workers[i]))
      && (!w.usage.running ==> w.usage.closed || w.usage.latest == w.usage.persisted)
      && (!w.usage.running && !w.usage.closed && w.admitted > 0 ==> LastWrite(w.writes) == Some(w.admitted - 1))
  {
    RunKeeps(acts);
    var w := Run(acts);
    hide Run;
    if w.usage.running {
      assert Alive(w.workers[|w.workers| - 1]);
    }
  }

  /** An older gauge never replaces a newer one in the Store. */
  lemma {:induction false} WritesMoveForward(acts: seq<Act>, i: nat, j: nat)
    requires i <= j < |Run(acts).writes|
    ensures Run(acts).writes[i].Some? && Run(acts).writes[j].Some? && Run(acts).writes[i].value <= Run(acts).writes[j].value
  {
    RunKeeps(acts);
  }

  /** Sealing keeps the newest gauge for the terminal write unless it is discarded. */
  lemma {:induction false} SealedGaugeKept(acts: seq<Act>)
    requires !Run(acts).dropped && Run(acts).admitted > 0
    ensures Do(Run(acts), Seal).usage.latest == Some(Run(acts).admitted - 1)
    ensures Do(Do(Run(acts), Seal), Note) == Do(Run(acts), Seal)
  {
    RunKeeps(acts);
  }

  /** The section of one worker. */
  function Section(w: World, i: nat, result: WriteResult): World {
    Do(w, Step(i, true, result))
  }

  /** A worker that is left alone writes the newest gauge and retires: claim, read, write, mark and
      check again. */
  lemma {:induction false} WorkerFinishes(acts: seq<Act>, i: nat)
    requires var w := Run(acts); i < |w.workers| && w.workers[i] == Checking && !Idle(w.usage)
    ensures var w := Run(acts);
      var writing := Section(Section(Section(w, i, Written), i, Written), i, Written);
      var done := Section(Section(Section(writing, i, Written), i, Written), i, Written);
      && writing.workers[i] == Writing(w.usage.latest) && writing.writes == w.writes
      && done.writes == w.writes + [Some(w.admitted - 1)]
      && done.usage.persisted == done.usage.latest == Some(w.admitted - 1)
      && !done.usage.running && done.workers[i] == Retired
  {
    RunKeeps(acts);
    var w := Run(acts);
    Latest(w, i);
    hide Run, OneWorker, Forward;
    assert w.workers[i := Claiming][i := Claimed] == w.workers[i := Claimed];
  }

  /** A write that is refused or whose answer is lost is tried again, and one that finds the Task no
      longer current closes the usage and discards the gauge. */
  lemma {:induction false} WriteIsResolved(acts: seq<Act>, i: nat, result: WriteResult)
    requires var w := Run(acts); i < |w.workers| && w.workers[i].Writing? && result != Written
    ensures var w := Run(acts);
      var next := Section(Section(w, i, result), i, result);
      if result == NotCurrent then
        var end := Section(next, i, result);
        next.usage.closed && end.workers[i] == Checking && end.usage.latest == None && end.usage.closed && end.writes == w.writes
      else
        && next.workers[i] == Checking && next.usage == w.usage
        && next.writes == if result == AnswerLost then w.writes + [w.workers[i].record] else w.writes
  {
    hide Run;
  }

  /** A producer's gauge is the newest one at once, and a worker is alive to write it. */
  lemma {:induction false} NoteStartsWorker(acts: seq<Act>)
    requires !Run(acts).usage.closed
    ensures var w := Do(Run(acts), Note);
      && w.usage.latest == Some(w.admitted - 1) && w.usage.running
      && exists i :: 0 <= i < |w.workers| && Alive(w.workers[i])
  {
    RunKeeps(acts);
    ActKeeps(Run(acts), Note);
    hide Run;
    var w := Do(Run(acts), Note);
    assert Alive(w.workers[|w.workers| - 1]);
  }

  /** Discarding seals the usage and then forgets the gauge. */
  lemma {:induction false} DiscardForgets(acts: seq<Act>)
    ensures var w := Do(Do(Run(acts), Seal), Drop); w.usage.closed && w.usage.latest == None && w.writes == Run(acts).writes
  {
    hide Run;
  }
}
