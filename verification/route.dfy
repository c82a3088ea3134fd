/** The Codex Session route: notifications that arrive while a Session loads are
    buffered, replayed above a stable barrier, and then handed to the live worker.

    `SessionRoute` is the mutable route itself. `World` adds the three parties that
    share it (the app-server reader, the loader and the live worker) and lets them
    interleave arbitrarily: a run is the fold of `Do` over any sequence of steps. */
module Route {

  import opened Wrappers

  /** Sequence numbers are taken from a counter that starts at 1. */
  datatype Notification = Notification(sequence: nat, payload: int)

  datatype Mode = Buffering | Live | Closed

  const MAX_BUFFERED: nat := 4096
  const QUEUE_CAPACITY: nat := 256
  const MAX_STABLE_READS: nat := 4

  datatype State = State(mode: Mode, barrier: nat, buffer: seq<Notification>, notify: seq<Notification>)

  // ----- the operations of the route, each one critical section

  datatype Admission = Buffered | Overflowed | Refused | ToQueue

  /** What `enqueue` does under the lock. */
  function Admit(r: State, n: Notification): (State, Admission) {
    match r.mode
    case Buffering =>
      if |r.buffer| >= MAX_BUFFERED then (r, Overflowed) else (r.(buffer := r.buffer + [n]), Buffered)
    case Closed => (r, Refused)
    case Live => (r, ToQueue)
  }

  /** The non-blocking channel send that follows once the lock is released. */
  function TrySend(r: State, n: Notification): (State, bool) {
    if |r.notify| < QUEUE_CAPACITY then (r.(notify := r.notify + [n]), true) else (r, false)
  }

  /** The notifications above a barrier, in order. */
  function Above(s: seq<Notification>, barrier: nat): seq<Notification> {
    if s == [] then []
    else
      var rest := Above(s[..|s| - 1], barrier);
      if s[|s| - 1].sequence > barrier then rest + [s[|s| - 1]] else rest
  }

  function LastSequence(r: State): nat {
    if r.buffer == [] then r.barrier else r.buffer[|r.buffer| - 1].sequence
  }

  predicate BufferedSince(r: State, sequence: nat) {
    exists n :: n in r.buffer && n.sequence > sequence
  }

  datatype Taken = Batch(post: seq<Notification>) | WentLive | RouteClosed

  function TakeOrSwitch(r: State): (State, Taken) {
    if r.mode == Closed then (r, RouteClosed)
    else if r.buffer != [] then (r.(buffer := []), Batch(r.buffer))
    else (r.(mode := Live), WentLive)
  }

  class SessionRoute {
    var mode: Mode
    var barrier: nat
    var buffer: seq<Notification>
    var notify: seq<Notification>

    ghost function View(): State
      reads this
    {
      State(mode, barrier, buffer, notify)
    }

    constructor (initial: Mode)
      ensures View() == State(initial, 0, [], [])
    {
      mode, barrier, buffer, notify := initial, 0, [], [];
    }

    method EnqueueLocked(n: Notification) returns (admission: Admission)
      modifies this
      ensures (View(), admission) == Admit(old(View()), n)
    {
      match mode {
        case Buffering =>
          if |buffer| >= MAX_BUFFERED {
            return Overflowed;
          }
          buffer := buffer + [n];
          return Buffered;
        case Closed => return Refused;
        case Live => return ToQueue;
      }
    }

    method Send(n: Notification) returns (sent: bool)
      modifies this
      ensures (View(), sent) == TrySend(old(View()), n)
    {
      if |notify| < QUEUE_CAPACITY {
        notify := notify + [n];
        return true;
      }
      return false;
    }

    method AcceptStableBarrier(sequence: nat) returns (post: seq<Notification>)
      modifies this
      ensures View() == old(View()).(barrier := sequence, buffer := [])
      ensures post == Above(old(buffer), sequence)
    {
      barrier := sequence;
      post := [];
      for i := 0 to |buffer|
        invariant post == Above(buffer[..i], sequence)
        invariant View() == old(View()).(barrier := sequence)
      {
        assert buffer[..i + 1][..i] == buffer[..i];
        if buffer[i].sequence > sequence {
          post := post + [buffer[i]];
        }
      }
      assert buffer[..|buffer|] == buffer;
      buffer := [];
    }

    method TakeBufferedOrSwitchLive() returns (taken: Taken)
      modifies this
      ensures (View(), taken) == TakeOrSwitch(old(View()))
    {
      if mode == Closed {
        return RouteClosed;
      }
      if |buffer| > 0 {
        taken := Batch(buffer);
        buffer := [];
        return;
      }
      mode := Live;
      return WentLive;
    }

    method HasBufferedSince(sequence: nat) returns (found: bool)
      ensures found == BufferedSince(View(), sequence)
    {
      for i := 0 to |buffer|
        invariant forall j :: 0 <= j < i ==> buffer[j].sequence <= sequence
      {
        if buffer[i].sequence > sequence {
          assert buffer[i] in View().buffer;
          return true;
        }
      }
      return false;
    }

    method ReadLastSequence() returns (sequence: nat)
      ensures sequence == LastSequence(View())
    {
      if |buffer| == 0 {
        return barrier;
      }
      return buffer[|buffer| - 1].sequence;
    }
  }

  // ----- reader, loader and worker over one route

  /** Where the loading goroutine is. `read` counts the thread/read requests,
      `previous` is the last canonical history, `issuedAt` the number of arrivals when
      the current read was issued. */
  datatype Loader =
    | BeforeRead(read: nat, previous: Option<int>)
    | IssueRead(read: nat, previous: Option<int>, before: nat)
    | AwaitRead(read: nat, previous: Option<int>, before: nat, issuedAt: nat)
    | AfterRead(read: nat, previous: Option<int>, before: nat, issuedAt: nat, history: int)
    | Confirm(read: nat, previous: Option<int>, before: nat, after: nat, issuedAt: nat, history: int)
    | Accept(barrier: nat, issuedAt: nat)
    | Replay(post: seq<Notification>)
    | Serving
    | LoadFailed

  /** One stable-read round as an observer sees it: the history the read returned, how many
      notifications had arrived when the sequence before the read was taken and when the round
      was judged, and how many had been discarded by then. */
  datatype Round = Round(reply: int, since: nat, until: nat, dropped: nat)

  /** `inHand` is a notification the reader saw as live but has not sent yet; `working`
      is the one the worker has received but not published. `lost` records what
      overflow, closing or a failed publication discarded, and `confirmedAt` how many
      notifications had arrived when the confirming read was issued. `rounds` are the judged
      rounds of the load, `reading` the one under way. */
  datatype World = World(
    route: State,
    arrived: seq<Notification>,
    inHand: Option<Notification>,
    working: Option<Notification>,
    loader: Loader,
    published: seq<Notification>,
    lost: seq<Notification>,
    closing: bool,
    confirmedAt: nat,
    reading: Round,
    rounds: seq<Round>)

  datatype Step =
    | Arrive(n: Notification)
    | SendInHand
    | WorkerTake
    | WorkerPublish(ok: bool)
    | CloseRoute
    | LoaderStep(history: int, ok: bool)

  const NO_ROUND: Round := Round(0, 0, 0, 0)

  function InitialLoad(): World {
    World(State(Buffering, 0, [], []), [], None, None, BeforeRead(0, None), [], [], false, 0, NO_ROUND, [])
  }

  /** `drainBufferedToLive` starts draining at once and never sets a barrier. */
  function InitialDrain(): World {
    World(State(Buffering, 0, [], []), [], None, None, Replay([]), [], [], false, 0, NO_ROUND, [])
  }

  function InitialLive(): World {
    World(State(Live, 0, [], []), [], None, None, Serving, [], [], false, 0, NO_ROUND, [])
  }

  function LastArrival(arrived: seq<Notification>): nat {
    if arrived == [] then 0 else arrived[|arrived| - 1].sequence
  }

  /** One step; a step that is not enabled leaves the world as it is. */
  function Do(w: World, step: Step): World {
    match step
    case Arrive(n) =>
      if w.inHand.Some? || n.sequence <= LastArrival(w.arrived) then w else DoArrive(w, n)
    case SendInHand => if w.inHand.None? then w else DoSend(w)
    case WorkerTake =>
      if w.working.Some? || w.route.notify == [] then w
      else w.(working := Some(w.route.notify[0]), route := w.route.(notify := w.route.notify[1..]))
    case WorkerPublish(ok) => if w.working.None? then w else DoWorkerPublish(w, ok)
    case CloseRoute => w.(closing := true, route := w.route.(mode := Closed))
    case LoaderStep(history, ok) => Watched(w, DoLoader(w, history, ok), history)
  }

  /** What the observer notes about a loader step from `w` to `next`. */
  function Watched(w: World, next: World, history: int): World {
    match w.loader
    case BeforeRead(_, _) => next.(reading := w.reading.(since := |w.arrived|))
    case AwaitRead(_, _, _, _) => next.(reading := w.reading.(reply := history))
    case Confirm(_, _, _, _, _, _) => next.(rounds := w.rounds + [w.reading.(until := |w.arrived|, dropped := |w.lost|)])
    case _ => next
  }

  function DoArrive(w: World, n: Notification): (w': World)
    ensures w'.arrived == w.arrived + [n] && w'.loader == w.loader && w'.confirmedAt == w.confirmedAt
    ensures w'.route.barrier == w.route.barrier
  {
    var (route, admission) := Admit(w.route, n);
    var arrivedNow := w.(route := route, arrived := w.arrived + [n]);
    match admission
    case Buffered => arrivedNow
    case ToQueue => arrivedNow.(inHand := Some(n))
    case Overflowed => arrivedNow.(lost := w.lost + [n], closing := true)
    case Refused => arrivedNow.(lost := w.lost + [n])
  }

  function DoSend(w: World): World
    requires w.inHand.Some?
  {
    var (route, sent) := TrySend(w.route, w.inHand.value);
    if sent then w.(route := route, inHand := None)
    else w.(inHand := None, lost := w.lost + [w.inHand.value], closing := true)
  }

  function DoWorkerPublish(w: World, ok: bool): World
    requires w.working.Some?
  {
    if ok then w.(working := None, published := w.published + [w.working.value])
    else w.(working := None, lost := w.lost + [w.working.value], closing := true, route := w.route.(mode := Closed))
  }

  function DoAccept(w: World): World
    requires w.loader.Accept?
  {
    w.(route := w.route.(barrier := w.loader.barrier, buffer := []),
       loader := Replay(Above(w.route.buffer, w.loader.barrier)),
       confirmedAt := w.loader.issuedAt)
  }

  function DoLoader(w: World, history: int, ok: bool): World {
    match w.loader
    case BeforeRead(read, previous) =>
      w.(loader := if read == MAX_STABLE_READS then LoadFailed else IssueRead(read, previous, LastSequence(w.route)))
    case IssueRead(read, previous, before) => w.(loader := AwaitRead(read, previous, before, |w.arrived|))
    case AwaitRead(read, previous, before, issuedAt) =>
      w.(loader := if ok then AfterRead(read, previous, before, issuedAt, history) else LoadFailed)
    case AfterRead(read, previous, before, issuedAt, response) =>
      w.(loader := Confirm(read, previous, before, LastSequence(w.route), issuedAt, response))
    case Confirm(read, previous, before, after, issuedAt, response) =>
      if previous == Some(response) && before == after && !BufferedSince(w.route, after)
      then w.(loader := Accept(after, issuedAt))
      else w.(loader := BeforeRead(read + 1, Some(response)))
    case Accept(_, _) => DoAccept(w)
    case Replay(post) =>
      if post != [] then
        if ok then w.(loader := Replay(post[1..]), published := w.published + [post[0]])
        else w.(loader := LoadFailed, lost := w.lost + post, closing := true, route := w.route.(mode := Closed))
      else
        var (route, taken) := TakeOrSwitch(w.route);
        (match taken
         case Batch(batch) => w.(route := route, loader := Replay(batch))
         case WentLive => w.(route := route, loader := Serving)
         case RouteClosed => w.(loader := LoadFailed))
    case Serving => w
    case LoadFailed => w
  }

  function Run(w: World, steps: seq<Step>): World {
    if steps == [] then w else Do(Run(w, steps[..|steps| - 1]), steps[|steps| - 1])
  }

  // ----- the invariant

  function One(n: Option<Notification>): seq<Notification> {
    if n.Some? then [n.value] else []
  }

  function Post(l: Loader): seq<Notification> {
    if l.Replay? then l.post else []
  }

  /** Everything accepted and not discarded, oldest first: published, then in flight. */
  function Pipeline(w: World): seq<Notification> {
    w.published + One(w.working) + Post(w.loader) + w.route.notify + w.route.buffer + One(w.inHand)
  }

  ghost predicate Increasing(s: seq<Notification>) {
    forall i, j :: 0 <= i < j < |s| ==> s[i].sequence < s[j].sequence
  }

  predicate Loading(l: Loader) {
    !l.Replay? && !l.Serving? && !l.LoadFailed?
  }

  /** Phase facts: nothing is live before the switch, nothing is buffered after it. */
  ghost predicate Phases(w: World) {
    && (w.loader.Serving? || w.loader.LoadFailed? ||
        (w.route.mode != Live && w.working.None? && w.route.notify == [] && w.inHand.None?))
    && (w.loader.Serving? ==> w.route.mode != Buffering && w.route.buffer == [])
    && (w.loader.LoadFailed? ==> w.route.mode != Live && w.working.None? && w.route.notify == [] && w.inHand.None?)
    && (Loading(w.loader) ==> w.published == [] && w.route.barrier == 0)
    && (w.route.mode == Closed ==> w.closing)
  }

  /** The barrier candidate is the number of a notification that had arrived before the
      read was issued (or 0), so every later arrival lies above it. */
  ghost predicate Bounded(arrived: seq<Notification>, issuedAt: nat, bound: nat) {
    && issuedAt <= |arrived|
    && bound <= LastArrival(arrived)
    && forall i :: issuedAt <= i < |arrived| ==> arrived[i].sequence > bound
  }

  ghost predicate Barriers(w: World) {
    match w.loader
    case IssueRead(_, _, before) => before <= LastArrival(w.arrived)
    case AwaitRead(_, _, before, issuedAt) => Bounded(w.arrived, issuedAt, before)
    case AfterRead(_, _, before, issuedAt, _) => Bounded(w.arrived, issuedAt, before)
    case Confirm(_, _, before, _, issuedAt, _) => Bounded(w.arrived, issuedAt, before)
    case Accept(barrier, issuedAt) => Bounded(w.arrived, issuedAt, barrier)
    case _ => true
  }

  /** The pipeline holds arrivals above the barrier, in order; what it misses was lost. */
  ghost predicate FlowOf(
    arrived: seq<Notification>, pipe: seq<Notification>, barrier: nat, lost: seq<Notification>, closing: bool)
  {
    && Increasing(arrived)
    && (forall n :: n in arrived ==> n.sequence > 0)
    && Increasing(pipe)
    && (forall n :: n in pipe ==> n in arrived && n.sequence > barrier)
    && (forall n :: n in arrived && n.sequence > barrier ==> n in pipe || n in lost)
    && (forall n :: n in lost ==> n in arrived && n !in pipe)
    && (lost != [] ==> closing)
  }

  ghost predicate Flow(w: World) {
    FlowOf(w.arrived, Pipeline(w), w.route.barrier, w.lost, w.closing)
  }

  /** Nothing at or below the accepted barrier arrived after the confirming read was issued. */
  ghost predicate Confirmed(w: World) {
    w.confirmedAt <= |w.arrived| && (Loading(w.loader) || Bounded(w.arrived, w.confirmedAt, w.route.barrier))
  }

  ghost predicate Inv(w: World) {
    Phases(w) && Barriers(w) && Flow(w) && Confirmed(w)
  }

  // ----- preservation, one lemma per party

  lemma AboveFacts(s: seq<Notification>, barrier: nat)
    requires Increasing(s)
    ensures Increasing(Above(s, barrier))
    ensures forall n :: n in Above(s, barrier) <==> n in s && n.sequence > barrier
  {
  }

  lemma LastIsGreatest(w: World)
    requires Inv(w)
    ensures forall n :: n in w.arrived ==> n.sequence <= LastArrival(w.arrived)
    ensures Loading(w.loader) ==> LastSequence(w.route) <= LastArrival(w.arrived)
  {
  }

  lemma FlowGrows(arrived: seq<Notification>, pipe: seq<Notification>, barrier: nat, lost: seq<Notification>, closing: bool, n: Notification)
    requires FlowOf(arrived, pipe, barrier, lost, closing)
    requires n.sequence > 0 && n.sequence > barrier && forall m :: m in arrived ==> m.sequence < n.sequence
    ensures FlowOf(arrived + [n], pipe + [n], barrier, lost, closing)
    ensures FlowOf(arrived + [n], pipe, barrier, lost + [n], true)
  {
  }

  lemma CutIncreases(a: seq<Notification>, mid: seq<Notification>, b: seq<Notification>)
    requires Increasing(a + mid + b)
    ensures Increasing(a + b)
    ensures forall n :: n in mid ==> n !in a + b
  {
    var before, pipe := a + mid + b, a + b;
    forall i | 0 <= i < |pipe|
      ensures pipe[i] == before[if i < |a| then i else i + |mid|]
    {
    }
    forall k | 0 <= k < |mid|
      ensures mid[k] !in pipe
    {
      assert mid[k] == before[|a| + k];
    }
  }

  lemma FlowLoses(
    arrived: seq<Notification>, a: seq<Notification>, mid: seq<Notification>, b: seq<Notification>,
    barrier: nat, lost: seq<Notification>, closing: bool)
    requires FlowOf(arrived, a + mid + b, barrier, lost, closing)
    ensures FlowOf(arrived, a + b, barrier, lost + mid, true)
  {
    CutIncreases(a, mid, b);
    hide Increasing;
    assert forall n :: n in a + mid + b <==> n in a || n in mid || n in b;
  }

  lemma PipelineArrives(w: World, n: Notification)
    requires Phases(w) && w.inHand.None?
    ensures var w' := DoArrive(w, n);
            if w'.lost == w.lost then Pipeline(w') == Pipeline(w) + [n] && w'.closing == w.closing
            else Pipeline(w') == Pipeline(w) && w'.lost == w.lost + [n] && w'.closing
  {
  }

  lemma ArriveFlow(w: World, n: Notification)
    requires Inv(w) && w.inHand.None? && n.sequence > LastArrival(w.arrived)
    ensures Flow(DoArrive(w, n))
  {
    LastIsGreatest(w);
    PipelineArrives(w, n);
    hide DoArrive, Pipeline, Barriers, Phases;
    FlowGrows(w.arrived, Pipeline(w), w.route.barrier, w.lost, w.closing, n);
  }

  lemma BoundedGrows(arrived: seq<Notification>, issuedAt: nat, bound: nat, n: Notification)
    requires Bounded(arrived, issuedAt, bound) && n.sequence > LastArrival(arrived)
    ensures Bounded(arrived + [n], issuedAt, bound)
  {
  }

  lemma ArriveBarriers(w: World, n: Notification)
    requires Inv(w) && n.sequence > LastArrival(w.arrived)
    ensures Barriers(DoArrive(w, n)) && Confirmed(DoArrive(w, n))
  {
    hide Flow, Phases, Bounded, DoArrive;
    if !Loading(w.loader) {
      BoundedGrows(w.arrived, w.confirmedAt, w.route.barrier, n);
    } else if w.loader.Accept? {
      BoundedGrows(w.arrived, w.loader.issuedAt, w.loader.barrier, n);
    } else if !w.loader.BeforeRead? && !w.loader.IssueRead? {
      BoundedGrows(w.arrived, w.loader.issuedAt, w.loader.before, n);
    }
  }

  lemma ArrivePhases(w: World, n: Notification)
    requires Phases(w) && w.inHand.None?
    ensures Phases(DoArrive(w, n))
  {
  }

  lemma ArriveKeeps(w: World, n: Notification)
    requires Inv(w) && w.inHand.None? && n.sequence > LastArrival(w.arrived)
    ensures Inv(DoArrive(w, n))
  {
    ArriveFlow(w, n);
    ArriveBarriers(w, n);
    ArrivePhases(w, n);
  }

  lemma SendKeeps(w: World)
    requires Inv(w) && w.inHand.Some?
    ensures Inv(DoSend(w))
  {
    var w' := DoSend(w);
    if |w.route.notify| < QUEUE_CAPACITY {
      assert Pipeline(w') == Pipeline(w);
    } else {
      assert Pipeline(w) == Pipeline(w') + [w.inHand.value] + [];
      FlowLoses(w.arrived, Pipeline(w'), [w.inHand.value], [], w.route.barrier, w.lost, w.closing);
      assert Pipeline(w') + [] == Pipeline(w');
    }
  }

  lemma WorkerKeeps(w: World, step: Step)
    requires Inv(w) && (step.WorkerTake? || step.WorkerPublish?)
    ensures Inv(Do(w, step))
  {
    hide FlowOf;
    var w' := Do(w, step);
    if step.WorkerPublish? && w.working.Some? && !step.ok {
      var rest := Post(w.loader) + w.route.notify + w.route.buffer + One(w.inHand);
      assert Pipeline(w) == w.published + [w.working.value] + rest;
      FlowLoses(w.arrived, w.published, [w.working.value], rest, w.route.barrier, w.lost, w.closing);
      assert Pipeline(w') == w.published + rest;
    } else {
      assert Pipeline(w') == Pipeline(w);
    }
  }

  /** Moving the loader between two points before the barrier is accepted. */
  lemma LoaderMoves(w: World, next: Loader)
    requires Inv(w) && Loading(w.loader) && (Loading(next) || next.LoadFailed?) && Barriers(w.(loader := next))
    ensures Inv(w.(loader := next))
  {
  }

  lemma ReadKeeps(w: World, history: int, ok: bool)
    requires Inv(w) && Loading(w.loader) && !w.loader.Accept?
    ensures Inv(DoLoader(w, history, ok))
  {
    LastIsGreatest(w);
    LoaderMoves(w, DoLoader(w, history, ok).loader);
  }

  lemma FlowFilters(arrived: seq<Notification>, pipe: seq<Notification>, lost: seq<Notification>, closing: bool, barrier: nat)
    requires FlowOf(arrived, pipe, 0, lost, closing)
    ensures FlowOf(arrived, Above(pipe, barrier), barrier, lost, closing)
  {
    AboveFacts(pipe, barrier);
  }

  lemma AcceptPipelines(w: World)
    requires Phases(w) && w.loader.Accept?
    ensures Pipeline(w) == w.route.buffer
    ensures Pipeline(DoAccept(w)) == Above(w.route.buffer, w.loader.barrier)
  {
    hide Above;
    assert w.published == [] && One(w.working) == [] && Post(w.loader) == [] && One(w.inHand) == [];
    var kept := Above(w.route.buffer, w.loader.barrier);
    assert Pipeline(DoAccept(w)) == [] + [] + kept + [] + [] + [];
  }

  lemma AcceptFlow(w: World)
    requires Phases(w) && Flow(w) && w.loader.Accept?
    ensures Flow(DoAccept(w))
  {
    AcceptPipelines(w);
    FlowFilters(w.arrived, w.route.buffer, w.lost, w.closing, w.loader.barrier);
    hide FlowOf, Above, Pipeline, Phases;
  }

  lemma AcceptRest(w: World)
    requires Phases(w) && Barriers(w) && w.loader.Accept?
    ensures Phases(DoAccept(w)) && Barriers(DoAccept(w)) && Confirmed(DoAccept(w))
  {
    hide Bounded, Above;
    assert Bounded(w.arrived, w.loader.issuedAt, w.loader.barrier);
    BoundedInside(w.arrived, w.loader.issuedAt, w.loader.barrier);
  }

  lemma BoundedInside(arrived: seq<Notification>, issuedAt: nat, bound: nat)
    requires Bounded(arrived, issuedAt, bound)
    ensures issuedAt <= |arrived|
  {
  }

  lemma AcceptKeeps(w: World)
    requires Inv(w) && w.loader.Accept?
    ensures Inv(DoAccept(w))
  {
    hide Phases, Barriers, Flow, Confirmed, DoAccept;
    AcceptFlow(w);
    AcceptRest(w);
  }

  lemma ReplayPublishKeeps(w: World, history: int, ok: bool)
    requires Inv(w) && w.loader.Replay? && w.loader.post != []
    ensures Inv(DoLoader(w, history, ok))
  {
    hide FlowOf;
    var w' := DoLoader(w, history, ok);
    assert Pipeline(w) == w.published + w.loader.post + w.route.buffer;
    if ok {
      assert w.published + w.loader.post == w'.published + w'.loader.post;
      assert Pipeline(w') == Pipeline(w);
    } else {
      FlowLoses(w.arrived, w.published, w.loader.post, w.route.buffer, w.route.barrier, w.lost, w.closing);
      assert Pipeline(w') == w.published + w.route.buffer;
    }
  }

  lemma ReplayTakeKeeps(w: World, history: int, ok: bool)
    requires Inv(w) && w.loader == Replay([])
    ensures Inv(DoLoader(w, history, ok))
  {
    hide FlowOf;
    assert Pipeline(w) == w.published + w.route.buffer;
    assert Pipeline(DoLoader(w, history, ok)) == w.published + w.route.buffer;
  }

  lemma WatchedKeeps(w: World, next: World, history: int)
    ensures Inv(Watched(w, next, history)) <==> Inv(next)
  {
    hide FlowOf, Bounded, Pipeline, Loading;
    assert Pipeline(Watched(w, next, history)) == Pipeline(next) by {
      SamePipeline(Watched(w, next, history), next);
    }
  }

  lemma SamePipeline(a: World, b: World)
    requires a.published == b.published && a.working == b.working && a.loader == b.loader && a.route == b.route && a.inHand == b.inHand
    ensures Pipeline(a) == Pipeline(b)
  {
  }

  lemma StepKeeps(w: World, step: Step)
    requires Inv(w)
    ensures Inv(Do(w, step))
  {
    match step
    case Arrive(n) =>
      if w.inHand.None? && n.sequence > LastArrival(w.arrived) {
        ArriveKeeps(w, n);
      }
    case SendInHand =>
      if w.inHand.Some? {
        SendKeeps(w);
      }
    case WorkerTake => WorkerKeeps(w, step);
    case WorkerPublish(_) => WorkerKeeps(w, step);
    case CloseRoute => assert Pipeline(Do(w, step)) == Pipeline(w);
    case LoaderStep(history, ok) =>
      WatchedKeeps(w, DoLoader(w, history, ok), history);
      if w.loader.Accept? {
        AcceptKeeps(w);
      } else if w.loader.Replay? {
        if w.loader.post == [] {
          ReplayTakeKeeps(w, history, ok);
        } else {
          ReplayPublishKeeps(w, history, ok);
        }
      } else if Loading(w.loader) {
        ReadKeeps(w, history, ok);
      }
  }

  ghost predicate Initial(w: World) {
    w == InitialLoad() || w == InitialDrain() || w == InitialLive()
  }

  lemma {:induction false} RunKeeps(w: World, steps: seq<Step>)
    requires Initial(w)
    ensures Inv(Run(w, steps))
  {
    if steps == [] {
    } else {
      RunKeeps(w, steps[..|steps| - 1]);
      StepKeeps(Run(w, steps[..|steps| - 1]), steps[|steps| - 1]);
    }
  }

  // ----- the promises, over every run

  lemma LastOf(s: seq<Notification>, n: Notification)
    requires Increasing(s) && n in s
    ensures n.sequence <= s[|s| - 1].sequence
    ensures n in s[..|s| - 1] <==> n != s[|s| - 1]
  {
  }

  /** Two increasing sequences with the same members are the same sequence. */
  lemma {:induction false} IncreasingIsUnique(a: seq<Notification>, b: seq<Notification>)
    requires Increasing(a) && Increasing(b)
    requires forall n :: n in a <==> n in b
    ensures a == b
  {
    assert (a != [] ==> a[0] in b) && (b != [] ==> b[0] in a);
    if a == [] {
    } else {
      LastOf(a, b[|b| - 1]);
      LastOf(b, a[|a| - 1]);
      LastOf(a, a[|a| - 1]);
      LastOf(b, b[|b| - 1]);
      assert a[|a| - 1] == b[|b| - 1];
      var a', b' := a[..|a| - 1], b[..|b| - 1];
      forall n | n in a
        ensures n in a' <==> n in b'
      {
        LastOf(a, n);
        LastOf(b, n);
      }
      assert forall n :: n in a' || n in b' ==> n in a;
      IncreasingIsUnique(a', b');
    }
  }

  // ----- what is discarded lies above the barrier

  /** The barrier the loader may still accept. */
  function Candidate(l: Loader): nat {
    match l
    case IssueRead(_, _, before) => before
    case AwaitRead(_, _, before, _) => before
    case AfterRead(_, _, before, _, _) => before
    case Confirm(_, _, before, after, _, _) => if before < after then after else before
    case Accept(barrier, _) => barrier
    case _ => 0
  }

  /** While loading, the buffer stops growing with the first loss and every candidate is at most
      its newest entry; afterwards the barrier is fixed. */
  ghost predicate LostAbove(w: World) {
    && (Loading(w.loader) ==> Candidate(w.loader) <= LastSequence(w.route))
    && (Loading(w.loader) && w.lost != [] ==> w.route.mode == Closed || |w.route.buffer| >= MAX_BUFFERED)
    && var bound := if Loading(w.loader) then LastSequence(w.route) else w.route.barrier;
       forall n :: n in w.lost ==> n.sequence > bound
  }

  lemma ArriveLosesAbove(w: World, n: Notification)
    requires Inv(w) && LostAbove(w) && w.inHand.None? && n.sequence > LastArrival(w.arrived)
    ensures LostAbove(DoArrive(w, n))
  {
    LastIsGreatest(w);
    hide FlowOf;
  }

  lemma PostAbove(w: World)
    requires Inv(w)
    ensures forall n :: n in Post(w.loader) ==> n.sequence > w.route.barrier
  {
    forall n | n in Post(w.loader)
      ensures n.sequence > w.route.barrier
    {
      assert n in Pipeline(w);
    }
  }

  /** A step that discards only what lies above the barrier, once loading is over. */
  lemma AfterLoading(w: World, w': World, more: seq<Notification>)
    requires LostAbove(w) && !Loading(w.loader) && !Loading(w'.loader) && w'.route.barrier == w.route.barrier
    requires w'.lost == w.lost + more && forall n :: n in more ==> n.sequence > w.route.barrier
    ensures LostAbove(w')
  {
  }

  lemma ReadLosesAbove(w: World, w': World)
    requires LostAbove(w) && Loading(w.loader) && w.route.barrier == 0 && w'.route == w.route && w'.lost == w.lost
    requires Candidate(w'.loader) <= LastSequence(w.route) && !w'.loader.Replay? && !w'.loader.Serving?
    ensures LostAbove(w')
  {
    hide LastSequence;
  }

  lemma AcceptLosesAbove(w: World)
    requires LostAbove(w) && w.loader.Accept?
    ensures LostAbove(DoAccept(w))
  {
    hide LastSequence, Above;
  }

  lemma ReplayLosesAbove(w: World, history: int, ok: bool)
    requires Inv(w) && LostAbove(w) && w.loader.Replay?
    ensures LostAbove(DoLoader(w, history, ok))
  {
    PostAbove(w);
    hide Inv, LostAbove;
    var w' := DoLoader(w, history, ok);
    if w'.lost == w.lost {
      AfterLoading(w, w', []);
    } else {
      AfterLoading(w, w', w.loader.post);
    }
  }

  lemma ReadCandidate(w: World, history: int, ok: bool)
    requires Loading(w.loader) && !w.loader.Accept? && Candidate(w.loader) <= LastSequence(w.route)
    ensures var w' := DoLoader(w, history, ok);
      && w'.route == w.route && w'.lost == w.lost
      && Candidate(w'.loader) <= LastSequence(w.route) && !w'.loader.Replay? && !w'.loader.Serving?
  {
    hide LastSequence, BufferedSince;
  }

  lemma NoBarrierYet(w: World)
    requires Inv(w) && LostAbove(w) && Loading(w.loader)
    ensures w.route.barrier == 0 && Candidate(w.loader) <= LastSequence(w.route)
  {
  }

  lemma LoaderLosesAbove(w: World, history: int, ok: bool)
    requires Inv(w) && LostAbove(w)
    ensures LostAbove(DoLoader(w, history, ok))
  {
    if w.loader.Replay? {
      hide DoLoader, Inv, LostAbove;
      ReplayLosesAbove(w, history, ok);
    } else if w.loader.Accept? {
      hide Inv, LostAbove;
      AcceptLosesAbove(w);
    } else if Loading(w.loader) {
      hide DoLoader, Inv, LostAbove, LastSequence, Candidate;
      NoBarrierYet(w);
      ReadCandidate(w, history, ok);
      ReadLosesAbove(w, DoLoader(w, history, ok));
    } else {
      hide Inv, LostAbove;
    }
  }

  lemma InFlightAbove(w: World)
    requires Inv(w)
    ensures w.inHand.Some? ==> !Loading(w.loader) && w.inHand.value.sequence > w.route.barrier
    ensures w.working.Some? ==> !Loading(w.loader) && w.working.value.sequence > w.route.barrier
  {
    assert w.inHand.Some? ==> w.inHand.value in Pipeline(w);
    assert w.working.Some? ==> w.working.value in Pipeline(w);
  }

  /** A step that discards nothing and leaves the buffer and the loader alone. */
  lemma NothingMoreLost(w: World, w': World)
    requires LostAbove(w) && w'.lost == w.lost && w'.loader == w.loader
    requires w'.route.barrier == w.route.barrier && w'.route.buffer == w.route.buffer
    requires w'.route.mode == w.route.mode || w'.route.mode == Closed
    ensures LostAbove(w')
  {
  }

  lemma StepLosesAbove(w: World, step: Step)
    requires Inv(w) && LostAbove(w)
    ensures LostAbove(Do(w, step))
  {
    InFlightAbove(w);
    hide Inv, LostAbove, Loading;
    var w' := Do(w, step);
    match step
    case Arrive(n) =>
      if w.inHand.None? && n.sequence > LastArrival(w.arrived) {
        ArriveLosesAbove(w, n);
      }
    case LoaderStep(history, ok) =>
      LoaderLosesAbove(w, history, ok);
      NothingMoreLost(DoLoader(w, history, ok), w');
    case SendInHand =>
      if w'.lost == w.lost {
        NothingMoreLost(w, w');
      } else {
        AfterLoading(w, w', [w.inHand.value]);
      }
    case WorkerPublish(_) =>
      if w'.lost == w.lost {
        NothingMoreLost(w, w');
      } else {
        AfterLoading(w, w', [w.working.value]);
      }
    case _ => NothingMoreLost(w, w');
  }

  lemma {:induction false} LostLiesAbove(w: World, steps: seq<Step>)
    requires Initial(w)
    ensures LostAbove(Run(w, steps))
  {
    if steps == [] {
    } else {
      LostLiesAbove(w, steps[..|steps| - 1]);
      RunKeeps(w, steps[..|steps| - 1]);
      StepLosesAbove(Run(w, steps[..|steps| - 1]), steps[|steps| - 1]);
    }
  }

  /** Published notifications are arrivals above the barrier, each once and in arrival
      order, in every run; nothing above the barrier is missing unless it was discarded. */
  lemma {:induction false} PublishedInOrder(w: World, steps: seq<Step>)
    requires Initial(w)
    ensures var end := Run(w, steps);
            && Increasing(end.published)
            && (forall n :: n in end.published ==> n in end.arrived && n.sequence > end.route.barrier)
            && (forall n :: n in end.arrived && n.sequence > end.route.barrier ==> n in Pipeline(end) || n in end.lost)
  {
    RunKeeps(w, steps);
    var end := Run(w, steps);
    assert end.published <= Pipeline(end);
  }

  /** The published notifications followed by those in flight are exactly the arrivals
      above the barrier if and only if nothing was discarded. */
  lemma {:induction false} ExactIffNothingLost(w: World, steps: seq<Step>)
    requires Initial(w)
    ensures var end := Run(w, steps);
            && (Pipeline(end) == Above(end.arrived, end.route.barrier) <==> end.lost == [])
            && (end.lost == [] ==> end.published <= Above(end.arrived, end.route.barrier))
  {
    RunKeeps(w, steps);
    LostLiesAbove(w, steps);
    hide Run;
    ExactAt(Run(w, steps));
  }

  lemma ExactAt(w: World)
    requires Inv(w) && LostAbove(w)
    ensures Pipeline(w) == Above(w.arrived, w.route.barrier) <==> w.lost == []
    ensures w.lost == [] ==> w.published <= Above(w.arrived, w.route.barrier)
  {
    AboveFacts(w.arrived, w.route.barrier);
    if w.lost == [] {
      IncreasingIsUnique(Pipeline(w), Above(w.arrived, w.route.barrier));
    } else {
      var n := w.lost[0];
      assert n in w.lost && n in w.arrived && n !in Pipeline(w);
      assert n.sequence > w.route.barrier;
    }
    assert w.published <= Pipeline(w);
  }

  /** The guards under which a step discards a notification. */
  predicate Discards(w: World, step: Step) {
    match step
    case Arrive(n) =>
      && w.inHand.None? && n.sequence > LastArrival(w.arrived)
      && (w.route.mode == Closed || (w.route.mode == Buffering && |w.route.buffer| >= MAX_BUFFERED))
    case SendInHand => w.inHand.Some? && |w.route.notify| >= QUEUE_CAPACITY
    case WorkerPublish(ok) => w.working.Some? && !ok
    case LoaderStep(_, ok) => Post(w.loader) != [] && !ok
    case _ => false
  }

  lemma StepDiscards(w: World, step: Step)
    ensures Discards(w, step) ==> Do(w, step).lost != []
    ensures !Discards(w, step) ==> Do(w, step).lost == w.lost
    ensures w.lost != [] ==> Do(w, step).lost != []
  {
  }

  /** Some step of the run met its guard. */
  predicate DiscardsIn(w: World, steps: seq<Step>) {
    steps != [] &&
    var init := steps[..|steps| - 1];
    DiscardsIn(w, init) || Discards(Run(w, init), steps[|steps| - 1])
  }

  /** A run has lost something exactly when one of its steps met such a guard. */
  lemma {:induction false} LostExactlyWhen(w: World, steps: seq<Step>)
    requires Initial(w)
    ensures Run(w, steps).lost != [] <==> DiscardsIn(w, steps)
  {
    if steps == [] {
    } else {
      LostExactlyWhen(w, steps[..|steps| - 1]);
      StepDiscards(Run(w, steps[..|steps| - 1]), steps[|steps| - 1]);
    }
  }

  /** A route that is not being closed has lost nothing, and once the load is over and
      the queue is empty everything above the barrier has been published. */
  lemma {:induction false} OpenRoutePublishesAll(w: World, steps: seq<Step>)
    requires Initial(w) && !Run(w, steps).closing
    ensures Run(w, steps).lost == []
    ensures var end := Run(w, steps);
            end.loader.Serving? && end.working.None? && end.route.notify == [] && end.inHand.None? ==>
              end.published == Above(end.arrived, end.route.barrier)
  {
    RunKeeps(w, steps);
    ExactIffNothingLost(w, steps);
  }

  lemma {:induction false} AboveZeroIsAll(s: seq<Notification>)
    requires forall n :: n in s ==> n.sequence > 0
    ensures Above(s, 0) == s
  {
    if s == [] {
    } else {
      AboveZeroIsAll(s[..|s| - 1]);
      assert s == s[..|s| - 1] + [s[|s| - 1]];
    }
  }

  lemma {:induction false} DrainKeepsBarrier(steps: seq<Step>)
    ensures Run(InitialDrain(), steps).route.barrier == 0
    ensures !Loading(Run(InitialDrain(), steps).loader)
  {
    if steps == [] {
    } else {
      DrainKeepsBarrier(steps[..|steps| - 1]);
    }
  }

  /** Draining without a barrier publishes every arrival. */
  lemma {:induction false} DrainPublishesAll(steps: seq<Step>)
    requires !Run(InitialDrain(), steps).closing
    ensures Pipeline(Run(InitialDrain(), steps)) == Run(InitialDrain(), steps).arrived
  {
    RunKeeps(InitialDrain(), steps);
    DrainKeepsBarrier(steps);
    ExactIffNothingLost(InitialDrain(), steps);
    AboveZeroIsAll(Run(InitialDrain(), steps).arrived);
  }

  /** Everything the barrier discards had arrived before the confirming thread/read was
      issued: nothing newer than the replayed history is lost. */
  lemma {:induction false} DroppedBeforeConfirmingRead(w: World, steps: seq<Step>, n: Notification)
    requires Initial(w)
    requires var end := Run(w, steps);
             !Loading(end.loader) && n in end.arrived && n.sequence <= end.route.barrier
    ensures var end := Run(w, steps);
            end.confirmedAt <= |end.arrived| && n in end.arrived[..end.confirmedAt]
  {
    RunKeeps(w, steps);
  }

  // ----- the accepted history is stable

  /** Everything that arrived between the two ends of the round had been discarded by its end;
      on a route that discards nothing, nothing arrived. */
  ghost predicate Silent(r: Round, arrived: seq<Notification>, lost: seq<Notification>) {
    && r.since <= r.until <= |arrived|
    && r.dropped <= |lost|
    && forall i :: r.since <= i < r.until ==> arrived[i] in lost[..r.dropped]
  }

  /** The round returned the same history as the one before it, and was silent. */
  ghost predicate Stable(rounds: seq<Round>, k: nat, arrived: seq<Notification>, lost: seq<Notification>) {
    && 0 < k < |rounds|
    && rounds[k].reply == rounds[k - 1].reply
    && Silent(rounds[k], arrived, lost)
  }

  /** No round before the given one was stable. */
  ghost predicate Unstable(rounds: seq<Round>, to: int, arrived: seq<Notification>, lost: seq<Notification>) {
    forall k: nat :: k < to && k < |rounds| ==> !Stable(rounds, k, arrived, lost)
  }

  /** The barrier is the newest notification kept when the round began. */
  ghost predicate Newest(since: nat, arrived: seq<Notification>, kept: seq<Notification>, barrier: nat) {
    && since <= |arrived|
    && (forall i :: 0 <= i < since && arrived[i] in kept ==> arrived[i].sequence <= barrier)
    && (forall i :: since <= i < |arrived| ==> arrived[i].sequence > barrier)
    && (barrier == 0 || exists i :: 0 <= i < since && arrived[i].sequence == barrier)
  }

  ghost predicate Fits(rounds: seq<Round>, arrived: seq<Notification>, lost: seq<Notification>) {
    forall k :: 0 <= k < |rounds| ==> rounds[k].since <= rounds[k].until <= |arrived| && rounds[k].dropped <= |lost|
  }

  predicate Accepted(l: Loader) {
    l.Accept? || l.Replay? || l.Serving?
  }

  function LastReply(rounds: seq<Round>): Option<int> {
    if rounds == [] then None else Some(rounds[|rounds| - 1].reply)
  }

  /** What the loader holds agrees with what was observed. */
  ghost predicate Watching(w: World) {
    match w.loader
    case BeforeRead(read, previous) => read == |w.rounds| && previous == LastReply(w.rounds)
    case IssueRead(read, previous, before) => UnderWay(w, read, previous, before)
    case AwaitRead(read, previous, before, _) => UnderWay(w, read, previous, before)
    case AfterRead(read, previous, before, _, response) => UnderWay(w, read, previous, before) && response == w.reading.reply
    case Confirm(read, previous, before, after, _, response) =>
      && UnderWay(w, read, previous, before)
      && response == w.reading.reply
      && before <= after
      && (before < after ==> BufferedSince(w.route, before))
    case _ => true
  }

  ghost predicate UnderWay(w: World, read: nat, previous: Option<int>, before: nat) {
    && read == |w.rounds| < MAX_STABLE_READS
    && previous == LastReply(w.rounds)
    && Newest(w.reading.since, w.arrived, w.route.buffer, before)
  }

  /** The first stable round is the accepted one, and until there is one the load goes on. */
  ghost predicate Judged(w: World) {
    && |w.rounds| <= MAX_STABLE_READS
    && Fits(w.rounds, w.arrived, w.lost)
    && Unstable(w.rounds, |w.rounds| - 1, w.arrived, w.lost)
    && (Accepted(w.loader) ==> w.rounds != [] && Stable(w.rounds, |w.rounds| - 1, w.arrived, w.lost))
    && (Loading(w.loader) && !w.loader.Accept? ==> Unstable(w.rounds, |w.rounds|, w.arrived, w.lost))
  }

  ghost predicate Steady(w: World) {
    Watching(w) && Judged(w)
  }

  lemma SilentGrows(r: Round, arrived: seq<Notification>, lost: seq<Notification>, more: seq<Notification>, dropped: seq<Notification>)
    requires r.since <= r.until <= |arrived| && r.dropped <= |lost|
    ensures Silent(r, arrived + more, lost + dropped) <==> Silent(r, arrived, lost)
  {
    assert (lost + dropped)[..r.dropped] == lost[..r.dropped];
    assert forall i :: 0 <= i < |arrived| ==> (arrived + more)[i] == arrived[i];
  }

  lemma StableGrows(rounds: seq<Round>, k: nat, arrived: seq<Notification>, lost: seq<Notification>, more: seq<Notification>, dropped: seq<Notification>)
    requires Fits(rounds, arrived, lost)
    ensures Stable(rounds, k, arrived + more, lost + dropped) <==> Stable(rounds, k, arrived, lost)
  {
    if 0 < k < |rounds| {
      SilentGrows(rounds[k], arrived, lost, more, dropped);
    }
  }

  lemma JudgedGrows(w: World, w': World, more: seq<Notification>, dropped: seq<Notification>)
    requires Judged(w) && w'.rounds == w.rounds && w'.arrived == w.arrived + more && w'.lost == w.lost + dropped
    requires Accepted(w'.loader) ==> Accepted(w.loader)
    requires Loading(w'.loader) && !w'.loader.Accept? ==> Loading(w.loader) && !w.loader.Accept?
    ensures Judged(w')
  {
    hide Stable, Loading;
    forall k: nat
      ensures Stable(w.rounds, k, w'.arrived, w'.lost) <==> Stable(w.rounds, k, w.arrived, w.lost)
    {
      StableGrows(w.rounds, k, w.arrived, w.lost, more, dropped);
    }
  }

  /** While loading, every arrival is buffered or discarded, never both. */
  lemma BufferedOrLost(w: World)
    requires Inv(w) && Loading(w.loader)
    ensures Increasing(w.route.buffer) && Increasing(w.arrived)
    ensures forall n :: n in w.route.buffer ==> n in w.arrived && n !in w.lost
    ensures forall n :: n in w.arrived ==> n in w.route.buffer || n in w.lost
  {
    assert One(w.working) == [] && Post(w.loader) == [] && One(w.inHand) == [];
    assert Pipeline(w) == w.route.buffer;
  }

  /** The two sequence reads and the last look at the buffer notice every arrival that was kept. */
  lemma SilentExactly(arrived: seq<Notification>, buffer: seq<Notification>, lost: seq<Notification>, reading: Round, before: nat)
    requires Newest(reading.since, arrived, buffer, before)
    requires forall n :: n in buffer ==> n in arrived && n !in lost
    requires forall n :: n in arrived ==> n in buffer || n in lost
    ensures Silent(reading.(until := |arrived|, dropped := |lost|), arrived, lost) <==> !exists n :: n in buffer && n.sequence > before
  {
    var r := reading.(until := |arrived|, dropped := |lost|);
    assert lost[..|lost|] == lost;
    if Silent(r, arrived, lost) {
      forall n | n in buffer
        ensures n.sequence <= before
      {
        var i :| 0 <= i < |arrived| && arrived[i] == n;
      }
    } else {
      var i :| reading.since <= i < |arrived| && arrived[i] !in lost;
      assert arrived[i] in buffer && arrived[i].sequence > before;
    }
  }

  lemma NewestStart(arrived: seq<Notification>, buffer: seq<Notification>)
    requires Increasing(buffer) && forall n :: n in buffer ==> n in arrived
    ensures Newest(|arrived|, arrived, buffer, if buffer == [] then 0 else buffer[|buffer| - 1].sequence)
  {
    if buffer != [] {
      var last := buffer[|buffer| - 1];
      assert last in buffer;
      var i :| 0 <= i < |arrived| && arrived[i] == last;
      assert arrived[i].sequence == last.sequence;
    }
  }

  lemma NewestGrows(since: nat, arrived: seq<Notification>, kept: seq<Notification>, more: seq<Notification>, barrier: nat, n: Notification)
    requires Newest(since, arrived, kept, barrier) && n.sequence > barrier && n !in arrived && (more == [] || more == [n])
    ensures Newest(since, arrived + [n], kept + more, barrier)
  {
    var longer := arrived + [n];
    assert forall i :: 0 <= i < |arrived| ==> longer[i] == arrived[i];
    if barrier != 0 {
      var i :| 0 <= i < since && arrived[i].sequence == barrier;
      assert longer[i].sequence == barrier;
    }
  }

  /** What an arrival does to the observed parts. */
  lemma ArriveParts(w: World, n: Notification)
    ensures var w' := DoArrive(w, n);
      && w'.arrived == w.arrived + [n] && w'.rounds == w.rounds && w'.reading == w.reading && w'.loader == w.loader
      && (w'.route.buffer == w.route.buffer + [] || w'.route.buffer == w.route.buffer + [n])
      && (w'.lost == w.lost + [] || w'.lost == w.lost + [n])
  {
    assert w.route.buffer + [] == w.route.buffer && w.lost + [] == w.lost;
  }

  lemma UnderWayArrives(w: World, n: Notification, read: nat, previous: Option<int>, before: nat)
    requires (forall m :: m in w.arrived ==> m.sequence < n.sequence) && n.sequence > 0 && UnderWay(w, read, previous, before)
    ensures UnderWay(DoArrive(w, n), read, previous, before)
  {
    ArriveParts(w, n);
    hide DoArrive;
    var more := if DoArrive(w, n).route.buffer == w.route.buffer + [] then [] else [n];
    NewestGrows(w.reading.since, w.arrived, w.route.buffer, more, before, n);
  }

  lemma BufferedSinceStays(r: State, more: State, sequence: nat)
    requires r.buffer <= more.buffer && BufferedSince(r, sequence)
    ensures BufferedSince(more, sequence)
  {
  }

  lemma ArriveSteady(w: World, n: Notification)
    requires Inv(w) && Steady(w) && w.inHand.None? && n.sequence > LastArrival(w.arrived)
    ensures Steady(DoArrive(w, n))
  {
    LastIsGreatest(w);
    ArriveParts(w, n);
    hide Inv, UnderWay, Judged, DoArrive, BufferedSince;
    var w' := DoArrive(w, n);
    JudgedGrows(w, w', [n], if w'.lost == w.lost + [] then [] else [n]);
    match w.loader
    case IssueRead(read, previous, before) => UnderWayArrives(w, n, read, previous, before);
    case AwaitRead(read, previous, before, _) => UnderWayArrives(w, n, read, previous, before);
    case AfterRead(read, previous, before, _, _) => UnderWayArrives(w, n, read, previous, before);
    case Confirm(read, previous, before, after, _, _) =>
      UnderWayArrives(w, n, read, previous, before);
      if before < after {
        BufferedSinceStays(w.route, w'.route, before);
      }
    case _ =>
  }

  /** The reads before the round is judged. */
  lemma ReadWatched(w: World, history: int, ok: bool)
    requires Watching(w) && (w.loader.BeforeRead? || w.loader.IssueRead? || w.loader.AwaitRead? || w.loader.AfterRead?)
    requires |w.rounds| <= MAX_STABLE_READS && w.route.barrier == 0 && Candidate(w.loader) <= LastSequence(w.route)
    requires Newest(|w.arrived|, w.arrived, w.route.buffer, LastSequence(w.route))
    ensures var w' := Do(w, LoaderStep(history, ok));
      && Watching(w')
      && w'.rounds == w.rounds && w'.arrived == w.arrived && w'.lost == w.lost
      && !Accepted(w'.loader)
  {
    hide Newest;
    if w.loader.AfterRead? && w.loader.before < LastSequence(w.route) {
      assert w.route.buffer[|w.route.buffer| - 1] in w.route.buffer;
    }
  }

  lemma ReadSteady(w: World, history: int, ok: bool)
    requires Inv(w) && LostAbove(w) && Steady(w) && (w.loader.BeforeRead? || w.loader.IssueRead? || w.loader.AwaitRead? || w.loader.AfterRead?)
    ensures Steady(Do(w, LoaderStep(history, ok)))
  {
    hide Inv, LostAbove, Judged, Newest, Increasing, Do, Candidate, Watching;
    NoBarrierYet(w);
    BufferedOrLost(w);
    FewRounds(w);
    NewestStart(w.arrived, w.route.buffer);
    ReadWatched(w, history, ok);
    assert w.lost + [] == w.lost && w.arrived + [] == w.arrived;
    JudgedGrows(w, Do(w, LoaderStep(history, ok)), [], []);
  }

  lemma FewRounds(w: World)
    requires Judged(w)
    ensures |w.rounds| <= MAX_STABLE_READS
    ensures Loading(w.loader) && !w.loader.Accept? ==> Unstable(w.rounds, |w.rounds|, w.arrived, w.lost)
    ensures Fits(w.rounds, w.arrived, w.lost)
  {
  }

  /** The loader accepts the round it has just judged exactly when it is stable. */
  lemma ConfirmWatched(w: World, history: int, ok: bool, r: Round)
    requires Watching(w) && w.loader.Confirm? && r == w.reading.(until := |w.arrived|, dropped := |w.lost|)
    requires Silent(r, w.arrived, w.lost) <==> !BufferedSince(w.route, w.loader.before)
    ensures var w' := Do(w, LoaderStep(history, ok));
      && w'.rounds == w.rounds + [r] && w'.arrived == w.arrived && w'.lost == w.lost
      && Watching(w')
      && (if LastReply(w.rounds) == Some(r.reply) && Silent(r, w.arrived, w.lost) then w'.loader.Accept? else w'.loader.BeforeRead?)
  {
    hide Silent, Newest, BufferedSince;
  }

  lemma ConfirmJudged(w: World, w': World, r: Round)
    requires w'.rounds == w.rounds + [r] && w'.arrived == w.arrived && w'.lost == w.lost && |w.rounds| < MAX_STABLE_READS
    requires Fits(w.rounds, w.arrived, w.lost) && r.since <= r.until <= |w.arrived| && r.dropped <= |w.lost|
    requires Unstable(w.rounds, |w.rounds|, w.arrived, w.lost)
    requires if LastReply(w.rounds) == Some(r.reply) && Silent(r, w.arrived, w.lost) then w'.loader.Accept? else w'.loader.BeforeRead?
    ensures Judged(w')
  {
    RoundJudged(w.rounds, r, w.arrived, w.lost);
    hide Silent, Stable;
  }

  lemma ConfirmSteady(w: World, history: int, ok: bool)
    requires Inv(w) && Steady(w) && w.loader.Confirm?
    ensures Steady(Do(w, LoaderStep(history, ok)))
  {
    var r := w.reading.(until := |w.arrived|, dropped := |w.lost|);
    BufferedOrLost(w);
    FewRounds(w);
    hide Inv, Newest, Increasing, Judged, Do;
    SilentExactly(w.arrived, w.route.buffer, w.lost, w.reading, w.loader.before);
    hide Silent;
    ConfirmWatched(w, history, ok, r);
    NewestInside(w.reading.since, w.arrived, w.route.buffer, w.loader.before);
    ConfirmJudged(w, Do(w, LoaderStep(history, ok)), r);
  }

  lemma NewestInside(since: nat, arrived: seq<Notification>, kept: seq<Notification>, barrier: nat)
    requires Newest(since, arrived, kept, barrier)
    ensures since <= |arrived|
  {
  }

  /** One more round: the earlier verdicts stay, and the new one is as its definition says. */
  lemma RoundJudged(rounds: seq<Round>, r: Round, arrived: seq<Notification>, lost: seq<Notification>)
    requires Unstable(rounds, |rounds|, arrived, lost)
    ensures Unstable(rounds + [r], |rounds|, arrived, lost)
    ensures Stable(rounds + [r], |rounds|, arrived, lost) <==> LastReply(rounds) == Some(r.reply) && Silent(r, arrived, lost)
    ensures !Stable(rounds + [r], |rounds|, arrived, lost) ==> Unstable(rounds + [r], |rounds| + 1, arrived, lost)
  {
    hide Silent;
    var longer := rounds + [r];
    forall k: nat | k < |rounds|
      ensures Stable(longer, k, arrived, lost) <==> Stable(rounds, k, arrived, lost)
    {
      assert longer[k] == rounds[k];
    }
  }

  /** The loader after a barrier was accepted, and the steps of the other parties. */
  lemma LaterSteady(w: World, w': World)
    requires Judged(w) && (Accepted(w.loader) || !Loading(w.loader)) && w'.rounds == w.rounds && w.arrived == w'.arrived && w.lost <= w'.lost
    requires Accepted(w'.loader) ==> Accepted(w.loader)
    requires Loading(w'.loader) ==> w'.loader.Accept?
    ensures Steady(w')
  {
    JudgedGrows(w, w', [], w'.lost[|w.lost|..]);
  }

  /** A step that leaves the loader, the rounds and the buffer alone. */
  lemma OtherSteady(w: World, w': World)
    requires Steady(w) && w'.rounds == w.rounds && w'.reading == w.reading && w'.arrived == w.arrived && w.lost <= w'.lost
    requires w'.loader == w.loader && w'.route.buffer == w.route.buffer
    ensures Steady(w')
  {
    hide Judged, Newest;
    assert w'.arrived == w.arrived + [] && w'.lost == w.lost + w'.lost[|w.lost|..];
    JudgedGrows(w, w', [], w'.lost[|w.lost|..]);
  }

  lemma StepSteady(w: World, step: Step)
    requires Inv(w) && LostAbove(w) && Steady(w)
    ensures Steady(Do(w, step))
  {
    hide LostAbove, Inv, Judged, Watching;
    match step
    case Arrive(n) =>
      if w.inHand.None? && n.sequence > LastArrival(w.arrived) {
        ArriveSteady(w, n);
      }
    case LoaderStep(history, ok) =>
      if w.loader.Confirm? {
        ConfirmSteady(w, history, ok);
      } else if Loading(w.loader) && !w.loader.Accept? {
        ReadSteady(w, history, ok);
      } else {
        LaterSteady(w, Do(w, step));
      }
    case _ => OtherSteady(w, Do(w, step));
  }

  lemma {:induction false} SteadyRun(steps: seq<Step>)
    ensures Steady(Run(InitialLoad(), steps))
  {
    if steps == [] {
    } else {
      SteadyRun(steps[..|steps| - 1]);
      RunKeeps(InitialLoad(), steps[..|steps| - 1]);
      LostLiesAbove(InitialLoad(), steps[..|steps| - 1]);
      StepSteady(Run(InitialLoad(), steps[..|steps| - 1]), steps[|steps| - 1]);
    }
  }

  /** The barrier of an accepted round: the newest notification kept when the round began. */
  ghost predicate BarrierOf(r: Round, arrived: seq<Notification>, lost: seq<Notification>, barrier: nat) {
    && r.since <= |arrived| && r.dropped <= |lost|
    && (forall i :: 0 <= i < r.since ==> arrived[i].sequence <= barrier || arrived[i] in lost[..r.dropped])
    && (forall i :: r.since <= i < |arrived| ==> arrived[i].sequence > barrier)
    && (barrier == 0 || exists i :: 0 <= i < r.since && arrived[i].sequence == barrier)
  }

  function BarrierHeld(w: World): nat {
    if w.loader.Accept? then w.loader.barrier else w.route.barrier
  }

  ghost predicate Barred(w: World) {
    Accepted(w.loader) ==>
      w.rounds != [] && BarrierOf(w.rounds[|w.rounds| - 1], w.arrived, w.lost, BarrierHeld(w))
  }

  lemma BarrierOfGrows(r: Round, arrived: seq<Notification>, lost: seq<Notification>, barrier: nat, more: seq<Notification>, dropped: seq<Notification>)
    requires BarrierOf(r, arrived, lost, barrier) && forall n :: n in more ==> n.sequence > barrier
    ensures BarrierOf(r, arrived + more, lost + dropped, barrier)
  {
    var longer := arrived + more;
    assert (lost + dropped)[..r.dropped] == lost[..r.dropped];
    assert forall i :: 0 <= i < |arrived| ==> longer[i] == arrived[i];
    assert forall i :: |arrived| <= i < |longer| ==> longer[i] in more;
    if barrier != 0 {
      var i :| 0 <= i < r.since && arrived[i].sequence == barrier;
      assert longer[i].sequence == barrier;
    }
  }

  lemma BarredGrows(w: World, w': World, more: seq<Notification>, dropped: seq<Notification>)
    requires Barred(w) && w'.rounds == w.rounds && w'.arrived == w.arrived + more && w'.lost == w.lost + dropped
    requires Accepted(w'.loader) ==> Accepted(w.loader) && BarrierHeld(w') == BarrierHeld(w)
    requires Accepted(w'.loader) ==> forall n :: n in more ==> n.sequence > BarrierHeld(w)
    ensures Barred(w')
  {
    if Accepted(w'.loader) {
      BarrierOfGrows(w.rounds[|w.rounds| - 1], w.arrived, w.lost, BarrierHeld(w), more, dropped);
    }
    hide BarrierOf;
  }

  lemma BarrierBelowArrivals(w: World)
    requires Barred(w) && Accepted(w.loader) && forall n :: n in w.arrived ==> n.sequence <= LastArrival(w.arrived)
    ensures BarrierHeld(w) <= LastArrival(w.arrived)
  {
  }

  lemma NewestIsBarrier(arrived: seq<Notification>, buffer: seq<Notification>, lost: seq<Notification>, reading: Round, before: nat)
    requires Newest(reading.since, arrived, buffer, before) && forall n :: n in arrived ==> n in buffer || n in lost
    ensures BarrierOf(reading.(until := |arrived|, dropped := |lost|), arrived, lost, before)
  {
    assert lost[..|lost|] == lost;
    forall i | 0 <= i < reading.since
      ensures arrived[i].sequence <= before || arrived[i] in lost
    {
      assert arrived[i] in arrived;
    }
  }

  /** An accepted round has the barrier its first sequence read saw. */
  lemma ConfirmAccepts(w: World, history: int, ok: bool)
    requires w.loader.Confirm?
    ensures var w' := Do(w, LoaderStep(history, ok));
      && w'.rounds == w.rounds + [w.reading.(until := |w.arrived|, dropped := |w.lost|)]
      && w'.arrived == w.arrived && w'.lost == w.lost && !w'.loader.Replay? && !w'.loader.Serving?
      && (w'.loader.Accept? ==> BarrierHeld(w') == w.loader.before)
  {
    hide BufferedSince;
  }

  lemma ConfirmBarred(w: World, history: int, ok: bool)
    requires Inv(w) && Watching(w) && w.loader.Confirm?
    ensures Barred(Do(w, LoaderStep(history, ok)))
  {
    hide Inv, Increasing, Do, BarrierOf, Newest, BufferedSince, BarrierHeld;
    BufferedOrLost(w);
    NewestIsBarrier(w.arrived, w.route.buffer, w.lost, w.reading, w.loader.before);
    ConfirmAccepts(w, history, ok);
  }

  lemma LoaderHolds(w: World, history: int, ok: bool)
    requires !w.loader.Confirm?
    ensures var w' := Do(w, LoaderStep(history, ok));
      && w'.rounds == w.rounds && w'.arrived == w.arrived && w.lost <= w'.lost
      && (Accepted(w'.loader) ==> Accepted(w.loader) && BarrierHeld(w') == BarrierHeld(w))
  {
    hide Above, BufferedSince;
  }

  lemma LoaderBarred(w: World, history: int, ok: bool)
    requires Barred(w) && !w.loader.Confirm?
    ensures Barred(Do(w, LoaderStep(history, ok)))
  {
    hide Barred, Do, BarrierHeld;
    var w' := Do(w, LoaderStep(history, ok));
    LoaderHolds(w, history, ok);
    assert w'.arrived == w.arrived + [] && w'.lost == w.lost + w'.lost[|w.lost|..];
    BarredGrows(w, w', [], w'.lost[|w.lost|..]);
  }

  lemma ArriveBarred(w: World, n: Notification)
    requires Inv(w) && Barred(w) && n.sequence > LastArrival(w.arrived)
    ensures Barred(DoArrive(w, n))
  {
    hide Inv, Barred, DoArrive, BarrierHeld;
    LastIsGreatest(w);
    ArriveParts(w, n);
    ArriveBarrier(w, n);
    if Accepted(w.loader) {
      BarrierBelowArrivals(w);
    }
    var w' := DoArrive(w, n);
    BarredGrows(w, w', [n], if w'.lost == w.lost + [] then [] else [n]);
  }

  lemma StepBarred(w: World, step: Step)
    requires Inv(w) && Steady(w) && Barred(w)
    ensures Barred(Do(w, step))
  {
    hide Inv, Barred, DoArrive, Watching, Judged;
    var w' := Do(w, step);
    match step
    case Arrive(n) =>
      if w' != w {
        ArriveBarred(w, n);
      }
    case LoaderStep(history, ok) =>
      if w.loader.Confirm? {
        ConfirmBarred(w, history, ok);
      } else {
        LoaderBarred(w, history, ok);
      }
    case _ =>
      assert w'.arrived == w.arrived + [] && w'.lost == w.lost + w'.lost[|w.lost|..];
      BarredGrows(w, w', [], w'.lost[|w.lost|..]);
  }

  lemma ArriveBarrier(w: World, n: Notification)
    ensures BarrierHeld(DoArrive(w, n)) == BarrierHeld(w)
  {
  }

  lemma {:induction false} BarredRun(steps: seq<Step>)
    ensures Barred(Run(InitialLoad(), steps))
  {
    if steps == [] {
    } else {
      BarredRun(steps[..|steps| - 1]);
      RunKeeps(InitialLoad(), steps[..|steps| - 1]);
      SteadyRun(steps[..|steps| - 1]);
      StepBarred(Run(InitialLoad(), steps[..|steps| - 1]), steps[|steps| - 1]);
    }
  }

  /** A load accepts its barrier with the first round that returns the history of the round
      before and during which nothing that was kept arrived, and with no other; the barrier is
      the newest notification kept when that round began. */
  lemma {:induction false} AcceptsFirstStableRound(steps: seq<Step>)
    ensures var end := Run(InitialLoad(), steps);
            && |end.rounds| <= MAX_STABLE_READS
            && (forall k: nat :: k < |end.rounds| - 1 ==> !Stable(end.rounds, k, end.arrived, end.lost))
            && (Accepted(end.loader) ==>
                  && |end.rounds| >= 2
                  && Stable(end.rounds, |end.rounds| - 1, end.arrived, end.lost)
                  && BarrierOf(end.rounds[|end.rounds| - 1], end.arrived, end.lost, BarrierHeld(end)))
            && (Loading(end.loader) && !end.loader.Accept? ==>
                  forall k: nat :: k < |end.rounds| ==> !Stable(end.rounds, k, end.arrived, end.lost))
  {
    SteadyRun(steps);
    BarredRun(steps);
    hide Run, Watching, BarrierOf;
  }

  predicate AllOk(steps: seq<Step>) {
    forall i :: 0 <= i < |steps| && steps[i].LoaderStep? ==> steps[i].ok
  }

  ghost predicate FoundNone(w: World) {
    Unstable(w.rounds, |w.rounds|, w.arrived, w.lost)
  }

  lemma FoundNoneStays(w: World, w': World, more: seq<Notification>, dropped: seq<Notification>)
    requires Judged(w) && w'.rounds == w.rounds && w'.arrived == w.arrived + more && w'.lost == w.lost + dropped && FoundNone(w)
    ensures FoundNone(w')
  {
    hide Stable;
    forall k: nat
      ensures Stable(w.rounds, k, w'.arrived, w'.lost) <==> Stable(w.rounds, k, w.arrived, w.lost)
    {
      StableGrows(w.rounds, k, w.arrived, w.lost, more, dropped);
    }
  }

  /** How a load can come to fail when no call of its own does. */
  lemma FailingStep(w: World, step: Step)
    requires Phases(w) && Do(w, step).loader.LoadFailed? && (step.LoaderStep? ==> step.ok)
    ensures var w' := Do(w, step);
      && w'.rounds == w.rounds
      && w.arrived <= w'.arrived && w.lost <= w'.lost && (w.closing ==> w'.closing)
      && (w.loader.LoadFailed? || w'.closing || (w.loader.BeforeRead? && w.loader.read == MAX_STABLE_READS))
  {
  }

  /** Unless one of its calls failed or the route is being closed, a load fails only after
      four rounds none of which was stable. */
  lemma {:induction false} FailsForReason(steps: seq<Step>)
    requires AllOk(steps) && Run(InitialLoad(), steps).loader.LoadFailed? && !Run(InitialLoad(), steps).closing
    ensures |Run(InitialLoad(), steps).rounds| == MAX_STABLE_READS && FoundNone(Run(InitialLoad(), steps))
  {
    if steps == [] {
    } else {
      var init := steps[..|steps| - 1];
      var w, w' := Run(InitialLoad(), init), Run(InitialLoad(), steps);
      SteadyRun(init);
      RunKeeps(InitialLoad(), init);
      FailingStep(w, steps[|steps| - 1]);
      if w.loader.LoadFailed? {
        FailsForReason(init);
      }
      hide Run, Do, Stable, Newest, Phases;
      assert w'.arrived == w.arrived + w'.arrived[|w.arrived|..] && w'.lost == w.lost + w'.lost[|w.lost|..];
      FoundNoneStays(w, w', w'.arrived[|w.arrived|..], w'.lost[|w.lost|..]);
    }
  }

  /** A failed read ends the load, and a load that failed never serves again. */
  lemma {:induction false} FailureIsFinal(w: World, steps: seq<Step>, i: nat)
    requires i <= |steps| && Run(w, steps[..i]).loader.LoadFailed?
    ensures Run(w, steps).loader.LoadFailed?
    decreases |steps|
  {
    if i == |steps| {
      assert steps[..i] == steps;
    } else {
      var init := steps[..|steps| - 1];
      assert init[..i] == steps[..i];
      FailureIsFinal(w, init, i);
      hide Run;
    }
  }

  lemma FailedReadEndsLoad(w: World, history: int)
    requires w.loader.AwaitRead?
    ensures Do(w, LoaderStep(history, false)).loader.LoadFailed? && Do(w, LoaderStep(history, false)).rounds == w.rounds
  {
  }

  /** And after four such rounds it does fail, with its next step. */
  lemma {:induction false} GivesUpAfterFour(steps: seq<Step>, history: int, ok: bool)
    requires var end := Run(InitialLoad(), steps);
             Loading(end.loader) && |end.rounds| == MAX_STABLE_READS && FoundNone(end)
    ensures Do(Run(InitialLoad(), steps), LoaderStep(history, ok)).loader.LoadFailed?
  {
    SteadyRun(steps);
    hide Run, Stable, Newest;
  }

  // ----- closing is asynchronous, so an overflow can leave a gap

  function Numbered(k: nat): seq<Notification> {
    if k == 0 then [] else Numbered(k - 1) + [Notification(k, 0)]
  }

  function Filling(k: nat): seq<Step> {
    if k == 0 then [] else Filling(k - 1) + [Arrive(Notification(k, 0)), SendInHand]
  }

  lemma RunTwo(w: World, steps: seq<Step>, a: Step, b: Step)
    ensures Run(w, steps + [a, b]) == Do(Do(Run(w, steps), a), b)
  {
    var all := steps + [a, b];
    assert all[..|all| - 1] == steps + [a];
    assert (steps + [a])[..|steps|] == steps;
  }

  /** Live, with `notify` queued and nothing in flight. */
  function Queued(notify: seq<Notification>, arrived: seq<Notification>, published: seq<Notification>, lost: seq<Notification>): World {
    World(State(Live, 0, [], notify), arrived, None, None, Serving, published, lost, lost != [], 0, NO_ROUND, [])
  }

  lemma ArriveAndSend(
    notify: seq<Notification>, arrived: seq<Notification>, published: seq<Notification>, lost: seq<Notification>, n: Notification)
    requires n.sequence > LastArrival(arrived)
    ensures Do(Do(Queued(notify, arrived, published, lost), Arrive(n)), SendInHand) ==
            if |notify| < QUEUE_CAPACITY then Queued(notify + [n], arrived + [n], published, lost)
            else Queued(notify, arrived + [n], published, lost + [n])
  {
  }

  lemma TakeAndPublish(notify: seq<Notification>, arrived: seq<Notification>, published: seq<Notification>, lost: seq<Notification>)
    requires notify != []
    ensures Do(Do(Queued(notify, arrived, published, lost), WorkerTake), WorkerPublish(true)) ==
            Queued(notify[1..], arrived, published + [notify[0]], lost)
  {
  }

  lemma NumberedSnoc(k: nat)
    requires k > 0
    ensures Numbered(k) == Numbered(k - 1) + [Notification(k, 0)] && LastArrival(Numbered(k)) == k
    ensures Filling(k) == Filling(k - 1) + [Arrive(Notification(k, 0)), SendInHand]
  {
  }

  lemma StartsQueued()
    ensures Numbered(0) == [] && LastArrival([]) == 0 && Run(InitialLive(), Filling(0)) == Queued([], [], [], [])
  {
  }

  lemma {:induction false} QueueFills(k: nat)
    requires k <= QUEUE_CAPACITY
    ensures |Numbered(k)| == k && LastArrival(Numbered(k)) == k
    ensures Run(InitialLive(), Filling(k)) == Queued(Numbered(k), Numbered(k), [], [])
  {
    hide Do, Run, Queued, Numbered, Filling, LastArrival;
    if k == 0 {
      StartsQueued();
    } else {
      QueueFills(k - 1);
      NumberedSnoc(k);
      RunTwo(InitialLive(), Filling(k - 1), Arrive(Notification(k, 0)), SendInHand);
      ArriveAndSend(Numbered(k - 1), Numbered(k - 1), [], [], Notification(k, 0));
    }
  }

  /** With the live queue full one notification is discarded, and a later one is still
      accepted before the close that was requested takes effect. */
  lemma OverflowLeavesGap()
    ensures exists steps :: var end := Run(InitialLive(), steps);
              && end.route.mode == Live
              && Notification(257, 0) in end.lost
              && Notification(258, 0) in Pipeline(end)
  {
    hide Do, Run, Numbered, Filling;
    var w, a, b := InitialLive(), Notification(257, 0), Notification(258, 0);
    var full, all := Filling(QUEUE_CAPACITY), Numbered(QUEUE_CAPACITY);
    QueueFills(QUEUE_CAPACITY);
    RunTwo(w, full, Arrive(a), SendInHand);
    ArriveAndSend(all, all, [], [], a);
    var overflow := full + [Arrive(a), SendInHand];
    RunTwo(w, overflow, WorkerTake, WorkerPublish(true));
    TakeAndPublish(all, all + [a], [], [] + [a]);
    var drained := overflow + [WorkerTake, WorkerPublish(true)];
    RunTwo(w, drained, Arrive(b), SendInHand);
    ArriveAndSend(all[1..], all + [a], [] + [all[0]], [] + [a], b);
    var end := Run(w, drained + [Arrive(b), SendInHand]);
    assert end.route.notify[|end.route.notify| - 1] == b;
    assert a in end.lost;
  }
}
