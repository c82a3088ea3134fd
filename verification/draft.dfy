/** Publication of a draft Session's state. Two locks are involved: `pubMu` serialises the
    sections that publish, while `mu` protects the terminal Turn and the outstanding
    permissions, which permission requests change without holding `pubMu`.

    Every step below is one critical section of `mu` (or of the Session state's own lock),
    so a run interleaves prompts, native notifications and permission requests freely. */
module Draft {

  import opened Wrappers

  /** A Turn identity; 0 stands for the empty identity. */
  type Turn = nat

  datatype Status = Running | RequiresAction | Idle

  datatype Event = Published(turn: Turn, status: Status) | TerminalRecorded(turn: Turn)

  // ----- the mutable Session record

  predicate Outstanding(permissions: map<nat, Turn>, t: Turn) {
    exists k :: k in permissions && permissions[k] == t
  }

  predicate Admits(terminal: Turn, cancelled: bool, t: Turn) {
    t != 0 && !cancelled && terminal != t
  }

  class DraftSession {
    var terminalTurn: Turn
    var cancelRequested: bool
    var permissionCancels: map<nat, Turn>
    var nextPermission: nat

    constructor ()
      ensures terminalTurn == 0 && !cancelRequested && permissionCancels == map[] && nextPermission == 0
    {
      terminalTurn, cancelRequested, permissionCancels, nextPermission := 0, false, map[], 0;
    }

    /** The loop over the permission map, in whatever order the map yields its entries. */
    method HasPermissionLocked(activity: Turn) returns (found: bool)
      ensures found == Outstanding(permissionCancels, activity)
    {
      var todo := permissionCancels.Keys;
      while todo != {}
        invariant todo <= permissionCancels.Keys
        invariant forall k :: k in permissionCancels && k !in todo ==> permissionCancels[k] != activity
        decreases todo
      {
        var k :| k in todo;
        if permissionCancels[k] == activity {
          return true;
        }
        todo := todo - {k};
      }
      return false;
    }

    /** What a publishing section reads about its Turn under `mu`. */
    method Snapshot(activity: Turn) returns (terminal: bool, blocked: bool)
      ensures terminal == (terminalTurn == activity)
      ensures blocked == Outstanding(permissionCancels, activity)
    {
      terminal := terminalTurn == activity;
      blocked := HasPermissionLocked(activity);
    }

    method Register(activity: Turn) returns (token: Option<nat>)
      modifies this
      ensures terminalTurn == old(terminalTurn) && cancelRequested == old(cancelRequested)
      ensures token.Some? <==> old(Admits(terminalTurn, cancelRequested, activity))
      ensures token.None? ==> permissionCancels == old(permissionCancels) && nextPermission == old(nextPermission)
      ensures token.Some? ==>
                && token.value == old(nextPermission) + 1 == nextPermission
                && permissionCancels == old(permissionCancels)[token.value := activity]
    {
      if activity == 0 || cancelRequested || terminalTurn == activity {
        return None;
      }
      nextPermission := nextPermission + 1;
      permissionCancels := permissionCancels[nextPermission := activity];
      return Some(nextPermission);
    }

    method Unregister(token: nat)
      modifies this`permissionCancels
      ensures permissionCancels == old(permissionCancels) - {token}
    {
      permissionCancels := permissionCancels - {token};
    }
  }

  // ----- publishing sections and permission requests over one Session

  /** The holder of `pubMu` and what it has read so far. */
  datatype Section =
    | Free
    | Starting(turn: Turn)
    | StartRead(turn: Turn, terminal: bool, blocked: bool)
    | StartActive(turn: Turn, blocked: bool)
    | Completing(turn: Turn)
    | CompleteRecorded(turn: Turn)
    | CompleteCleared(turn: Turn)
    | Sending(token: nat)
    | SendRead(token: nat, terminal: bool, blocked: bool)
    | Preparing(turn: Turn)
    | PrepareRead(turn: Turn, refused: bool)

  /** What a permission request still has to publish. */
  datatype Due = Announce(turn: Turn) | Withdraw(turn: Turn)

  /** `seen` holds the Turns that have been active so far. */
  datatype World = World(
    terminal: Turn,
    active: Turn,
    seen: set<Turn>,
    cancelled: bool,
    permissions: map<nat, Turn>,
    next: nat,
    due: map<nat, Due>,
    pub: Section,
    log: seq<Event>)

  /** `Register` takes any Turn that has been active: a request read the active Turn in an earlier
      section, and it may have changed since. */
  datatype Step =
    | Register(turn: Turn)
    | Unregister(token: nat)
    | SetCancelled(cancelled: bool)
    | BeginStart(turn: Turn)
    | BeginComplete(turn: Turn)
    | BeginSend(token: nat)
    | BeginPrepare(turn: Turn)
    | Advance

  function NewSession(): World {
    World(0, 0, {}, false, map[], 0, map[], Free, [])
  }

  function LoadedRunning(t: Turn): World {
    World(0, t, {t}, false, map[], 0, map[], Free, [Published(t, Running)])
  }

  function LoadedIdle(t: Turn): World {
    World(t, 0, {}, false, map[], 0, map[], Free, [TerminalRecorded(t), Published(t, Idle)])
  }

  ghost predicate Initial(w: World) {
    w == NewSession() || exists t: Turn :: w == LoadedIdle(t) || (t != 0 && w == LoadedRunning(t))
  }

  function Do(w: World, step: Step): World {
    match step
    case Register(t) =>
      if t in w.seen && Admits(w.terminal, w.cancelled, t)
      then w.(next := w.next + 1, permissions := w.permissions[w.next + 1 := t], due := w.due[w.next + 1 := Announce(t)])
      else w
    case Unregister(k) =>
      if k in w.permissions && k !in w.due
      then w.(permissions := w.permissions - {k}, due := w.due[k := Withdraw(w.permissions[k])])
      else w
    case SetCancelled(c) => w.(cancelled := c)
    case BeginStart(t) => if w.pub.Free? && t != 0 then w.(pub := Starting(t)) else w
    case BeginComplete(t) => if w.pub.Free? && t != 0 then w.(pub := Completing(t)) else w
    case BeginSend(k) => if w.pub.Free? && k in w.due then w.(pub := Sending(k)) else w
    case BeginPrepare(t) => if w.pub.Free? && t != 0 then w.(pub := Preparing(t)) else w
    case Advance => DoAdvance(w)
  }

  /** The next critical section of whoever holds `pubMu`. */
  function DoAdvance(w: World): World {
    match w.pub
    case Free => w
    case Starting(t) => w.(pub := StartRead(t, w.terminal == t, Outstanding(w.permissions, t)))
    case StartRead(t, terminal, blocked) =>
      if terminal then w.(pub := Free) else w.(active := t, seen := w.seen + {t}, pub := StartActive(t, blocked))
    case StartActive(t, blocked) => Publish(w, t, if blocked then RequiresAction else Running)
    case Completing(t) => w.(terminal := t, log := w.log + [TerminalRecorded(t)], pub := CompleteRecorded(t))
    case CompleteRecorded(t) => w.(active := if w.active == t then 0 else w.active, pub := CompleteCleared(t))
    case CompleteCleared(t) => Publish(w, t, Idle)
    case Sending(k) =>
      if k in w.due
      then w.(pub := SendRead(k, w.terminal == w.due[k].turn, Outstanding(w.permissions, w.due[k].turn)))
      else w
    case SendRead(k, terminal, blocked) => if k in w.due then DoSend(w, k, terminal, blocked) else w
    case Preparing(t) => w.(pub := PrepareRead(t, w.terminal == t || w.cancelled))
    case PrepareRead(t, refused) =>
      if refused || (w.active != 0 && w.active != t) then w.(pub := Free) else w.(active := t, seen := w.seen + {t}, pub := Free)
  }

  function Publish(w: World, t: Turn, status: Status): World {
    w.(log := w.log + [Published(t, status)], pub := Free)
  }

  function DoSend(w: World, k: nat, terminal: bool, blocked: bool): World
    requires k in w.due
  {
    var due := w.due[k];
    var sent := w.(due := w.due - {k});
    if terminal || w.active != due.turn then sent.(pub := Free)
    else Publish(sent, due.turn, if due.Announce? || blocked then RequiresAction else Running)
  }

  function Run(w: World, steps: seq<Step>): World {
    if steps == [] then w else Do(Run(w, steps[..|steps| - 1]), steps[|steps| - 1])
  }

  // ----- reading the log

  function LastStatus(log: seq<Event>, t: Turn): Option<Status> {
    if log == [] then None
    else
      var e := log[|log| - 1];
      if e.Published? && e.turn == t then Some(e.status) else LastStatus(log[..|log| - 1], t)
  }

  function LastTerminal(log: seq<Event>): Turn {
    if log == [] then 0
    else if log[|log| - 1].TerminalRecorded? then log[|log| - 1].turn
    else LastTerminal(log[..|log| - 1])
  }

  lemma LogGrows(log: seq<Event>, e: Event)
    ensures forall t :: LastStatus(log + [e], t) == if e.Published? && e.turn == t then Some(e.status) else LastStatus(log, t)
    ensures LastTerminal(log + [e]) == if e.TerminalRecorded? then e.turn else LastTerminal(log)
  {
  }

  // ----- no active state follows the terminal one

  /** A running or requires_action update for a Turn is published only while that Turn is
      not the recorded terminal one; an idle update only while it is. */
  ghost predicate Orderly(log: seq<Event>) {
    forall i :: 0 <= i < |log| && log[i].Published? ==> (log[i].status == Idle <==> LastTerminal(log[..i]) == log[i].turn)
  }

  /** What the holder of `pubMu` knows: the terminal Turn and the active Turn cannot change
      behind its back. */
  ghost predicate Informed(terminal: Turn, active: Turn, due: map<nat, Due>, pub: Section) {
    match pub
    case Free => true
    case Starting(t) => t != 0
    case StartRead(t, isTerminal, _) => t != 0 && isTerminal == (terminal == t)
    case StartActive(t, _) => t != 0 && active == t && terminal != t
    case Completing(t) => t != 0
    case CompleteRecorded(t) => t != 0 && terminal == t
    case CompleteCleared(t) => t != 0 && terminal == t && active != t
    case Sending(k) => k in due
    case SendRead(k, isTerminal, _) => k in due && isTerminal == (terminal == due[k].turn)
    case Preparing(t) => t != 0
    case PrepareRead(t, refused) => t != 0 && (!refused ==> terminal != t)
  }

  /** Tokens are never reused, and what is due matches what is registered. */
  ghost predicate Tokens(permissions: map<nat, Turn>, next: nat, due: map<nat, Due>) {
    && (forall k :: k in permissions || k in due ==> 0 < k <= next)
    && (forall k :: k in due ==> due[k].turn != 0)
    && (forall k :: k in permissions ==> permissions[k] != 0)
    && (forall k :: k in due && due[k].Announce? ==> k in permissions && permissions[k] == due[k].turn)
    && (forall k :: k in due && due[k].Withdraw? ==> k !in permissions)
  }

  ghost predicate TerminalInv(w: World) {
    && w.terminal == LastTerminal(w.log)
    && Orderly(w.log)
    && (w.active != 0 && w.active == w.terminal ==> w.pub == CompleteRecorded(w.active))
    && Informed(w.terminal, w.active, w.due, w.pub)
    && Tokens(w.permissions, w.next, w.due)
  }

  lemma OrderlyGrows(log: seq<Event>, e: Event)
    requires Orderly(log) && (e.Published? ==> (e.status == Idle <==> LastTerminal(log) == e.turn))
    ensures Orderly(log + [e])
  {
    forall i | 0 <= i < |log + [e]|
      ensures (log + [e])[..i] == log[..i]
    {
    }
    assert log[..|log|] == log;
  }

  lemma TokensRegister(permissions: map<nat, Turn>, next: nat, due: map<nat, Due>, t: Turn)
    requires Tokens(permissions, next, due) && t != 0
    ensures Tokens(permissions[next + 1 := t], next + 1, due[next + 1 := Announce(t)])
  {
  }

  lemma TokensUnregister(permissions: map<nat, Turn>, next: nat, due: map<nat, Due>, k: nat)
    requires Tokens(permissions, next, due) && k in permissions && k !in due
    ensures Tokens(permissions - {k}, next, due[k := Withdraw(permissions[k])])
  {
  }

  lemma TokensSend(permissions: map<nat, Turn>, next: nat, due: map<nat, Due>, k: nat)
    requires Tokens(permissions, next, due)
    ensures Tokens(permissions, next, due - {k})
  {
  }

  /** An event appended to the log by the step from `w` to `w'`. */
  lemma TerminalLogs(w: World, w': World, e: Event)
    requires TerminalInv(w) && w'.log == w.log + [e]
    requires e.Published? ==> (e.status == Idle <==> w.terminal == e.turn)
    ensures Orderly(w'.log)
    ensures LastTerminal(w'.log) == if e.TerminalRecorded? then e.turn else w.terminal
  {
    LogGrows(w.log, e);
    OrderlyGrows(w.log, e);
  }

  lemma SendTerminal(w: World)
    requires TerminalInv(w) && w.pub.SendRead?
    ensures TerminalInv(DoAdvance(w))
  {
    var w', due := DoAdvance(w), w.due[w.pub.token];
    TokensSend(w.permissions, w.next, w.due, w.pub.token);
    if !w.pub.terminal && w.active == due.turn {
      TerminalLogs(w, w', Published(due.turn, if due.Announce? || w.pub.blocked then RequiresAction else Running));
    }
    hide Tokens, Orderly, LastTerminal;
  }

  lemma AdvanceTerminal(w: World)
    requires TerminalInv(w) && !w.pub.SendRead?
    ensures TerminalInv(DoAdvance(w))
  {
    hide Tokens, Orderly, LastTerminal;
    match w.pub
    case StartActive(t, blocked) => TerminalLogs(w, DoAdvance(w), Published(t, if blocked then RequiresAction else Running));
    case Completing(t) => TerminalLogs(w, DoAdvance(w), TerminalRecorded(t));
    case CompleteCleared(t) => TerminalLogs(w, DoAdvance(w), Published(t, Idle));
    case _ =>
  }

  lemma TerminalStep(w: World, step: Step)
    requires TerminalInv(w)
    ensures TerminalInv(Do(w, step))
  {
    match step {
      case Advance =>
        if w.pub.SendRead? {
          SendTerminal(w);
        } else {
          AdvanceTerminal(w);
        }
      case Register(t) =>
        if t in w.seen && Admits(w.terminal, w.cancelled, t) {
          TokensRegister(w.permissions, w.next, w.due, t);
        }
      case Unregister(k) =>
        if k in w.permissions && k !in w.due {
          TokensUnregister(w.permissions, w.next, w.due, k);
        }
      case _ =>
    }
    hide Tokens, Orderly, LastTerminal;
  }

  lemma {:induction false} TerminalRun(w: World, steps: seq<Step>)
    requires Initial(w)
    ensures TerminalInv(Run(w, steps))
  {
    if steps == [] {
      assert forall t: Turn :: LoadedIdle(t).log[..1] == [TerminalRecorded(t)];
    } else {
      TerminalRun(w, steps[..|steps| - 1]);
      TerminalStep(Run(w, steps[..|steps| - 1]), steps[|steps| - 1]);
    }
  }

  /** After an idle update for a Turn, no running or requires_action update for it follows
      until another Turn has been recorded as the terminal one. */
  lemma {:induction false} NothingActiveAfterIdle(w: World, steps: seq<Step>, i: nat, j: nat, t: Turn)
    requires Initial(w)
    requires var log := Run(w, steps).log;
             i < j < |log| && log[i] == Published(t, Idle) && log[j].Published? && log[j].turn == t && log[j].status != Idle
    ensures var log := Run(w, steps).log;
            exists k :: i < k < j && log[k].TerminalRecorded? && log[k].turn != t
  {
    TerminalRun(w, steps);
    var log := Run(w, steps).log;
    TerminalChanged(log, i, j, t);
  }

  lemma {:induction false} TerminalChanged(log: seq<Event>, i: nat, j: nat, t: Turn)
    requires i <= j <= |log| && LastTerminal(log[..i]) == t && LastTerminal(log[..j]) != t
    ensures exists k :: i <= k < j && log[k].TerminalRecorded? && log[k].turn != t
  {
    assert i < j;
    assert log[..j][..j - 1] == log[..j - 1];
    if log[j - 1].TerminalRecorded? && log[j - 1].turn != t {
    } else {
      TerminalChanged(log, i, j - 1, t);
    }
  }

  // ----- a completed Turn is announced

  /** Every recorded end is followed at once by the Turn's idle update, except the last one while
      its section is still under way; and an idle update follows nothing else. */
  ghost predicate Announced(log: seq<Event>, pub: Section) {
    && (forall i: nat :: i < |log| ==> AnnouncedAt(log, i, pub))
    && (Ending(pub) ==> log != [] && log[|log| - 1] == TerminalRecorded(pub.turn))
  }

  predicate Ending(pub: Section) {
    pub.CompleteRecorded? || pub.CompleteCleared?
  }

  ghost predicate AnnouncedAt(log: seq<Event>, i: nat, pub: Section)
    requires i < |log|
  {
    match log[i]
    case TerminalRecorded(t) => if i + 1 < |log| then log[i + 1] == Published(t, Idle) else Ending(pub) && pub.turn == t
    case Published(t, status) => status == Idle ==> i > 0 && log[i - 1] == TerminalRecorded(t)
  }

  lemma AnnounceSnoc(log: seq<Event>, pub: Section, e: Event, next: Section)
    requires Announced(log, pub)
    requires match e
             case TerminalRecorded(t) => next == CompleteRecorded(t) && !Ending(pub)
             case Published(t, status) => !Ending(next) && (if status == Idle then pub == CompleteCleared(t) else !Ending(pub))
    ensures Announced(log + [e], next)
  {
    var longer := log + [e];
    forall i: nat | i < |longer|
      ensures AnnouncedAt(longer, i, next)
    {
      assert i < |log| ==> longer[i] == log[i] && AnnouncedAt(log, i, pub);
      assert i + 1 < |log| ==> longer[i + 1] == log[i + 1];
      assert 0 < i < |log| ==> longer[i - 1] == log[i - 1];
    }
  }

  /** A section that appends nothing keeps its place. */
  lemma AnnounceStays(log: seq<Event>, pub: Section, next: Section)
    requires Announced(log, pub) && (next == pub || (!Ending(pub) && !Ending(next)) || (Ending(pub) && Ending(next) && next.turn == pub.turn))
    ensures Announced(log, next)
  {
    forall i: nat | i < |log|
      ensures AnnouncedAt(log, i, next)
    {
      assert AnnouncedAt(log, i, pub);
    }
  }

  lemma AnnounceAdvance(w: World)
    requires Announced(w.log, w.pub)
    ensures Announced(DoAdvance(w).log, DoAdvance(w).pub)
  {
    hide Announced, Outstanding;
    var w' := DoAdvance(w);
    match w.pub
    case StartActive(t, blocked) => AnnounceSnoc(w.log, w.pub, Published(t, if blocked then RequiresAction else Running), w'.pub);
    case Completing(t) => AnnounceSnoc(w.log, w.pub, TerminalRecorded(t), w'.pub);
    case CompleteCleared(t) => AnnounceSnoc(w.log, w.pub, Published(t, Idle), w'.pub);
    case SendRead(k, terminal, blocked) =>
      if w'.log == w.log {
        AnnounceStays(w.log, w.pub, w'.pub);
      } else {
        AnnounceSnoc(w.log, w.pub, Published(w.due[k].turn, if w.due[k].Announce? || blocked then RequiresAction else Running), w'.pub);
      }
    case _ => AnnounceStays(w.log, w.pub, w'.pub);
  }

  lemma AnnounceStep(w: World, step: Step)
    requires Announced(w.log, w.pub)
    ensures Announced(Do(w, step).log, Do(w, step).pub)
  {
    hide Announced, DoAdvance;
    if step.Advance? {
      AnnounceAdvance(w);
    } else {
      AnnounceStays(w.log, w.pub, Do(w, step).pub);
    }
  }

  /** In every run a Turn recorded as terminal is announced as idle before anything else is
      published, and only then. */
  lemma {:induction false} EndsAreAnnounced(w: World, steps: seq<Step>)
    requires Initial(w)
    ensures Announced(Run(w, steps).log, Run(w, steps).pub)
  {
    if steps == [] {
    } else {
      EndsAreAnnounced(w, steps[..|steps| - 1]);
      AnnounceStep(Run(w, steps[..|steps| - 1]), steps[|steps| - 1]);
    }
  }

  // ----- what is shown agrees with what is outstanding

  /** Some request, other than `except`, still has to publish for the Turn. */
  predicate DueFor(due: map<nat, Due>, t: Turn, except: nat) {
    exists k :: k in due && k != except && due[k].turn == t
  }

  /** The last published status of the Turn is requires_action exactly when one of its
      permissions is outstanding, or someone is still about to publish. */
  predicate Settled(w: World, t: Turn) {
    || (LastStatus(w.log, t) == Some(RequiresAction) <==> Outstanding(w.permissions, t))
    || DueFor(w.due, t, 0)
  }

  predicate Synced(w: World) {
    w.active == 0 || w.pub == StartActive(w.active, true) || w.pub == StartActive(w.active, false) || Settled(w, w.active)
  }

  /** A snapshot of `Outstanding` is current, or a later publisher will correct it. */
  ghost predicate Snapshots(w: World) {
    match w.pub
    case StartRead(t, _, blocked) => blocked == Outstanding(w.permissions, t) || DueFor(w.due, t, 0)
    case StartActive(t, blocked) => blocked == Outstanding(w.permissions, t) || DueFor(w.due, t, 0)
    case SendRead(k, _, blocked) =>
      k in w.due && (blocked == Outstanding(w.permissions, w.due[k].turn) || DueFor(w.due, w.due[k].turn, k))
    case _ => true
  }

  /** The one step that can leave the published state behind: a permission request makes an
      earlier Turn active again without publishing for it. */
  predicate Resurrects(w: World, step: Step) {
    step.Advance? && w.pub.PrepareRead? && !w.pub.refused && w.active == 0 && !Settled(w, w.pub.turn)
  }

  ghost predicate SyncInv(w: World) {
    TerminalInv(w) && Synced(w) && Snapshots(w)
  }

  lemma RegisterFacts(permissions: map<nat, Turn>, next: nat, due: map<nat, Due>, t: Turn)
    requires Tokens(permissions, next, due)
    ensures var permissions', due' := permissions[next + 1 := t], due[next + 1 := Announce(t)];
            && (forall u :: u != t ==> (Outstanding(permissions', u) <==> Outstanding(permissions, u)))
            && (forall u, e :: DueFor(due, u, e) ==> DueFor(due', u, e))
            && (forall e: nat :: e <= next ==> DueFor(due', t, e))
  {
    var permissions', due' := permissions[next + 1 := t], due[next + 1 := Announce(t)];
    forall u | u != t && Outstanding(permissions, u)
      ensures Outstanding(permissions', u)
    {
      var k :| k in permissions && permissions[k] == u;
      assert k in permissions' && permissions'[k] == u;
    }
    forall u, e | DueFor(due, u, e)
      ensures DueFor(due', u, e)
    {
      var k :| k in due && k != e && due[k].turn == u;
      assert k in due' && due'[k].turn == u;
    }
    assert next + 1 in due' && due'[next + 1].turn == t;
  }

  lemma UnregisterFacts(permissions: map<nat, Turn>, due: map<nat, Due>, k: nat)
    requires k in permissions && k !in due && k > 0
    ensures var permissions', due' := permissions - {k}, due[k := Withdraw(permissions[k])];
            && (forall u :: u != permissions[k] ==> (Outstanding(permissions', u) <==> Outstanding(permissions, u)))
            && (forall u, e :: DueFor(due, u, e) ==> DueFor(due', u, e))
            && (forall e: nat :: e != k ==> DueFor(due', permissions[k], e))
  {
    var permissions', due' := permissions - {k}, due[k := Withdraw(permissions[k])];
    forall u | u != permissions[k] && Outstanding(permissions, u)
      ensures Outstanding(permissions', u)
    {
      var j :| j in permissions && permissions[j] == u;
      assert j in permissions' && permissions'[j] == u;
    }
    forall u, e | DueFor(due, u, e)
      ensures DueFor(due', u, e)
    {
      var j :| j in due && j != e && due[j].turn == u;
      assert j in due' && due'[j].turn == u;
    }
    assert k in due' && due'[k].turn == permissions[k];
  }

  lemma SendFacts(due: map<nat, Due>, k: nat)
    requires k in due
    ensures forall u :: u != due[k].turn && DueFor(due, u, 0) ==> DueFor(due - {k}, u, 0)
    ensures DueFor(due, due[k].turn, k) && 0 !in due ==> DueFor(due - {k}, due[k].turn, 0)
  {
    forall u | u != due[k].turn && DueFor(due, u, 0)
      ensures DueFor(due - {k}, u, 0)
    {
      var j :| j in due && j != 0 && due[j].turn == u;
      assert j in due - {k};
    }
    if DueFor(due, due[k].turn, k) && 0 !in due {
      var j :| j in due && j != k && due[j].turn == due[k].turn;
      assert j in due - {k};
    }
  }

  lemma SyncRegister(w: World, t: Turn)
    requires SyncInv(w)
    ensures Synced(Do(w, Register(t))) && Snapshots(Do(w, Register(t)))
  {
    if t in w.seen && Admits(w.terminal, w.cancelled, t) {
      RegisterFacts(w.permissions, w.next, w.due, t);
      assert DueFor(Do(w, Register(t)).due, t, 0);
      hide Outstanding, DueFor, LastStatus, LastTerminal, Orderly;
    }
  }

  lemma SyncUnregister(w: World, k: nat)
    requires SyncInv(w)
    ensures Synced(Do(w, Unregister(k))) && Snapshots(Do(w, Unregister(k)))
  {
    if k in w.permissions && k !in w.due {
      UnregisterFacts(w.permissions, w.due, k);
      hide Outstanding, DueFor, LastStatus, LastTerminal, Orderly;
    }
  }

  lemma SyncSend(w: World)
    requires SyncInv(w) && w.pub.SendRead?
    ensures Synced(DoAdvance(w)) && Snapshots(DoAdvance(w))
  {
    var k := w.pub.token;
    var due, w' := w.due[k], DoAdvance(w);
    SendFacts(w.due, k);
    assert due.Announce? ==> Outstanding(w.permissions, due.turn);
    if !w.pub.terminal && w.active == due.turn {
      LogGrows(w.log, Published(due.turn, if due.Announce? || w.pub.blocked then RequiresAction else Running));
    }
    hide Outstanding, DueFor, LastStatus, LastTerminal, Orderly, Tokens;
  }

  lemma SyncAdvance(w: World)
    requires SyncInv(w) && !w.pub.SendRead? && !Resurrects(w, Advance)
    ensures Synced(DoAdvance(w)) && Snapshots(DoAdvance(w))
  {
    hide Outstanding, DueFor, LastStatus, LastTerminal, Orderly, Tokens;
    match w.pub
    case StartActive(t, blocked) => LogGrows(w.log, Published(t, if blocked then RequiresAction else Running));
    case Completing(t) => LogGrows(w.log, TerminalRecorded(t));
    case CompleteCleared(t) => LogGrows(w.log, Published(t, Idle));
    case _ =>
  }

  lemma SyncStep(w: World, step: Step)
    requires SyncInv(w) && !Resurrects(w, step)
    ensures SyncInv(Do(w, step))
  {
    TerminalStep(w, step);
    match step
    case Register(t) => SyncRegister(w, t);
    case Unregister(k) => SyncUnregister(w, k);
    case Advance =>
      if w.pub.SendRead? {
        SyncSend(w);
      } else {
        SyncAdvance(w);
      }
    case _ =>
  }

  /** Some step of the run makes an unsettled Turn active again. */
  predicate ResurrectsIn(w: World, steps: seq<Step>) {
    steps != [] &&
    var init := steps[..|steps| - 1];
    ResurrectsIn(w, init) || Resurrects(Run(w, init), steps[|steps| - 1])
  }

  lemma {:induction false} SyncRun(w: World, steps: seq<Step>)
    requires Initial(w) && !ResurrectsIn(w, steps)
    ensures SyncInv(Run(w, steps))
  {
    if steps == [] {
      TerminalRun(w, []);
    } else {
      SyncRun(w, steps[..|steps| - 1]);
      SyncStep(Run(w, steps[..|steps| - 1]), steps[|steps| - 1]);
    }
  }

  /** While a Turn is active and nobody is about to publish for it, its last published
      status is requires_action exactly when one of its permissions is outstanding. */
  lemma {:induction false} ShownIsOutstanding(w: World, steps: seq<Step>)
    requires Initial(w) && !ResurrectsIn(w, steps)
    ensures var end := Run(w, steps);
            end.active != 0 && end.pub == Free && !DueFor(end.due, end.active, 0) ==>
              (LastStatus(end.log, end.active) == Some(RequiresAction) <==> Outstanding(end.permissions, end.active))
  {
    SyncRun(w, steps);
  }

  predicate SyncedThroughout(w: World, steps: seq<Step>) {
    Synced(Run(w, steps)) && (steps == [] || SyncedThroughout(w, steps[..|steps| - 1]))
  }

  /** The agreement holds at every point of a run if and only if no permission request
      makes an unsettled Turn active again. */
  lemma {:induction false} SyncedExactlyWhen(w: World, steps: seq<Step>)
    requires Initial(w)
    ensures SyncedThroughout(w, steps) <==> !ResurrectsIn(w, steps)
  {
    if !ResurrectsIn(w, steps) {
      SyncRun(w, steps);
    }
    if steps == [] {
    } else {
      var init := steps[..|steps| - 1];
      SyncedExactlyWhen(w, init);
      if Resurrects(Run(w, init), steps[|steps| - 1]) {
        TerminalRun(w, init);
        assert !Synced(Run(w, steps));
      }
    }
  }

  // ----- a condition on the steps alone

  /** A permission request is admitted, while no Turn is active, for a Turn that was active
      before: that Turn completed since, or another one replaced it. */
  predicate Returns(w: World, step: Step) {
    step.Advance? && w.pub.PrepareRead? && !w.pub.refused && w.active == 0 && w.pub.turn in w.seen
  }

  predicate ReturnsIn(w: World, steps: seq<Step>) {
    steps != [] &&
    var init := steps[..|steps| - 1];
    ReturnsIn(w, init) || Returns(Run(w, init), steps[|steps| - 1])
  }

  /** A Turn that was never active has no permissions, nothing due, and no such status. */
  ghost predicate Unseen(w: World, t: Turn) {
    && !Outstanding(w.permissions, t)
    && !DueFor(w.due, t, 0)
    && LastStatus(w.log, t) != Some(RequiresAction)
  }

  ghost predicate SeenInv(w: World) {
    && (w.active != 0 ==> w.active in w.seen)
    && forall t :: t !in w.seen ==> Unseen(w, t)
  }

  lemma SeenRegister(w: World, t: Turn)
    requires TerminalInv(w) && SeenInv(w)
    ensures SeenInv(Do(w, Register(t)))
  {
    var w' := Do(w, Register(t));
    forall u | u !in w'.seen
      ensures Unseen(w', u)
    {
      assert Unseen(w, u);
    }
  }

  lemma SeenUnregister(w: World, k: nat)
    requires TerminalInv(w) && SeenInv(w)
    ensures SeenInv(Do(w, Unregister(k)))
  {
    var w' := Do(w, Unregister(k));
    forall u | u !in w'.seen
      ensures Unseen(w', u)
    {
      assert Unseen(w, u);
    }
  }

  /** A publication for a Turn that was active, or one that is not requires_action. */
  lemma SeenLogs(w: World, w': World, e: Event)
    requires SeenInv(w) && w'.log == w.log + [e] && w'.permissions == w.permissions && w'.due.Items <= w.due.Items
    requires e.Published? && e.status == RequiresAction ==> e.turn in w.seen
    requires w.seen <= w'.seen
    ensures forall u :: u !in w'.seen ==> Unseen(w', u)
  {
    LogGrows(w.log, e);
    forall u | u !in w'.seen
      ensures Unseen(w', u)
    {
      assert Unseen(w, u);
      DueShrinks(w.due, w'.due, u);
    }
  }

  lemma DueShrinks(due: map<nat, Due>, fewer: map<nat, Due>, t: Turn)
    requires fewer.Items <= due.Items && !DueFor(due, t, 0)
    ensures !DueFor(fewer, t, 0)
  {
    forall k | k in fewer
      ensures k in due && due[k] == fewer[k]
    {
      assert (k, fewer[k]) in fewer.Items;
    }
  }

  lemma SeenAdvance(w: World)
    requires TerminalInv(w) && SeenInv(w)
    ensures SeenInv(DoAdvance(w))
  {
    hide Unseen, Tokens, Orderly, LastTerminal, Outstanding;
    var w' := DoAdvance(w);
    match w.pub
    case StartActive(t, blocked) => SeenLogs(w, w', Published(t, if blocked then RequiresAction else Running));
    case Completing(t) => SeenLogs(w, w', TerminalRecorded(t));
    case CompleteCleared(t) => SeenLogs(w, w', Published(t, Idle));
    case SendRead(k, _, _) => SeenSend(w);
    case _ => SeenStays(w, w');
  }

  lemma SeenStays(w: World, w': World)
    requires SeenInv(w) && w'.log == w.log && w'.permissions == w.permissions && w'.due.Items <= w.due.Items && w.seen <= w'.seen
    ensures forall u :: u !in w'.seen ==> Unseen(w', u)
  {
    forall u | u !in w'.seen
      ensures Unseen(w', u)
    {
      assert Unseen(w, u);
      DueShrinks(w.due, w'.due, u);
    }
  }

  lemma SeenSend(w: World)
    requires TerminalInv(w) && SeenInv(w) && w.pub.SendRead?
    ensures SeenInv(DoAdvance(w))
  {
    var w', k := DoAdvance(w), w.pub.token;
    var due := w.due[k];
    if w'.log == w.log {
      SeenStays(w, w');
    } else {
      SeenLogs(w, w', Published(due.turn, if due.Announce? || w.pub.blocked then RequiresAction else Running));
    }
  }

  /** Some point of the run had this Turn active. */
  ghost predicate WasActive(w: World, steps: seq<Step>, t: Turn) {
    Run(w, steps).active == t || (steps != [] && WasActive(w, steps[..|steps| - 1], t))
  }

  lemma {:induction false} SeenWasActive(w: World, steps: seq<Step>, t: Turn)
    requires Initial(w) && t != 0
    ensures t in Run(w, steps).seen <==> WasActive(w, steps, t)
  {
    if steps == [] {
    } else {
      var init := steps[..|steps| - 1];
      SeenWasActive(w, init, t);
      TerminalRun(w, init);
      SeenRun(w, init);
      SeenGrows(Run(w, init), steps[|steps| - 1]);
      hide Run;
    }
  }

  /** A Turn is seen from the step that makes it active. */
  lemma SeenGrows(w: World, step: Step)
    requires TerminalInv(w) && SeenInv(w)
    ensures forall t: Turn :: t != 0 ==> (t in Do(w, step).seen <==> t in w.seen || t == Do(w, step).active)
  {
    hide Unseen, Tokens, Orderly, LastTerminal, Outstanding;
  }

  lemma {:induction false} SeenRun(w: World, steps: seq<Step>)
    requires Initial(w)
    ensures SeenInv(Run(w, steps))
  {
    if steps == [] {
      SeenInitially(w);
    } else {
      SeenRun(w, steps[..|steps| - 1]);
      TerminalRun(w, steps[..|steps| - 1]);
      SeenStep(Run(w, steps[..|steps| - 1]), steps[|steps| - 1]);
    }
  }

  lemma {:induction false} NeverShown(log: seq<Event>, t: Turn)
    requires forall i :: 0 <= i < |log| ==> log[i] != Published(t, RequiresAction)
    ensures LastStatus(log, t) != Some(RequiresAction)
  {
    if log == [] {
    } else {
      NeverShown(log[..|log| - 1], t);
    }
  }

  lemma SeenInitially(w: World)
    requires Initial(w)
    ensures SeenInv(w)
  {
    forall t: Turn | t !in w.seen
      ensures Unseen(w, t)
    {
      NeverShown(w.log, t);
    }
  }

  lemma SeenStep(w: World, step: Step)
    requires TerminalInv(w) && SeenInv(w)
    ensures SeenInv(Do(w, step))
  {
    hide Unseen, TerminalInv, DoAdvance;
    match step
    case Register(t) => SeenRegister(w, t);
    case Unregister(k) => SeenUnregister(w, k);
    case Advance => SeenAdvance(w);
    case _ => SeenStays(w, Do(w, step));
  }

  /** If no Turn is prepared again after it completed or another one replaced it, then what is
      shown agrees with what is outstanding at every point of the run. */
  lemma {:induction false} NoReturnIsSynced(w: World, steps: seq<Step>)
    requires Initial(w) && !ReturnsIn(w, steps)
    ensures SyncedThroughout(w, steps) && !ResurrectsIn(w, steps)
  {
    NoReturnNoResurrection(w, steps);
    SyncedExactlyWhen(w, steps);
  }

  lemma {:induction false} NoReturnNoResurrection(w: World, steps: seq<Step>)
    requires Initial(w) && !ReturnsIn(w, steps)
    ensures !ResurrectsIn(w, steps)
  {
    if steps == [] {
    } else {
      var init := steps[..|steps| - 1];
      NoReturnNoResurrection(w, init);
      SeenRun(w, init);
      hide Outstanding, DueFor, LastStatus, Run;
      assert Run(w, init).pub.PrepareRead? && Run(w, init).pub.turn !in Run(w, init).seen ==> Unseen(Run(w, init), Run(w, init).pub.turn);
    }
  }

  lemma Next(w: World, steps: seq<Step>, step: Step) returns (longer: seq<Step>)
    ensures longer == steps + [step]
    ensures Run(w, longer) == Do(Run(w, steps), step)
    ensures Resurrects(Run(w, steps), step) ==> ResurrectsIn(w, longer)
  {
    longer := steps + [step];
    assert longer[..|longer| - 1] == steps;
  }

  function Advance2(w: World): World {
    DoAdvance(DoAdvance(w))
  }

  function Advance3(w: World): World {
    DoAdvance(DoAdvance(DoAdvance(w)))
  }

  lemma Section2(w: World, steps: seq<Step>, first: Step) returns (longer: seq<Step>)
    ensures Run(w, longer) == Advance2(Do(Run(w, steps), first))
  {
    longer := Next(w, steps, first);
    longer := Next(w, longer, Advance);
    longer := Next(w, longer, Advance);
  }

  lemma Section3(w: World, steps: seq<Step>, first: Step) returns (longer: seq<Step>)
    ensures Run(w, longer) == Advance3(Do(Run(w, steps), first))
  {
    longer := Section2(w, steps, first);
    longer := Next(w, longer, Advance);
  }

  // Each publishing section, run without interference.

  lemma StartSection(w: World, t: Turn)
    requires w.pub == Free && t != 0 && w.terminal != t
    ensures Advance3(Do(w, BeginStart(t))) ==
            w.(active := t, seen := w.seen + {t}, log := w.log + [Published(t, if Outstanding(w.permissions, t) then RequiresAction else Running)])
  {
  }

  lemma CompleteSection(w: World, t: Turn)
    requires w.pub == Free && t != 0
    ensures Advance3(Do(w, BeginComplete(t))) ==
            w.(terminal := t, active := if w.active == t then 0 else w.active,
               log := w.log + [TerminalRecorded(t)] + [Published(t, Idle)])
  {
  }

  lemma SendSection(w: World, k: nat)
    requires w.pub == Free && k in w.due && w.terminal != w.due[k].turn
    ensures Advance2(Do(w, BeginSend(k))) ==
            w.(due := w.due - {k},
               log := if w.active != w.due[k].turn then w.log
                      else
                        var shown := w.due[k].Announce? || Outstanding(w.permissions, w.active);
                        w.log + [Published(w.active, if shown then RequiresAction else Running)])
  {
  }

  lemma PrepareSection(w: World, t: Turn)
    requires w.pub == Free && t != 0 && w.terminal != t && !w.cancelled && w.active == 0
    ensures Advance2(Do(w, BeginPrepare(t))) == w.(active := t, seen := w.seen + {t})
  {
  }

  /** A request for the terminal Turn, for another one than the active, or while a cancellation is
      requested prepares nothing. */
  lemma PrepareRefused(w: World, t: Turn)
    requires w.pub == Free && t != 0 && (w.terminal == t || w.cancelled || (w.active != 0 && w.active != t))
    ensures Advance2(Do(w, BeginPrepare(t))) == w
  {
  }

  function Waiting(): World {
    World(0, 1, {1}, false, map[1 := 1], 1, map[], Free, [Published(1, Running)] + [Published(1, RequiresAction)])
  }

  function Superseded(): World {
    Waiting().(active := 2, seen := {1, 2}, permissions := map[], log := Waiting().log + [Published(2, Running)])
  }

  function Completed(): World {
    Superseded().(terminal := 2, active := 0, log := Superseded().log + [TerminalRecorded(2)] + [Published(2, Idle)])
  }

  /** A Turn is started, registers a permission and shows requires_action. */
  lemma ReachWaiting() returns (steps: seq<Step>)
    ensures Run(NewSession(), steps) == Waiting()
  {
    StartOfRun(NewSession());
    hide Run, Advance2, Advance3, DoAdvance;
    var w := NewSession();
    steps := Section3(w, [], BeginStart(1));
    StartSection(w, 1);
    steps := Next(w, steps, Register(1));
    var registered := w.(active := 1, seen := {1}, log := [Published(1, Running)], next := 1, permissions := map[1 := 1], due := map[1 := Announce(1)]);
    assert Run(w, steps) == registered;
    steps := Section2(w, steps, BeginSend(1));
    SendSection(registered, 1);
  }

  /** The next Turn starts before the permission is answered. */
  lemma ReachSuperseded() returns (steps: seq<Step>)
    ensures Run(NewSession(), steps) == Superseded()
  {
    steps := ReachWaiting();
    hide Run, Advance2, Advance3, DoAdvance;
    var w := NewSession();
    steps := Section3(w, steps, BeginStart(2));
    StartSection(Waiting(), 2);
    steps := Next(w, steps, Unregister(1));
    var answered := Superseded().(due := map[1 := Withdraw(1)]);
    assert Run(w, steps) == answered;
    steps := Section2(w, steps, BeginSend(1));
    SendSection(answered, 1);
  }

  lemma ReachCompleted() returns (steps: seq<Step>)
    ensures Run(NewSession(), steps) == Completed()
  {
    steps := ReachSuperseded();
    hide Run, Advance2, Advance3, DoAdvance;
    steps := Section3(NewSession(), steps, BeginComplete(2));
    CompleteSection(Superseded(), 2);
  }

  /** A Turn shown as requires_action, superseded while its permission is answered, and then
      prepared again once its successor has completed: the stale status stays on show. */
  lemma PreparedTurnCanBeStale()
    ensures exists steps :: var end := Run(NewSession(), steps);
              && end.active == 1 && end.pub == Free && !DueFor(end.due, 1, 0)
              && LastStatus(end.log, 1) == Some(RequiresAction) && !Outstanding(end.permissions, 1)
  {
    var steps := ReachCompleted();
    hide Run, Advance2, Advance3, DoAdvance, LastStatus;
    steps := Section2(NewSession(), steps, BeginPrepare(1));
    PrepareSection(Completed(), 1);
    LogGrows(Superseded().log + [TerminalRecorded(2)], Published(2, Idle));
    LogGrows(Superseded().log, TerminalRecorded(2));
    LogGrows(Waiting().log, Published(2, Running));
    LogGrows([Published(1, Running)], Published(1, RequiresAction));
    assert LastStatus(Run(NewSession(), steps).log, 1) == Some(RequiresAction);
  }

  lemma StartOfRun(w: World)
    ensures Run(w, []) == w
  {
  }
}
