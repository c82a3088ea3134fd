/** MCP tool grants: a Host-wide store of approved scopes that many calls consult while
    other callers grant and revoke. A call captures revocation counters before it asks for
    anything, and both committing a grant and dispatching compare them again. */
module Grants {

  import opened Blanks
  import opened Wrappers

  datatype Scope = Session | Always | Other

  datatype Grant = Grant(
    owner: string, workspace: string, pluginId: string, server: string, tool: string, projected: string,
    source: string, sessionEpoch: string, resourceParameter: string, resourceValue: string)

  /** What a grant key is computed from; the hash of it is taken to be injective. */
  datatype Key = Key(
    scope: Scope, session: string, epoch: string, owner: string, workspace: string, pluginId: string,
    server: string, tool: string, projected: string, source: string, resource: Option<(string, string)>)

  const ZERO_TIME: string := "0001-01-01T00:00:00Z"

  predicate ResourceScoped(g: Grant) {
    g.resourceParameter != "" || g.resourceValue != ""
  }

  /** `None` is an error. */
  function KeyOf(g: Grant, scope: Scope, session: string): (key: Option<Key>)
    ensures key.Some? ==> key.value.scope == scope && key.value.session == session
  {
    if ResourceScoped(g) && (scope != Session || TrimSpace(g.resourceParameter) == "" || TrimSpace(g.resourceValue) == "") then None
    else if scope == Other then None
    else if scope == Session && (TrimSpace(session) == "" || g.sessionEpoch == "" || g.sessionEpoch == ZERO_TIME) then None
    else if g.workspace == "" || g.server == "" || g.tool == "" || g.projected == "" || g.source == "" then None
    else
      var owner := TrimSpace(g.owner);
      Some(Key(scope, session, if scope == Session then g.sessionEpoch else "", if owner == "" then "host" else owner,
               g.workspace, g.pluginId, g.server, g.tool, g.projected, g.source,
               if ResourceScoped(g) then Some((g.resourceParameter, g.resourceValue)) else None))
  }

  /** The identity a grant has a key for: complete, and with a Session or a resource only where
      the scope has one. */
  predicate Complete(g: Grant, scope: Scope, session: string) {
    && (g.workspace != "" && g.server != "" && g.tool != "" && g.projected != "" && g.source != "")
    && (scope == Session || scope == Always)
    && (scope == Session ==> TrimSpace(session) != "" && g.sessionEpoch != "" && g.sessionEpoch != ZERO_TIME)
    && (ResourceScoped(g) ==> scope == Session && TrimSpace(g.resourceParameter) != "" && TrimSpace(g.resourceValue) != "")
  }

  function Owner(g: Grant): string {
    if TrimSpace(g.owner) == "" then "host" else TrimSpace(g.owner)
  }

  /** Two grants name the same thing. */
  predicate SameIdentity(g: Grant, h: Grant, scope: Scope) {
    && Owner(g) == Owner(h) && g.workspace == h.workspace && g.pluginId == h.pluginId && g.server == h.server
    && g.tool == h.tool && g.projected == h.projected && g.source == h.source
    && (scope == Session ==> g.sessionEpoch == h.sessionEpoch)
    && g.resourceParameter == h.resourceParameter && g.resourceValue == h.resourceValue
  }

  /** A grant has a key exactly when its identity is complete, and keys are equal exactly for
      the same identity in the same scope and Session. */
  lemma KeysIdentify(g: Grant, h: Grant, scope: Scope, other: Scope, session: string, elsewhere: string)
    ensures KeyOf(g, scope, session).Some? <==> Complete(g, scope, session)
    ensures Complete(g, scope, session) && Complete(h, other, elsewhere) ==>
              (KeyOf(g, scope, session) == KeyOf(h, other, elsewhere) <==> scope == other && session == elsewhere && SameIdentity(g, h, scope))
  {
  }

  // ----- the grant file

  type Grants = map<Key, bool>

  /** What a file holds: a whole document, or anything that is not one (an empty file and every
      proper prefix of a document included). */
  datatype Content = Document(version: int, grants: Option<Grants>) | Torn

  /** Content that was not synced may be torn by a power loss. */
  datatype File = File(content: Content, synced: bool)

  /** The grant file, the temporary file of the change in progress, and how many temporary
      files were left behind. */
  datatype Disk = Disk(target: Option<File>, temp: Option<File>, strays: nat)

  /** What opening the store reads; `None` is an error. */
  function Opened(disk: Disk): Option<Grants> {
    match disk.target
    case None => Some(map[])
    case Some(file) =>
      match file.content
      case Torn => None
      case Document(version, grants) =>
        if version != 1 then None else if grants.None? then Some(map[]) else grants
  }

  /** The calls a change makes, in order. */
  datatype FileOp = MakeDir | CreateTemp | SetMode | WriteTemp | SyncTemp | CloseTemp | RenameTemp

  const OPS: seq<FileOp> := [MakeDir, CreateTemp, SetMode, WriteTemp, SyncTemp, CloseTemp, RenameTemp]

  /** A call that succeeds. */
  function Effect(disk: Disk, op: FileOp, next: Grants): Disk {
    match op
    case CreateTemp => disk.(temp := Some(File(Torn, false)))
    case WriteTemp => disk.(temp := Some(File(Document(1, Some(next)), false)))
    case SyncTemp => if disk.temp.Some? then disk.(temp := Some(disk.temp.value.(synced := true))) else disk
    case RenameTemp => disk.(target := disk.temp, temp := None)
    case _ => disk
  }

  /** A call that fails, or is cut short: only a write leaves something behind. */
  function Broken(disk: Disk, op: FileOp): Disk {
    if op.WriteTemp? then disk.(temp := Some(File(Torn, false))) else disk
  }

  /** The deferred removal of the temporary file. */
  function Cleaned(disk: Disk, removed: bool): Disk {
    if disk.temp.Some? then disk.(temp := None, strays := disk.strays + if removed then 0 else 1) else disk
  }

  /** Which call fails, if any, and whether the temporary file can be removed. */
  datatype Fate = Fate(fails: Option<FileOp>, removed: bool)

  /** The disk after the first `k` calls succeeded. */
  function After(disk: Disk, next: Grants, k: nat): Disk
    requires k <= |OPS|
  {
    if k == 0 then disk else Effect(After(disk, next, k - 1), OPS[k - 1], next)
  }

  predicate Fails(fate: Fate, k: nat)
    requires k <= |OPS|
  {
    k < |OPS| && fate.fails == Some(OPS[k])
  }

  function Index(op: FileOp): (k: nat)
    ensures k < |OPS| && OPS[k] == op && forall i :: 0 <= i < |OPS| && OPS[i] == op ==> i == k
  {
    match op
    case MakeDir => 0
    case CreateTemp => 1
    case SetMode => 2
    case WriteTemp => 3
    case SyncTemp => 4
    case CloseTemp => 5
    case RenameTemp => 6
  }

  /** The disk after call `k` and those behind it, up to the first that fails. */
  function Replaced(disk: Disk, next: Grants, fate: Fate, k: nat): Disk
    requires k <= |OPS|
    decreases |OPS| - k
  {
    if k == |OPS| then Cleaned(disk, fate.removed)
    else if Fails(fate, k) then
      if k <= Index(CreateTemp) then disk else Cleaned(Broken(disk, OPS[k]), fate.removed)
    else Replaced(Effect(disk, OPS[k], next), next, fate, k + 1)
  }

  /** Between two changes there is no temporary file, and what the file holds is synced. */
  predicate AtRest(disk: Disk) {
    disk.temp.None? && (disk.target.Some? ==> disk.target.value.synced)
  }

  function Written(next: Grants): File {
    File(Document(1, Some(next)), true)
  }

  /** The file stays as it was until the rename, and is whole and synced from then on. */
  lemma {:induction false} UntouchedUntilRename(disk: Disk, next: Grants, k: nat)
    requires k <= |OPS| && AtRest(disk)
    ensures After(disk, next, k).target == if k < |OPS| then disk.target else Some(Written(next))
    ensures After(disk, next, k).strays == disk.strays
    ensures k > 4 ==> After(disk, next, k).temp == if k < |OPS| then Some(Written(next)) else None
    ensures k == 4 ==> After(disk, next, k).temp == Some(Written(next).(synced := false))
    ensures k < 2 ==> After(disk, next, k).temp.None?
  {
    if k == 0 {
    } else {
      UntouchedUntilRename(disk, next, k - 1);
    }
  }

  lemma {:induction false} ReplacedFrom(disk: Disk, next: Grants, fate: Fate, k: nat)
    requires k <= |OPS| && forall i :: 0 <= i < k ==> !Fails(fate, i)
    ensures Replaced(disk, next, fate, 0) == Replaced(After(disk, next, k), next, fate, k)
  {
    if k == 0 {
    } else {
      ReplacedFrom(disk, next, fate, k - 1);
      assert !Fails(fate, k - 1);
    }
  }

  /** Whichever call fails, the file holds what it held; if none does, it holds the new grants.
      Nothing temporary stays unless its removal failed. */
  lemma ReplacedExactly(disk: Disk, next: Grants, fate: Fate)
    requires AtRest(disk)
    ensures var r := Replaced(disk, next, fate, 0);
      && AtRest(r)
      && r.target == (if fate.fails.None? then Some(Written(next)) else disk.target)
      && disk.strays <= r.strays <= disk.strays + 1
      && (fate.removed || fate.fails.None? ==> r.strays == disk.strays)
  {
    var k := if fate.fails.None? then |OPS| else Index(fate.fails.value);
    ReplacedFrom(disk, next, fate, k);
    UntouchedUntilRename(disk, next, k);
  }

  // ----- crashes

  /** What a Host has: the grants in memory and the disk. */
  datatype Host = Host(grants: Grants, disk: Disk)

  /** A change interrupted before its call `at`; after the last call only memory is missing. */
  datatype Crash = Crash(at: nat, partial: bool, powerLoss: bool)

  function Surviving(file: Option<File>): Option<File> {
    if file.Some? && !file.value.synced then Some(file.value.(content := Torn)) else file
  }

  /** What the next Host finds: the temporary file is left behind. */
  function Found(disk: Disk, next: Grants, crash: Crash): Disk {
    var k := if crash.at < |OPS| then crash.at else |OPS|;
    var reached := After(disk, next, k);
    var left := if k < |OPS| && crash.partial then Broken(reached, OPS[k]) else reached;
    var kept := if crash.powerLoss then left.(target := Surviving(left.target), temp := Surviving(left.temp)) else left;
    Cleaned(kept, false)
  }

  datatype Act =
    | Complete(key: Key, present: bool, fate: Fate)
    | Interrupted(key: Key, present: bool, crash: Crash)

  /** `None` is a Host that cannot open its grant file. */
  function Live(host: Host, act: Act): Option<Host> {
    var next := Changed(host.grants, act.key, act.present);
    match act
    case Complete(_, _, fate) =>
      Some(Host(if fate.fails.None? then next else host.grants, Replaced(host.disk, next, fate, 0)))
    case Interrupted(_, _, crash) =>
      var disk := Found(host.disk, next, crash);
      match Opened(disk)
      case None => None
      case Some(grants) => Some(Host(grants, disk))
  }

  function Lives(host: Host, acts: seq<Act>): Option<Host> {
    if acts == [] then Some(host)
    else
      match Lives(host, acts[..|acts| - 1])
      case None => None
      case Some(before) => Live(before, acts[|acts| - 1])
  }

  /** A change takes place exactly when its rename did. */
  predicate Applies(act: Act) {
    match act
    case Complete(_, _, fate) => fate.fails.None?
    case Interrupted(_, _, crash) => crash.at >= |OPS|
  }

  /** The grants the changes that took place amount to. */
  function Ledger(grants: Grants, acts: seq<Act>): Grants {
    if acts == [] then grants
    else
      var before, act := Ledger(grants, acts[..|acts| - 1]), acts[|acts| - 1];
      if Applies(act) then Changed(before, act.key, act.present) else before
  }

  predicate Sound(host: Host) {
    AtRest(host.disk) && Opened(host.disk) == Some(host.grants)
  }

  /** A crash at any point leaves the old grants or, from the rename on, the new ones. */
  lemma FoundExactly(disk: Disk, next: Grants, crash: Crash)
    requires AtRest(disk)
    ensures AtRest(Found(disk, next, crash))
    ensures Found(disk, next, crash).target == if crash.at < |OPS| then disk.target else Some(Written(next))
  {
    UntouchedUntilRename(disk, next, if crash.at < |OPS| then crash.at else |OPS|);
  }

  lemma LiveKeeps(host: Host, act: Act)
    requires Sound(host)
    ensures Live(host, act).Some? && Sound(Live(host, act).value)
    ensures Live(host, act).value.grants == if Applies(act) then Changed(host.grants, act.key, act.present) else host.grants
  {
    var next := Changed(host.grants, act.key, act.present);
    match act
    case Complete(_, _, fate) => ReplacedExactly(host.disk, next, fate);
    case Interrupted(_, _, crash) => FoundExactly(host.disk, next, crash);
  }

  /** Over every run of complete and interrupted changes, Hosts always open their file, memory
      is what the file holds, and both are the changes whose rename happened, all or nothing. */
  lemma {:induction false} EveryCrash(host: Host, acts: seq<Act>)
    requires Sound(host)
    ensures Lives(host, acts).Some? && Sound(Lives(host, acts).value)
    ensures Lives(host, acts).value.grants == Ledger(host.grants, acts)
  {
    if acts == [] {
    } else {
      EveryCrash(host, acts[..|acts| - 1]);
      LiveKeeps(Lives(host, acts[..|acts| - 1]).value, acts[|acts| - 1]);
    }
  }

  // ----- the store

  datatype Epoch = Epoch(alwaysKey: Option<Key>, sessionKey: Option<Key>, always: nat, session: nat)

  datatype State = State(grants: Grants, revocations: map<Key, nat>, disk: Disk)

  predicate Has(grants: Grants, key: Key) {
    key in grants && grants[key]
  }

  function Revocations(revocations: map<Key, nat>, key: Option<Key>): nat {
    if key.Some? && key.value in revocations then revocations[key.value] else 0
  }

  /** The granted entries, with one more or one fewer. */
  function Changed(grants: Grants, key: Key, present: bool): (next: Grants)
    ensures forall k :: Has(next, k) <==> if k == key then present else Has(grants, k)
    ensures forall k :: k in next ==> next[k]
  {
    var kept := map k | k in grants && grants[k] && k != key :: true;
    if present then kept[key := true] else kept
  }

  function ChangedTo(s: State, key: Key, present: bool, fate: Fate): State {
    var next := Changed(s.grants, key, present);
    s.(grants := if fate.fails.None? then next else s.grants, disk := Replaced(s.disk, next, fate, 0))
  }

  function Capture(s: State, g: Grant, session: string): Epoch {
    var always, current := KeyOf(g, Always, ""), KeyOf(g, Session, session);
    Epoch(always, current, Revocations(s.revocations, always), Revocations(s.revocations, current))
  }

  predicate Current(s: State, epoch: Epoch) {
    && Revocations(s.revocations, epoch.alwaysKey) == epoch.always
    && Revocations(s.revocations, epoch.sessionKey) == epoch.session
  }

  /** `None` is an error, which must prevent execution. */
  function AllowedBy(s: State, g: Grant, session: string): Option<bool> {
    if ResourceScoped(g) then
      match KeyOf(g, Session, session)
      case None => None
      case Some(key) => Some(Has(s.grants, key))
    else
      match KeyOf(g, Always, "")
      case None => None
      case Some(global) =>
        if Has(s.grants, global) then Some(true)
        else
          match KeyOf(g, Session, session)
          case None => Some(false)
          case Some(key) => Some(Has(s.grants, key))
  }

  /** The keys under which a grant for the call may stand: its workspace-wide key and the key of
      its Session. */
  predicate OwnKey(g: Grant, session: string, key: Key) {
    KeyOf(g, Always, "") == Some(key) || KeyOf(g, Session, session) == Some(key)
  }

  /** The store answers true exactly when one of the call's keys is granted, and with an error
      exactly when the call has no key at all. */
  lemma AllowedExactly(s: State, g: Grant, session: string)
    ensures AllowedBy(s, g, session).None? <==> forall key :: !OwnKey(g, session, key)
    ensures AllowedBy(s, g, session) == Some(true) <==> exists key :: OwnKey(g, session, key) && Has(s.grants, key)
  {
    var always, current := KeyOf(g, Always, ""), KeyOf(g, Session, session);
    assert ResourceScoped(g) ==> always.None?;
    assert !ResourceScoped(g) && always.None? ==> current.None?;
    hide KeyOf;
    assert always.Some? ==> OwnKey(g, session, always.value);
    assert current.Some? ==> OwnKey(g, session, current.value);
  }

  class MCPGrantStore {
    var grants: Grants
    var revocations: map<Key, nat>
    var disk: Disk

    function View(): State
      reads this
    {
      State(grants, revocations, disk)
    }

    constructor (stored: Grants, on: Disk)
      ensures View() == State(stored, map[], on)
    {
      grants, revocations, disk := stored, map[], on;
    }

    method Allows(g: Grant, session: string) returns (allowed: Option<bool>)
      ensures allowed == AllowedBy(View(), g, session)
      ensures allowed.None? <==> forall key :: !OwnKey(g, session, key)
      ensures allowed == Some(true) <==> exists key :: OwnKey(g, session, key) && Has(grants, key)
    {
      AllowedExactly(View(), g, session);
      hide KeyOf, OwnKey;
      if ResourceScoped(g) {
        var key := KeyOf(g, Session, session);
        if key.None? {
          return None;
        }
        return Some(key.value in grants && grants[key.value]);
      }
      var global := KeyOf(g, Always, "");
      if global.None? {
        return None;
      }
      if global.value in grants && grants[global.value] {
        return Some(true);
      }
      var current := KeyOf(g, Session, session);
      if current.None? {
        return Some(false);
      }
      return Some(current.value in grants && grants[current.value]);
    }

    /** One call on the file system. */
    method Try(op: FileOp, next: Grants, fate: Fate) returns (ok: bool)
      modifies this`disk
      ensures ok <==> fate.fails != Some(op)
      ensures disk == if ok then Effect(old(disk), op, next) else Broken(old(disk), op)
    {
      ok := fate.fails != Some(op);
      disk := if ok then Effect(disk, op, next) else Broken(disk, op);
    }

    /** The temporary file is removed when the change returns, whatever became of it. */
    method Remove(fate: Fate)
      modifies this`disk
      ensures disk == Cleaned(old(disk), fate.removed)
    {
      disk := Cleaned(disk, fate.removed);
    }

    /** Writes the new grants to a temporary file and renames it over the old one; memory is
        changed only after that. */
    method Replace(next: Grants, fate: Fate) returns (ok: bool)
      modifies this`disk
      ensures ok == fate.fails.None?
      ensures disk == Replaced(old(disk), next, fate, 0)
    {
      assert fate.fails.None? || OPS[Index(fate.fails.value)] == fate.fails.value;
      ok := Try(MakeDir, next, fate);
      if !ok {
        return;
      }
      assert Replaced(old(disk), next, fate, 0) == Replaced(disk, next, fate, 1);
      ok := Try(CreateTemp, next, fate);
      if !ok {
        return;
      }
      assert Replaced(old(disk), next, fate, 0) == Replaced(disk, next, fate, 2);
      ok := Try(SetMode, next, fate);
      if !ok {
        Remove(fate);
        return;
      }
      assert Replaced(old(disk), next, fate, 0) == Replaced(disk, next, fate, 3);
      ok := Try(WriteTemp, next, fate);
      if !ok {
        Remove(fate);
        return;
      }
      assert Replaced(old(disk), next, fate, 0) == Replaced(disk, next, fate, 4);
      ok := Try(SyncTemp, next, fate);
      if !ok {
        Remove(fate);
        return;
      }
      assert Replaced(old(disk), next, fate, 0) == Replaced(disk, next, fate, 5);
      ok := Try(CloseTemp, next, fate);
      if !ok {
        Remove(fate);
        return;
      }
      assert Replaced(old(disk), next, fate, 0) == Replaced(disk, next, fate, 6);
      ok := Try(RenameTemp, next, fate);
      if !ok {
        Remove(fate);
        return;
      }
      assert Replaced(old(disk), next, fate, 0) == Replaced(disk, next, fate, 7);
      Remove(fate);
    }

    method Change(key: Key, present: bool, fate: Fate) returns (ok: bool)
      modifies this
      ensures View() == ChangedTo(old(View()), key, present, fate) && ok == fate.fails.None?
    {
      var next: Grants := map[];
      var rest := grants.Keys;
      while rest != {}
        invariant rest <= grants.Keys
        invariant next == map k | k in grants && grants[k] && k !in rest :: true
        decreases |rest|
      {
        var existing :| existing in rest;
        if grants[existing] {
          next := next[existing := true];
        }
        rest := rest - {existing};
      }
      next := if present then next[key := true] else next - {key};
      assert next == Changed(grants, key, present);
      ok := Replace(next, fate);
      if ok {
        grants := next;
      }
    }

    method Grant(g: Grant, scope: Scope, session: string, fate: Fate) returns (ok: bool)
      modifies this
      ensures ok <==> KeyOf(g, scope, session).Some? && fate.fails.None?
      ensures View() == match KeyOf(g, scope, session)
                        case None => old(View())
                        case Some(key) => ChangedTo(old(View()), key, true, fate)
    {
      var key := KeyOf(g, scope, session);
      if key.None? {
        return false;
      }
      ok := Change(key.value, true, fate);
    }

    method Revoke(g: Grant, scope: Scope, session: string, fate: Fate) returns (ok: bool)
      modifies this
      ensures ok <==> KeyOf(g, scope, session).Some? && fate.fails.None?
      ensures View() == match KeyOf(g, scope, session)
                        case None => old(View())
                        case Some(key) => Revoked(old(View()), key, fate)
    {
      var key := KeyOf(g, scope, session);
      if key.None? {
        return false;
      }
      ok := Change(key.value, false, fate);
      if ok {
        revocations := revocations[key.value := (if key.value in revocations then revocations[key.value] else 0) + 1];
      }
    }

    method RevocationEpoch(g: Grant, session: string) returns (epoch: Epoch)
      ensures epoch == Capture(View(), g, session)
    {
      var alwaysKey, sessionKey := KeyOf(g, Always, ""), KeyOf(g, Session, session);
      epoch := Epoch(alwaysKey, sessionKey, Revocations(revocations, alwaysKey), Revocations(revocations, sessionKey));
    }

    method CheckEpoch(epoch: Epoch) returns (ok: bool)
      ensures ok == Current(View(), epoch)
    {
      ok := Revocations(revocations, epoch.alwaysKey) == epoch.always && Revocations(revocations, epoch.sessionKey) == epoch.session;
    }

    method GrantAtEpoch(g: Grant, scope: Scope, session: string, epoch: Epoch, fate: Fate) returns (ok: bool)
      modifies this
      ensures ok <==> KeyOf(g, scope, session).Some? && Current(old(View()), epoch) && fate.fails.None?
      ensures View() == match KeyOf(g, scope, session)
                        case None => old(View())
                        case Some(key) => if Current(old(View()), epoch) then ChangedTo(old(View()), key, true, fate) else old(View())
    {
      var key := KeyOf(g, scope, session);
      if key.None? {
        return false;
      }
      var current := CheckEpoch(epoch);
      if !current {
        return false;
      }
      ok := Change(key.value, true, fate);
    }
  }

  /** Opening a store reads the file and fails closed on one that is not a grant document. */
  method NewMCPGrantStore(disk: Disk) returns (store: Option<MCPGrantStore>)
    ensures match Opened(disk)
            case None => store.None?
            case Some(grants) => store.Some? && fresh(store.value) && store.value.View() == State(grants, map[], disk)
  {
    var grants: Grants := map[];
    if disk.target.Some? {
      match disk.target.value.content
      case Torn => return None;
      case Document(version, stored) =>
        if version != 1 {
          return None;
        }
        if stored.Some? {
          grants := stored.value;
        }
    }
    var created := new MCPGrantStore(grants, disk);
    return Some(created);
  }

  function Revoked(s: State, key: Key, fate: Fate): State {
    var changed := ChangedTo(s, key, false, fate);
    if fate.fails.None? then changed.(revocations := s.revocations[key := Revocations(s.revocations, Some(key)) + 1]) else changed
  }

  // ----- concurrent calls

  datatype Phase = Captured | Asking | Ready | Dispatched | Refused

  /** `at` is when the call captured its counters. */
  datatype Call = Call(grant: Grant, session: string, epoch: Epoch, at: nat, phase: Phase)

  datatype Fact = Revocation(key: Key) | Direct(key: Key) | Commit(call: nat, key: Key) | Dispatch(call: nat)

  datatype World = World(store: State, calls: seq<Call>, log: seq<Fact>)

  datatype Answer = Once | Scoped(scope: Scope) | Reject

  datatype Step =
    | Begin(grant: Grant, session: string)
    | Trust(call: nat)
    | Consult(call: nat)
    | Resolve(call: nat, answer: Answer, fate: Fate)
    | Send(call: nat)
    | Give(grant: Grant, scope: Scope, session: string, fate: Fate)
    | Withdraw(grant: Grant, scope: Scope, session: string, fate: Fate)

  function Move(w: World, c: nat, phase: Phase): World
    requires c < |w.calls|
  {
    w.(calls := w.calls[c := w.calls[c].(phase := phase)])
  }

  /** The Session an approval option writes under: none for the workspace-wide scope. */
  function Under(scope: Scope, session: string): string {
    if scope == Always then "" else session
  }

  function DoResolve(w: World, c: nat, answer: Answer, fate: Fate): World
    requires c < |w.calls|
  {
    match answer
    case Once => Move(w, c, Ready)
    case Reject => Move(w, c, Refused)
    case Scoped(scope) =>
      var call := w.calls[c];
      var key := KeyOf(call.grant, scope, Under(scope, call.session));
      if key.Some? && Current(w.store, call.epoch) then
        Move(Given(w, Commit(c, key.value), key.value, fate), c, if fate.fails.None? then Ready else Refused)
      else Move(w, c, Refused)
  }

  function Given(w: World, fact: Fact, key: Key, fate: Fate): World {
    w.(store := ChangedTo(w.store, key, true, fate), log := if fate.fails.None? then w.log + [fact] else w.log)
  }

  function Withdrawn(w: World, key: Key, fate: Fate): World {
    w.(store := Revoked(w.store, key, fate), log := if fate.fails.None? then w.log + [Revocation(key)] else w.log)
  }

  function DoSend(w: World, c: nat): World
    requires c < |w.calls|
  {
    if Current(w.store, w.calls[c].epoch) then Move(w, c, Dispatched).(log := w.log + [Dispatch(c)])
    else Move(w, c, Refused)
  }

  function Do(w: World, step: Step): World {
    match step
    case Begin(g, session) =>
      w.(calls := w.calls + [Call(g, session, Capture(w.store, g, session), |w.log|, Captured)])
    case Trust(c) =>
      if c < |w.calls| && w.calls[c].phase == Captured then Move(w, c, Ready) else w
    case Consult(c) =>
      if c < |w.calls| && w.calls[c].phase == Captured then
        match AllowedBy(w.store, w.calls[c].grant, w.calls[c].session)
        case None => Move(w, c, Refused)
        case Some(allowed) => Move(w, c, if allowed then Ready else Asking)
      else w
    case Resolve(c, answer, fate) =>
      if c < |w.calls| && w.calls[c].phase == Asking then DoResolve(w, c, answer, fate) else w
    case Send(c) =>
      if c < |w.calls| && w.calls[c].phase == Ready then DoSend(w, c) else w
    case Give(g, scope, session, fate) =>
      var key := KeyOf(g, scope, session);
      if key.Some? then Given(w, Direct(key.value), key.value, fate) else w
    case Withdraw(g, scope, session, fate) =>
      var key := KeyOf(g, scope, session);
      if key.Some? then Withdrawn(w, key.value, fate) else w
  }

  /** A Host that opened this disk. */
  function Init(stored: Grants, disk: Disk): World {
    World(State(stored, map[], disk), [], [])
  }

  function Run(stored: Grants, disk: Disk, steps: seq<Step>): World {
    if steps == [] then Init(stored, disk) else Do(Run(stored, disk, steps[..|steps| - 1]), steps[|steps| - 1])
  }

  // ----- counting revocations

  function Count(log: seq<Fact>, key: Option<Key>): nat {
    if log == [] then 0
    else Count(log[..|log| - 1], key) + if key.Some? && log[|log| - 1] == Revocation(key.value) then 1 else 0
  }

  lemma CountSnoc(log: seq<Fact>, fact: Fact, key: Option<Key>)
    ensures Count(log + [fact], key) == Count(log, key) + if key.Some? && fact == Revocation(key.value) then 1 else 0
  {
  }

  /** No revocation of the key in the part of the log. */
  ghost predicate Quiet(log: seq<Fact>, from: nat, to: nat, key: Option<Key>)
    requires to <= |log|
  {
    key.Some? ==> forall i :: from <= i < to ==> log[i] != Revocation(key.value)
  }

  /** The counters agree exactly when nothing was revoked in between. */
  lemma {:induction false} SameCountIffQuiet(log: seq<Fact>, at: nat, key: Option<Key>)
    requires at <= |log|
    ensures Count(log[..at], key) <= Count(log, key)
    ensures Count(log[..at], key) == Count(log, key) <==> Quiet(log, at, |log|, key)
    decreases |log|
  {
    if at == |log| {
      assert log[..at] == log;
    } else {
      var n := |log| - 1;
      SameCountIffQuiet(log[..n], at, key);
      assert log[..n][..at] == log[..at];
      assert log == log[..n] + [log[n]];
    }
  }

  // ----- invariants

  ghost predicate Counted(revocations: map<Key, nat>, log: seq<Fact>) {
    forall key :: Revocations(revocations, key) == Count(log, key)
  }

  ghost predicate Captures(call: Call, log: seq<Fact>) {
    && call.at <= |log|
    && call.epoch.alwaysKey == KeyOf(call.grant, Always, "")
    && call.epoch.sessionKey == KeyOf(call.grant, Session, call.session)
    && call.epoch.always == Count(log[..call.at], call.epoch.alwaysKey)
    && call.epoch.session == Count(log[..call.at], call.epoch.sessionKey)
  }

  /** Nothing the call depends on was revoked between its capture and `to`. */
  ghost predicate Undisturbed(call: Call, log: seq<Fact>, to: nat)
    requires to <= |log|
  {
    Quiet(log, call.at, to, call.epoch.alwaysKey) && Quiet(log, call.at, to, call.epoch.sessionKey)
  }

  predicate ActsFor(fact: Fact, c: nat) {
    match fact
    case Commit(call, _) => call == c
    case Dispatch(call) => call == c
    case _ => false
  }

  /** What a call may do when the log is `to` long: it is undisturbed, and a grant it commits
      is under one of its own keys. */
  ghost predicate Permitted(calls: seq<Call>, log: seq<Fact>, to: nat, c: nat, fact: Fact)
    requires to <= |log|
  {
    && c < |calls|
    && calls[c].at <= to
    && Undisturbed(calls[c], log, to)
    && (fact.Commit? ==> Some(fact.key) == calls[c].epoch.alwaysKey || Some(fact.key) == calls[c].epoch.sessionKey)
  }

  /** Every commit and dispatch so far was permitted when it happened. */
  ghost predicate Ordered(calls: seq<Call>, log: seq<Fact>) {
    forall l: nat, c: nat :: l < |log| && ActsFor(log[l], c) ==> Permitted(calls, log, l, c, log[l])
  }

  predicate Gives(fact: Fact, key: Key) {
    match fact
    case Direct(k) => k == key
    case Commit(_, k) => k == key
    case _ => false
  }

  /** A grant is there because it was stored or given, and not revoked since. */
  ghost predicate Backed(stored: Grants, log: seq<Fact>, key: Key) {
    || (Has(stored, key) && Quiet(log, 0, |log|, Some(key)))
    || exists l :: 0 <= l < |log| && Gives(log[l], key) && Quiet(log, l, |log|, Some(key))
  }

  ghost predicate AllBacked(stored: Grants, grants: Grants, log: seq<Fact>) {
    forall key :: Has(grants, key) <==> Backed(stored, log, key)
  }

  ghost predicate Inv(stored: Grants, w: World) {
    && Sound(Host(w.store.grants, w.store.disk))
    && Counted(w.store.revocations, w.log)
    && (forall c :: 0 <= c < |w.calls| ==> Captures(w.calls[c], w.log))
    && Ordered(w.calls, w.log)
    && AllBacked(stored, w.store.grants, w.log)
  }

  // ----- preservation

  lemma CurrentIffUndisturbed(s: State, call: Call, log: seq<Fact>)
    requires Counted(s.revocations, log) && Captures(call, log)
    ensures Current(s, call.epoch) <==> Undisturbed(call, log, |log|)
  {
    SameCountIffQuiet(log, call.at, call.epoch.alwaysKey);
    SameCountIffQuiet(log, call.at, call.epoch.sessionKey);
    hide Count;
  }

  lemma CapturesKept(call: Call, log: seq<Fact>, fact: Fact)
    requires Captures(call, log)
    ensures Captures(call, log + [fact])
  {
    hide Count, KeyOf;
    assert (log + [fact])[..call.at] == log[..call.at];
  }

  lemma OrderedKept(calls: seq<Call>, log: seq<Fact>, fact: Fact)
    requires Ordered(calls, log)
    requires forall c: nat :: ActsFor(fact, c) ==> Permitted(calls, log, |log|, c, fact)
    ensures Ordered(calls, log + [fact])
  {
  }

  lemma OrderedMoved(calls: seq<Call>, log: seq<Fact>, c: nat, phase: Phase)
    requires c < |calls| && Ordered(calls, log)
    ensures Ordered(calls[c := calls[c].(phase := phase)], log)
  {
  }

  lemma OrderedJoined(calls: seq<Call>, log: seq<Fact>, call: Call)
    requires Ordered(calls, log)
    ensures Ordered(calls + [call], log)
  {
  }

  lemma BackedNeutral(stored: Grants, log: seq<Fact>, fact: Fact, key: Key)
    requires !Gives(fact, key) && fact != Revocation(key)
    ensures Backed(stored, log + [fact], key) <==> Backed(stored, log, key)
  {
    var longer := log + [fact];
    assert forall i :: 0 <= i < |log| ==> longer[i] == log[i];
    if Backed(stored, longer, key) && !(Has(stored, key) && Quiet(longer, 0, |longer|, Some(key))) {
      var l :| 0 <= l < |longer| && Gives(longer[l], key) && Quiet(longer, l, |longer|, Some(key));
      assert l < |log| && Quiet(log, l, |log|, Some(key));
    }
    if Backed(stored, log, key) && !(Has(stored, key) && Quiet(log, 0, |log|, Some(key))) {
      var l :| 0 <= l < |log| && Gives(log[l], key) && Quiet(log, l, |log|, Some(key));
      assert Gives(longer[l], key) && Quiet(longer, l, |longer|, Some(key));
    }
  }

  lemma BackedGiven(stored: Grants, log: seq<Fact>, fact: Fact, key: Key)
    requires Gives(fact, key)
    ensures Backed(stored, log + [fact], key)
  {
    var longer := log + [fact];
    assert Gives(longer[|log|], key) && Quiet(longer, |log|, |longer|, Some(key));
  }

  lemma BackedRevoked(stored: Grants, log: seq<Fact>, key: Key)
    ensures !Backed(stored, log + [Revocation(key)], key)
  {
    var longer := log + [Revocation(key)];
    assert longer[|log|] == Revocation(key);
  }

  lemma BackedChange(stored: Grants, s: State, log: seq<Fact>, fact: Fact, key: Key, present: bool)
    requires AllBacked(stored, s.grants, log)
    requires if present then Gives(fact, key) else fact == Revocation(key)
    ensures AllBacked(stored, Changed(s.grants, key, present), log + [fact])
  {
    hide Backed;
    forall k
      ensures Has(Changed(s.grants, key, present), k) <==> Backed(stored, log + [fact], k)
    {
      if k != key {
        BackedNeutral(stored, log, fact, k);
      } else if present {
        BackedGiven(stored, log, fact, key);
      } else {
        BackedRevoked(stored, log, key);
      }
    }
  }

  lemma BackedDispatch(stored: Grants, grants: Grants, log: seq<Fact>, c: nat)
    requires AllBacked(stored, grants, log)
    ensures AllBacked(stored, grants, log + [Dispatch(c)])
  {
    hide Backed;
    forall k
      ensures Has(grants, k) <==> Backed(stored, log + [Dispatch(c)], k)
    {
      BackedNeutral(stored, log, Dispatch(c), k);
    }
  }

  lemma CountedKept(revocations: map<Key, nat>, log: seq<Fact>, fact: Fact)
    requires Counted(revocations, log) && !fact.Revocation?
    ensures Counted(revocations, log + [fact])
  {
  }

  lemma CountedRevoked(revocations: map<Key, nat>, log: seq<Fact>, key: Key)
    requires Counted(revocations, log)
    ensures Counted(revocations[key := Revocations(revocations, Some(key)) + 1], log + [Revocation(key)])
  {
    hide Count;
    forall k
      ensures Revocations(revocations[key := Revocations(revocations, Some(key)) + 1], k) == Count(log + [Revocation(key)], k)
    {
      CountSnoc(log, Revocation(key), k);
      assert Revocations(revocations, k) == Count(log, k);
    }
  }

  lemma AllCapturesKept(calls: seq<Call>, log: seq<Fact>, fact: Fact)
    requires forall c :: 0 <= c < |calls| ==> Captures(calls[c], log)
    ensures forall c :: 0 <= c < |calls| ==> Captures(calls[c], log + [fact])
  {
    hide Captures;
    forall c | 0 <= c < |calls|
      ensures Captures(calls[c], log + [fact])
    {
      CapturesKept(calls[c], log, fact);
    }
  }

  lemma MoveKeeps(stored: Grants, w: World, c: nat, phase: Phase)
    requires Inv(stored, w) && c < |w.calls|
    ensures Inv(stored, Move(w, c, phase))
  {
    OrderedMoved(w.calls, w.log, c, phase);
    hide Ordered, AllBacked, Counted, KeyOf, Count;
    forall b | 0 <= b < |w.calls|
      ensures Captures(Move(w, c, phase).calls[b], w.log)
    {
      assert Captures(w.calls[b], w.log);
    }
  }

  lemma BeginKeeps(stored: Grants, w: World, g: Grant, session: string)
    requires Inv(stored, w)
    ensures Inv(stored, Do(w, Begin(g, session)))
  {
    var call := Call(g, session, Capture(w.store, g, session), |w.log|, Phase.Captured);
    OrderedJoined(w.calls, w.log, call);
    hide Ordered, AllBacked, KeyOf, Count;
    assert w.log[..|w.log|] == w.log;
    assert Captures(call, w.log);
  }

  lemma FailKeeps(stored: Grants, w: World, key: Key, present: bool, fate: Fate)
    requires Inv(stored, w) && fate.fails.Some?
    ensures Inv(stored, w.(store := ChangedTo(w.store, key, present, fate)))
  {
    ReplacedExactly(w.store.disk, Changed(w.store.grants, key, present), fate);
    hide Ordered, AllBacked, Captures, Counted, Changed, Replaced;
  }

  lemma GiveKeeps(stored: Grants, w: World, fact: Fact, key: Key, fate: Fate)
    requires Inv(stored, w) && Gives(fact, key)
    requires forall c: nat :: ActsFor(fact, c) ==> Permitted(w.calls, w.log, |w.log|, c, fact)
    ensures Inv(stored, Given(w, fact, key, fate))
  {
    if fate.fails.Some? {
      FailKeeps(stored, w, key, true, fate);
    } else {
      ReplacedExactly(w.store.disk, Changed(w.store.grants, key, true), fate);
      BackedChange(stored, w.store, w.log, fact, key, true);
      CountedKept(w.store.revocations, w.log, fact);
      AllCapturesKept(w.calls, w.log, fact);
      OrderedKept(w.calls, w.log, fact);
      hide Ordered, AllBacked, Captures, Counted, Changed, Replaced;
    }
  }

  lemma WithdrawKeeps(stored: Grants, w: World, key: Key, fate: Fate)
    requires Inv(stored, w)
    ensures Inv(stored, Withdrawn(w, key, fate))
  {
    if fate.fails.Some? {
      FailKeeps(stored, w, key, false, fate);
    } else {
      ReplacedExactly(w.store.disk, Changed(w.store.grants, key, false), fate);
      BackedChange(stored, w.store, w.log, Revocation(key), key, false);
      CountedRevoked(w.store.revocations, w.log, key);
      AllCapturesKept(w.calls, w.log, Revocation(key));
      OrderedKept(w.calls, w.log, Revocation(key));
      hide Ordered, AllBacked, Captures, Counted, Changed, Revocations, Replaced;
    }
  }

  lemma DispatchKeeps(stored: Grants, w: World, c: nat)
    requires Inv(stored, w) && c < |w.calls| && Current(w.store, w.calls[c].epoch)
    ensures Inv(stored, w.(log := w.log + [Dispatch(c)]))
  {
    CurrentIffUndisturbed(w.store, w.calls[c], w.log);
    BackedDispatch(stored, w.store.grants, w.log, c);
    CountedKept(w.store.revocations, w.log, Dispatch(c));
    AllCapturesKept(w.calls, w.log, Dispatch(c));
    assert Permitted(w.calls, w.log, |w.log|, c, Dispatch(c));
    OrderedKept(w.calls, w.log, Dispatch(c));
    hide Ordered, AllBacked, Captures, Counted;
  }

  lemma ResolveKeeps(stored: Grants, w: World, c: nat, answer: Answer, fate: Fate)
    requires Inv(stored, w) && c < |w.calls|
    ensures Inv(stored, DoResolve(w, c, answer, fate))
  {
    match answer
    case Once => MoveKeeps(stored, w, c, Ready);
    case Reject => MoveKeeps(stored, w, c, Refused);
    case Scoped(scope) =>
      var call := w.calls[c];
      var key := KeyOf(call.grant, scope, Under(scope, call.session));
      if key.Some? && Current(w.store, call.epoch) {
        ScopedKeeps(stored, w, c, scope, key.value, fate);
      } else {
        MoveKeeps(stored, w, c, Refused);
      }
  }

  lemma ScopedKeeps(stored: Grants, w: World, c: nat, scope: Scope, key: Key, fate: Fate)
    requires Inv(stored, w) && c < |w.calls| && Current(w.store, w.calls[c].epoch)
    requires KeyOf(w.calls[c].grant, scope, Under(scope, w.calls[c].session)) == Some(key)
    ensures Inv(stored, Move(Given(w, Commit(c, key), key, fate), c, if fate.fails.None? then Ready else Refused))
  {
    CurrentIffUndisturbed(w.store, w.calls[c], w.log);
    assert Permitted(w.calls, w.log, |w.log|, c, Commit(c, key));
    GiveKeeps(stored, w, Commit(c, key), key, fate);
    MoveKeeps(stored, Given(w, Commit(c, key), key, fate), c, if fate.fails.None? then Ready else Refused);
  }

  lemma StepKeeps(stored: Grants, w: World, step: Step)
    requires Inv(stored, w)
    ensures Inv(stored, Do(w, step))
  {
    hide Inv, DoResolve, Given, Withdrawn, AllowedBy;
    match step
    case Begin(g, session) => BeginKeeps(stored, w, g, session);
    case Trust(c) => if c < |w.calls| { MoveKeeps(stored, w, c, Ready); }
    case Consult(c) => if c < |w.calls| { ConsultKeeps(stored, w, c); }
    case Resolve(c, answer, fate) => if c < |w.calls| { ResolveKeeps(stored, w, c, answer, fate); }
    case Send(c) =>
      if c < |w.calls| {
        SendKeeps(stored, w, c);
      }
    case Give(g, scope, session, fate) =>
      var key := KeyOf(g, scope, session);
      if key.Some? {
        GiveKeeps(stored, w, Direct(key.value), key.value, fate);
      }
    case Withdraw(g, scope, session, fate) =>
      var key := KeyOf(g, scope, session);
      if key.Some? {
        WithdrawKeeps(stored, w, key.value, fate);
      }
  }

  lemma ConsultKeeps(stored: Grants, w: World, c: nat)
    requires Inv(stored, w) && c < |w.calls|
    ensures Inv(stored, Do(w, Consult(c)))
  {
    hide Inv, AllowedBy;
    MoveKeeps(stored, w, c, Refused);
    MoveKeeps(stored, w, c, Ready);
    MoveKeeps(stored, w, c, Asking);
  }

  lemma SendKeeps(stored: Grants, w: World, c: nat)
    requires Inv(stored, w) && c < |w.calls|
    ensures Inv(stored, DoSend(w, c))
  {
    if Current(w.store, w.calls[c].epoch) {
      DispatchKeeps(stored, w, c);
      MoveKeeps(stored, w.(log := w.log + [Dispatch(c)]), c, Dispatched);
    } else {
      MoveKeeps(stored, w, c, Refused);
    }
  }

  lemma {:induction false} RunKeeps(stored: Grants, disk: Disk, steps: seq<Step>)
    requires Sound(Host(stored, disk))
    ensures Inv(stored, Run(stored, disk, steps))
  {
    if steps == [] {
      InitHolds(stored, disk);
    } else {
      RunKeeps(stored, disk, steps[..|steps| - 1]);
      StepKeeps(stored, Run(stored, disk, steps[..|steps| - 1]), steps[|steps| - 1]);
    }
  }

  lemma InitHolds(stored: Grants, disk: Disk)
    requires Sound(Host(stored, disk))
    ensures Inv(stored, Init(stored, disk))
  {
  }

  // ----- whole runs

  predicate DependsOn(call: Call, key: Key) {
    OwnKey(call.grant, call.session, key)
  }

  /** Once a key is revoked, a call that captured its counters earlier and depends on the key
      neither commits a grant nor is dispatched, ever after. */
  ghost predicate Final(calls: seq<Call>, log: seq<Fact>) {
    forall c: nat, revoked: nat, acted: nat ::
      c < |calls| && calls[c].at <= revoked < acted < |log| && Disturbs(log[revoked], calls[c]) ==> !ActsFor(log[acted], c)
  }

  predicate Disturbs(fact: Fact, call: Call) {
    fact.Revocation? && DependsOn(call, fact.key)
  }

  lemma OrderedIsFinal(calls: seq<Call>, log: seq<Fact>, c: nat, revoked: nat, acted: nat)
    requires Ordered(calls, log) && c < |calls| && Captures(calls[c], log)
    requires calls[c].at <= revoked < acted < |log| && Disturbs(log[revoked], calls[c])
    ensures !ActsFor(log[acted], c)
  {
    hide KeyOf, Count;
    assert ActsFor(log[acted], c) ==> Permitted(calls, log, acted, c, log[acted]);
  }

  lemma {:induction false} RevocationIsFinal(stored: Grants, disk: Disk, steps: seq<Step>)
    requires Sound(Host(stored, disk))
    ensures Final(Run(stored, disk, steps).calls, Run(stored, disk, steps).log)
  {
    var w := Run(stored, disk, steps);
    RunKeeps(stored, disk, steps);
    hide Run, Ordered, Captures, Disturbs;
    forall c: nat, revoked: nat, acted: nat |
      c < |w.calls| && w.calls[c].at <= revoked < acted < |w.log| && Disturbs(w.log[revoked], w.calls[c])
      ensures !ActsFor(w.log[acted], c)
    {
      OrderedIsFinal(w.calls, w.log, c, revoked, acted);
    }
  }

  /** No key the call depends on was revoked since its capture. */
  ghost predicate Unrevoked(call: Call, log: seq<Fact>) {
    forall l: nat :: call.at <= l < |log| && log[l].Revocation? ==> !DependsOn(call, log[l].key)
  }

  lemma UndisturbedIffUnrevoked(call: Call, log: seq<Fact>)
    requires Captures(call, log)
    ensures Undisturbed(call, log, |log|) <==> Unrevoked(call, log)
  {
  }

  /** A ready call is dispatched exactly when none of its keys was revoked since its capture. */
  lemma {:induction false} DispatchedIffUnrevoked(stored: Grants, disk: Disk, steps: seq<Step>, c: nat)
    requires Sound(Host(stored, disk))
    requires c < |Run(stored, disk, steps).calls| && Run(stored, disk, steps).calls[c].phase == Ready
    ensures var w := Run(stored, disk, steps); Do(w, Send(c)).calls[c].phase == Dispatched <==> Unrevoked(w.calls[c], w.log)
  {
    var w := Run(stored, disk, steps);
    RunKeeps(stored, disk, steps);
    hide Run;
    CurrentIffUndisturbed(w.store, w.calls[c], w.log);
    UndisturbedIffUnrevoked(w.calls[c], w.log);
    hide Current, Undisturbed, Unrevoked, Inv;
  }

  /** A grant a call gave was captured after every revocation of its key before it. */
  ghost predicate GivenAfterCapture(calls: seq<Call>, log: seq<Fact>, key: Key) {
    forall l: nat, c: nat :: l < |log| && log[l] == Commit(c, key) ==>
      c < |calls| && calls[c].at <= l && Quiet(log, calls[c].at, l, Some(key))
  }

  lemma OrderedGivesAfterCapture(calls: seq<Call>, log: seq<Fact>, key: Key)
    requires Ordered(calls, log)
    ensures GivenAfterCapture(calls, log, key)
  {
    forall l: nat, c: nat | l < |log| && log[l] == Commit(c, key)
      ensures c < |calls| && calls[c].at <= l && Quiet(log, calls[c].at, l, Some(key))
    {
      assert ActsFor(log[l], c);
      assert Permitted(calls, log, l, c, log[l]);
    }
  }

  /** A grant is in force exactly when it was stored at the start or given later and not
      revoked since. */
  lemma {:induction false} GrantsAreBacked(stored: Grants, disk: Disk, steps: seq<Step>, key: Key)
    requires Sound(Host(stored, disk))
    ensures var w := Run(stored, disk, steps);
      && (Has(w.store.grants, key) <==> Backed(stored, w.log, key))
      && GivenAfterCapture(w.calls, w.log, key)
  {
    var w := Run(stored, disk, steps);
    RunKeeps(stored, disk, steps);
    hide Run, Ordered, Captures, Counted, Backed, GivenAfterCapture;
    OrderedGivesAfterCapture(w.calls, w.log, key);
  }

  /** Whatever calls on the file system fail during a run, memory is what opening the file
      would read, and no temporary file is in place. */
  lemma {:induction false} MemoryIsFile(stored: Grants, disk: Disk, steps: seq<Step>)
    requires Sound(Host(stored, disk))
    ensures var store := Run(stored, disk, steps).store; Opened(store.disk) == Some(store.grants) && store.disk.temp.None?
  {
    RunKeeps(stored, disk, steps);
  }

  // ----- what a dispatch needs

  /** The step gives the call leave to run: it is trusted, one of its keys is stored or given and
      not revoked since, or someone approved it, once or by a grant that was committed. */
  ghost predicate Leave(stored: Grants, w: World, c: nat, step: Step) {
    && c < |w.calls|
    && match step
       case Trust(b) => b == c && w.calls[c].phase == Captured
       case Consult(b) => b == c && w.calls[c].phase == Captured && exists key :: DependsOn(w.calls[c], key) && Backed(stored, w.log, key)
       case Resolve(b, answer, _) =>
         && b == c && w.calls[c].phase == Asking
         && (answer.Once? || (answer.Scoped? && exists key :: Do(w, step).log == w.log + [Commit(c, key)]))
       case _ => false
  }

  ghost predicate HadLeave(stored: Grants, disk: Disk, steps: seq<Step>, c: nat) {
    steps != [] &&
    var init := steps[..|steps| - 1];
    HadLeave(stored, disk, init, c) || Leave(stored, Run(stored, disk, init), c, steps[|steps| - 1])
  }

  predicate Cleared(w: World, c: nat) {
    c < |w.calls| && (w.calls[c].phase == Ready || w.calls[c].phase == Dispatched)
  }

  /** What consulting the store leads to, from the log alone. */
  lemma ConsultedExactly(stored: Grants, w: World, c: nat)
    requires AllBacked(stored, w.store.grants, w.log) && c < |w.calls| && w.calls[c].phase == Captured
    ensures var call, next := w.calls[c], Do(w, Consult(c)).calls[c].phase;
      && (next == Refused <==> forall key :: !DependsOn(call, key))
      && (next == Ready <==> exists key :: DependsOn(call, key) && Backed(stored, w.log, key))
      && (next == Refused || next == Ready || next == Asking)
  {
    AllowedExactly(w.store, w.calls[c].grant, w.calls[c].session);
    hide AllowedBy, OwnKey, Backed, Has;
    assert forall key :: DependsOn(w.calls[c], key) <==> OwnKey(w.calls[c].grant, w.calls[c].session, key);
    assert forall key :: Has(w.store.grants, key) <==> Backed(stored, w.log, key);
  }

  lemma ClearedByLeave(stored: Grants, w: World, step: Step, c: nat)
    requires AllBacked(stored, w.store.grants, w.log) && Cleared(Do(w, step), c) && !Cleared(w, c)
    ensures Leave(stored, w, c, step)
  {
    if step == Consult(c) {
      ConsultedExactly(stored, w, c);
    }
    hide AllowedBy, OwnKey, Backed, AllBacked, Capture, KeyOf, Current;
  }

  lemma {:induction false} ClearedHadLeave(stored: Grants, disk: Disk, steps: seq<Step>, c: nat)
    requires Sound(Host(stored, disk)) && Cleared(Run(stored, disk, steps), c)
    ensures HadLeave(stored, disk, steps, c)
  {
    if steps == [] {
    } else {
      var init := steps[..|steps| - 1];
      if Cleared(Run(stored, disk, init), c) {
        ClearedHadLeave(stored, disk, init, c);
      } else {
        RunKeeps(stored, disk, init);
        ClearedByLeave(stored, Run(stored, disk, init), steps[|steps| - 1], c);
      }
    }
  }

  /** A call is dispatched only after a step that gave it leave. */
  lemma {:induction false} DispatchNeedsLeave(stored: Grants, disk: Disk, steps: seq<Step>, c: nat)
    requires Sound(Host(stored, disk)) && steps != []
    requires Run(stored, disk, steps).log == Run(stored, disk, steps[..|steps| - 1]).log + [Dispatch(c)]
    ensures HadLeave(stored, disk, steps[..|steps| - 1], c)
  {
    var init := steps[..|steps| - 1];
    DispatchedWhenReady(Run(stored, disk, init), steps[|steps| - 1], c);
    ClearedHadLeave(stored, disk, init, c);
  }

  lemma DispatchedWhenReady(w: World, step: Step, c: nat)
    requires Do(w, step).log == w.log + [Dispatch(c)]
    ensures step == Send(c) && c < |w.calls| && w.calls[c].phase == Ready
  {
    hide KeyOf, ChangedTo, Revoked, AllowedBy, Capture;
    var longer := Do(w, step).log;
    assert longer[|w.log|] == Dispatch(c);
  }

  /** A refused call stays refused: it commits nothing and is never dispatched. */
  ghost predicate RefusedSince(w: World, from: nat, c: nat) {
    && c < |w.calls| && w.calls[c].phase == Refused
    && forall l: nat :: from <= l < |w.log| ==> !ActsFor(w.log[l], c)
  }

  lemma StaysRefused(w: World, step: Step, from: nat, c: nat)
    requires RefusedSince(w, from, c)
    ensures RefusedSince(Do(w, step), from, c)
  {
    hide KeyOf, ChangedTo, Revoked, AllowedBy, Capture, Current;
  }

  /** Rejecting a call refuses it, and so does a failed commit. */
  lemma RejectRefuses(w: World, c: nat, answer: Answer, fate: Fate)
    requires c < |w.calls| && w.calls[c].phase == Asking
    ensures answer.Reject? || (answer.Scoped? && fate.fails.Some?) ==> RefusedSince(Do(w, Resolve(c, answer, fate)), |w.log|, c)
  {
    hide KeyOf, ChangedTo, Current;
  }

  lemma {:induction false} RefusalIsFinal(stored: Grants, disk: Disk, steps: seq<Step>, from: nat, i: nat, c: nat)
    requires i <= |steps| && RefusedSince(Run(stored, disk, steps[..i]), from, c)
    ensures RefusedSince(Run(stored, disk, steps), from, c)
    decreases |steps|
  {
    if i == |steps| {
      assert steps[..i] == steps;
    } else {
      var init := steps[..|steps| - 1];
      assert init[..i] == steps[..i];
      RefusalIsFinal(stored, disk, init, from, i, c);
      StaysRefused(Run(stored, disk, init), steps[|steps| - 1], from, c);
    }
  }

  /** What an answer to an approval leads to, from the log alone: a call approved once is ready; one
      approved by a grant is ready exactly when the grant has a key, nothing the call depends on was
      revoked since its capture and the file was replaced, and then the grant is committed. */
  lemma {:induction false} ResolvedExactly(stored: Grants, disk: Disk, steps: seq<Step>, c: nat, answer: Answer, fate: Fate)
    requires Sound(Host(stored, disk))
    requires c < |Run(stored, disk, steps).calls| && Run(stored, disk, steps).calls[c].phase == Asking
    ensures var w := Run(stored, disk, steps);
      var call, next := w.calls[c], Do(w, Resolve(c, answer, fate));
      match answer
      case Once => next.calls[c].phase == Ready && next.log == w.log
      case Reject => next.calls[c].phase == Refused && next.log == w.log
      case Scoped(scope) =>
        if Complete(call.grant, scope, Under(scope, call.session)) && Unrevoked(call, w.log) && fate.fails.None? then
          next.calls[c].phase == Ready && exists key :: OwnKey(call.grant, call.session, key) && next.log == w.log + [Commit(c, key)]
        else next.calls[c].phase == Refused && next.log == w.log
  {
    var w := Run(stored, disk, steps);
    RunKeeps(stored, disk, steps);
    hide Run;
    var call := w.calls[c];
    CurrentIffUndisturbed(w.store, call, w.log);
    UndisturbedIffUnrevoked(call, w.log);
    hide Inv, Current, Undisturbed, Unrevoked, ChangedTo;
    if answer.Scoped? {
      KeysIdentify(call.grant, call.grant, answer.scope, answer.scope, Under(answer.scope, call.session), Under(answer.scope, call.session));
      ScopedKey(call.grant, answer.scope, call.session);
      hide KeyOf, Complete, OwnKey;
    }
  }

  lemma ScopedKey(g: Grant, scope: Scope, session: string)
    ensures var key := KeyOf(g, scope, Under(scope, session)); key.Some? ==> OwnKey(g, session, key.value)
  {
  }
}
