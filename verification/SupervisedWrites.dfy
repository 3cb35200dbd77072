/** Approved writes as interleaved steps over shared state.

    Every step is one critical section of the service, or one step a write makes
    on its own; `Next` says what each does to the state, and a step that is not
    possible changes nothing, so any sequence of steps is a run.  A crash clears
    memory and keeps what is durable: the pending-approval snapshot, the recovery
    ledger and the checkpoint archives. */
module SupervisedWrites {
  import opened FileSystem
  import opened RecoveryLedger

  const DIALOG_TOOL := "vrcforge_handle_unity_editor_dialog"
  const EXEMPT_TOOLS := {"vrcforge_restore_checkpoint", "vrcforge_resolve_interrupted_apply_recovery"}

  datatype ApprovalStatus = Pending | Approved | RevisionRequested | Rejected | Executing | Succeeded | Failed

  /** `source` is the approval a dialog click says it continues. */
  datatype Approval = Approval(status: ApprovalStatus, key: Key, tool: string, source: string, checkpoint: Option<string>)

  /** A write between its start and its removal; `beside` is the write it was admitted to continue. */
  datatype Flight = Flight(key: Key, tool: string, beside: Option<string>)

  datatype Lease = Lease(key: Key, token: string)

  datatype Stage = Preparing | Handling | Left

  /** One running write: what it holds and how far it is. */
  datatype Thread = Thread(lock: Option<Key>, checkpoint: Option<string>, recovery: Option<string>, stage: Stage)

  /** What a recovery line was written for. */
  datatype Guard = Guard(checkpoint: string, key: Key)

  /** One entry of a write handler. */
  datatype Handled = Handled(id: string, checkpoint: Option<string>, recovery: Option<string>)

  datatype State = State(
    approvals: map<string, Approval>,
    inFlight: map<string, Flight>,
    locks: map<Key, string>,
    leases: set<Lease>,
    storage: Option<string>,         // who holds the checkpoint store
    threads: map<string, Thread>,
    leaked: set<Key>,                // locks taken by a start that raised before it began a write
    // durable
    snapshot: map<string, Approval>,
    ledger: Ledger,
    archives: set<string>,
    torn: bool,                      // the ledger file ends in part of a line
    garbled: bool,                   // it holds part of a character and cannot be read
    // history
    issued: set<string>,             // every id given to an approval or an external write
    logged: map<string, Guard>,      // every recovery opened in this history
    swallowed: set<string>,          // those whose opening line no read finds
    entered: seq<Handled>)           // every handler entry, in order

  /** How the outcome of a write is judged when its recovery is settled. */
  datatype Verdict = Completed | NoWrite | RolledBack | CleanupOnly | Unknown | Waiting

  function SettledStatus(v: Verdict): Status {
    match v
    case Completed => Applied
    case NoWrite => NotApplied
    case RolledBack => Restored
    case CleanupOnly => Applied
    case Unknown => NeedsRecovery
    case Waiting => Applying
  }

  datatype Action =
    | Request(id: string, approval: Approval, persisted: bool)
    | Decide(id: string, approve: bool, persisted: bool)
    | Revise(id: string, persisted: bool)
    | Begin(id: string, known: bool, read: bool, recorded: bool)
    | BeginExternal(id: string, key: Key, tool: string, read: bool)
    | MakeCheckpoint(id: string, checkpoint: string, pruned: set<string>)
    | OpenRecovery(id: string, recovery: string, key: Key, broken: bool)
    | Enter(id: string)
    | LeaveStorage(id: string)
    | RecordOutcome(id: string, ok: bool)
    | Settle(id: string, verdict: Verdict, broken: bool)
    | Pop(id: string)
    | Release(id: string)
    | TakeLease(lease: Lease)
    | EndLease(lease: Lease)
    | Delete(ids: set<string>)
    | Note(line: Line, broken: bool)
    | Crash(readable: bool)
    | Tear(inCharacter: bool)

  // What a step looks at.

  function RecoveryKey(e: Entry): Key {
    if e.key.Some? then e.key.value else Global
  }

  predicate Reading(leases: set<Lease>, key: Key) {
    exists l | l in leases :: Conflict(l.key, key)
  }

  predicate Exempt(tool: string) {
    tool in EXEMPT_TOOLS
  }

  /** The write a dialog click continues: still executing, in flight, its checkpoint ready. */
  function SourceOf(s: State, a: Approval): Option<string> {
    if a.tool == DIALOG_TOOL && a.source in s.approvals && s.approvals[a.source].status.Executing?
       && a.source in s.inFlight && s.approvals[a.source].checkpoint.Some? then Some(a.source) else None
  }

  function SourceCheckpoint(s: State, source: Option<string>): Option<string> {
    if source.Some? && source.value in s.approvals then s.approvals[source.value].checkpoint else None
  }

  /** The writes in flight that stand in the way of `key`. */
  function Busy(inFlight: map<string, Flight>, key: Key, except: Option<string>): set<string> {
    set id | id in inFlight && Conflict(inFlight[id].key, key) && except != Some(id)
  }

  /** The active recoveries that stand in the way of `key`. */
  function Blocking(log: Ledger, key: Key, except: Option<string>): set<string> {
    set id | id in ActiveIds(log) && Conflict(RecoveryKey(StateOf(log, id)), key)
             && !(except.Some? && StateOf(log, id).checkpointId == except)
  }

  datatype Admission = NotFound | NotApproved | NoHandler | BackgroundRead | ConcurrentWrite
                     | LockHeld | Unread | RecoveryBlocked | Admitted(beside: Option<string>)

  /** `read` says whether the operating system lets the ledger be read. */
  function Admit(s: State, id: string, known: bool, read: bool): Admission {
    if id !in s.approvals then NotFound
    else
      var a := s.approvals[id];
      var source := SourceOf(s, a);
      if !a.status.Approved? then NotApproved
      else if !known then NoHandler
      else if Reading(s.leases, a.key) then BackgroundRead
      else if Busy(s.inFlight, a.key, source) != {} then ConcurrentWrite
      else if source.None? && a.key in s.locks then LockHeld
      else if !read || s.garbled then Unread
      else if Blocking(s.ledger, a.key, SourceCheckpoint(s, source)) != {} && !Exempt(a.tool) then RecoveryBlocked
      else Admitted(source)
  }

  /** The lock is taken before the ledger is read, and given back only after a refusal has been recorded. */
  predicate Leaks(s: State, id: string, known: bool, read: bool, recorded: bool) {
    var r := Admit(s, id, known, read);
    id in s.approvals && SourceOf(s, s.approvals[id]).None? && (r.Unread? || (r.RecoveryBlocked? && !recorded))
  }

  predicate AdmitExternal(s: State, id: string, key: Key, tool: string, read: bool) {
    && id !in s.issued
    && !Reading(s.leases, key)
    && read && !s.garbled
    && (Blocking(s.ledger, key, None) == {} || Exempt(tool))
    && Busy(s.inFlight, key, None) == {}
    && key !in s.locks
  }

  function Pendings(approvals: map<string, Approval>): map<string, Approval> {
    map id | id in approvals && approvals[id].status.Pending? :: approvals[id]
  }

  // What each step does.

  function SetStatus(s: State, id: string, status: ApprovalStatus, persisted: bool): State
    requires id in s.approvals
  {
    if !persisted then s
    else
      var approvals := s.approvals[id := s.approvals[id].(status := status)];
      s.(approvals := approvals, snapshot := Pendings(approvals))
  }

  function Requested(s: State, id: string, a: Approval, persisted: bool): State {
    if id in s.issued || !(a.status.Pending? || a.status.Approved?) || a.checkpoint.Some? then s
    else if !persisted then s.(issued := s.issued + {id})
    else
      var approvals := s.approvals[id := a];
      s.(approvals := approvals, snapshot := Pendings(approvals), issued := s.issued + {id})
  }

  function Started(s: State, id: string, f: Flight): State {
    s.(inFlight := s.inFlight[id := f],
       locks := if f.beside.None? then s.locks[f.key := id] else s.locks,
       threads := s.threads[id := Thread(if f.beside.None? then Some(f.key) else None, None, None, Preparing)])
  }

  function Begun(s: State, id: string, known: bool, read: bool, recorded: bool): State {
    var admission := Admit(s, id, known, read);
    if Leaks(s, id, known, read, recorded)
    then s.(locks := s.locks[s.approvals[id].key := id], leaked := s.leaked + {s.approvals[id].key})
    else if !admission.Admitted? || !recorded then s
    else
      var a := s.approvals[id];
      Started(s.(approvals := s.approvals[id := a.(status := Executing)]), id, Flight(a.key, a.tool, admission.beside))
  }

  function Checkpointed(s: State, id: string, checkpoint: string, pruned: set<string>): State {
    if s.storage.None? && checkpoint != "" && checkpoint !in s.archives && !s.garbled
       && id in s.threads && s.threads[id].stage.Preparing? && s.threads[id].checkpoint.None?
    then
      s.(storage := Some(id),
         threads := s.threads[id := s.threads[id].(checkpoint := Some(checkpoint))],
         approvals := if id in s.approvals then s.approvals[id := s.approvals[id].(checkpoint := Some(checkpoint))]
                      else s.approvals,
         archives := s.archives + {checkpoint} - (pruned - Protected(s.ledger) - {checkpoint}))
    else s
  }

  /** The line that opens a recovery, written before the handler runs. */
  function Opening(rid: string, g: Guard): Line {
    Line(rid, NOTHING.(status := Some(Applying), checkpointId := Some(g.checkpoint), key := Some(g.key)))
  }

  /** The line that settles it, or keeps it open, when the handler has returned. */
  function Closing(rid: string, g: Guard, v: Verdict): Line {
    Line(rid, NOTHING.(status := Some(SettledStatus(v)), checkpointId := Some(g.checkpoint), key := Some(g.key)))
  }

  /** Appending does not look at how the file ends: a line that runs into part of another is lost with it.
      So is a broken one, whose text holds a character that is kept as it is and taken for the end of a line. */
  function Written(s: State, line: Line, broken: bool): State {
    if s.torn || broken then s.(torn := false) else s.(ledger := s.ledger + [line])
  }

  function Opened(s: State, id: string, recovery: string, key: Key, broken: bool): State {
    if s.storage == Some(id) && recovery != "" && recovery !in Ids(s.ledger) && recovery !in s.logged && recovery !in s.swallowed
       && id in s.threads && s.threads[id].stage.Preparing?
       && s.threads[id].checkpoint.Some? && s.threads[id].recovery.None?
    then
      var c := s.threads[id].checkpoint.value;
      Written(s, Opening(recovery, Guard(c, key)), broken).(
        threads := s.threads[id := s.threads[id].(recovery := Some(recovery))],
        logged := s.logged[recovery := Guard(c, key)],
        swallowed := if s.torn || broken then s.swallowed + {recovery} else s.swallowed)
    else s
  }

  function Entered(s: State, id: string): State {
    if id in s.threads && s.threads[id].stage.Preparing?
       && (s.threads[id].checkpoint.None? || s.threads[id].recovery.Some?)
    then
      var t := s.threads[id];
      s.(threads := s.threads[id := t.(stage := Handling)],
         entered := s.entered + [Handled(id, t.checkpoint, t.recovery)])
    else s
  }

  function Recorded(s: State, id: string, ok: bool): State {
    if id in s.threads && !s.threads[id].stage.Left? && id in s.approvals && (ok ==> s.threads[id].stage.Handling?)
    then s.(approvals := s.approvals[id := s.approvals[id].(status := if ok then Succeeded else Failed)])
    else s
  }

  function Settling(s: State, id: string, v: Verdict, broken: bool): State {
    if !s.garbled && id in s.threads && !s.threads[id].stage.Left? && s.threads[id].recovery.Some? && s.threads[id].recovery.value in s.logged
    then
      var rid := s.threads[id].recovery.value;
      Written(s, Closing(rid, s.logged[rid], v), broken)
    else s
  }

  function Popped(s: State, id: string): State {
    if id in s.threads && !s.threads[id].stage.Left? && s.storage != Some(id)
    then s.(inFlight := s.inFlight - {id}, threads := s.threads[id := s.threads[id].(stage := Left)])
    else s
  }

  function Released(s: State, id: string): State {
    if id in s.threads && s.threads[id].stage.Left?
    then s.(locks := if s.threads[id].lock.Some? then s.locks - {s.threads[id].lock.value} else s.locks,
            threads := s.threads - {id})
    else s
  }

  function Leased(s: State, l: Lease): State {
    if l.token == "" || Busy(s.inFlight, l.key, None) != {} || Reading(s.leases, l.key) then s else s.(leases := s.leases + {l})
  }

  /** A recovery tool's line: it names the same checkpoint and project as the recovery does, or none. */
  predicate Faithful(s: State, line: Line) {
    line.id in s.logged ==>
      && (line.entry.checkpointId.Some? ==> line.entry.checkpointId.value == s.logged[line.id].checkpoint)
      && (line.entry.key.Some? ==> line.entry.key.value == s.logged[line.id].key)
  }

  /** What is in memory is lost; an unreadable snapshot restores nothing. */
  function Crashed(s: State, readable: bool): State {
    State(if readable then s.snapshot else map[], map[], map[], {}, None, map[], {},
          s.snapshot, s.ledger, s.archives, s.torn, s.garbled, s.issued, s.logged, s.swallowed, s.entered)
  }

  function Decided(s: State, id: string, approve: bool, persisted: bool): State {
    if id in s.approvals && (s.approvals[id].status.Pending? || s.approvals[id].status.Approved?)
    then SetStatus(s, id, if approve then Approved else Rejected, persisted) else s
  }

  function Revised(s: State, id: string, persisted: bool): State {
    if id in s.approvals && s.approvals[id].status.Pending? then SetStatus(s, id, RevisionRequested, persisted) else s
  }

  function BegunExternal(s: State, id: string, key: Key, tool: string, read: bool): State {
    if AdmitExternal(s, id, key, tool, read)
    then Started(s.(issued := s.issued + {id}), id, Flight(key, tool, None)) else s
  }

  function LeftStorage(s: State, id: string): State {
    if s.storage == Some(id) then s.(storage := None) else s
  }

  function Unleased(s: State, l: Lease): State {
    s.(leases := s.leases - {l})
  }

  function Deleted(s: State, ids: set<string>): State {
    if s.storage.None? && !s.garbled then s.(archives := s.archives - (ids - Protected(s.ledger))) else s
  }

  function Noted(s: State, line: Line, broken: bool): State {
    if Faithful(s, line) then Written(s, line, broken) else s
  }

  function Torn(s: State, inCharacter: bool): State {
    s.(torn := true, garbled := s.garbled || inCharacter)
  }

  function Next(s: State, a: Action): State {
    match a
    case Request(id, approval, persisted) => Requested(s, id, approval, persisted)
    case Decide(id, approve, persisted) => Decided(s, id, approve, persisted)
    case Revise(id, persisted) => Revised(s, id, persisted)
    case Begin(id, known, read, recorded) => Begun(s, id, known, read, recorded)
    case BeginExternal(id, key, tool, read) => BegunExternal(s, id, key, tool, read)
    case MakeCheckpoint(id, checkpoint, pruned) => Checkpointed(s, id, checkpoint, pruned)
    case OpenRecovery(id, recovery, key, broken) => Opened(s, id, recovery, key, broken)
    case Enter(id) => Entered(s, id)
    case LeaveStorage(id) => LeftStorage(s, id)
    case RecordOutcome(id, ok) => Recorded(s, id, ok)
    case Settle(id, verdict, broken) => Settling(s, id, verdict, broken)
    case Pop(id) => Popped(s, id)
    case Release(id) => Released(s, id)
    case TakeLease(l) => Leased(s, l)
    case EndLease(l) => Unleased(s, l)
    case Delete(ids) => Deleted(s, ids)
    case Note(line, broken) => Noted(s, line, broken)
    case Crash(readable) => Crashed(s, readable)
    case Tear(inCharacter) => Torn(s, inCharacter)
  }

  function Run(s: State, actions: seq<Action>): State {
    if actions == [] then s
    else Next(Run(s, actions[..|actions| - 1]), actions[|actions| - 1])
  }

  /** A host with nothing in memory and whatever ledger and archives earlier hosts left. */
  function Start(ledger: Ledger, archives: set<string>): State {
    State(map[], map[], map[], {}, None, map[], {}, map[], ledger, archives, false, false, {}, map[], {}, [])
  }

  // The invariant.

  ghost predicate HasEntered(entered: seq<Handled>, id: string) {
    exists i :: 0 <= i < |entered| && entered[i].id == id
  }

  ghost predicate Waits(s: State, id: string) {
    id in s.issued && id !in s.threads && !HasEntered(s.entered, id)
  }

  /** An approval that may still start has not started before, in memory or on disk. */
  ghost predicate Once(s: State) {
    && (forall i, j :: 0 <= i < j < |s.entered| ==> s.entered[i].id != s.entered[j].id)
    && (forall i :: 0 <= i < |s.entered| ==> s.entered[i].id in s.issued)
    && s.approvals.Keys <= s.issued && s.snapshot.Keys <= s.issued && s.threads.Keys <= s.issued
    && (forall id | id in s.approvals && (s.approvals[id].status.Pending? || s.approvals[id].status.Approved?) :: Waits(s, id))
    && (forall id | id in s.snapshot ::
          s.snapshot[id].status.Pending? && Waits(s, id) && (id in s.approvals ==> s.approvals[id].status.Pending?))
    && (forall id | id in s.threads && s.threads[id].stage.Preparing? :: !HasEntered(s.entered, id))
  }

  /** Conflicting writes in flight are a dialog continuation and the write it continues. */
  ghost predicate FlightsApart(inFlight: map<string, Flight>) {
    forall a, b | a in inFlight && b in inFlight && a != b && Conflict(inFlight[a].key, inFlight[b].key) ::
      inFlight[a].beside == Some(b) || inFlight[b].beside == Some(a)
  }

  ghost predicate ReadersApart(inFlight: map<string, Flight>, leases: set<Lease>) {
    && (forall id, l | id in inFlight && l in leases :: !Conflict(inFlight[id].key, l.key))
    && (forall l, m | l in leases && m in leases && l != m :: !Conflict(l.key, m.key))
  }

  /** A write is in flight until it leaves; unless it continues another, it holds its project's lock until released.
      A lock that is held by no write has been leaked. */
  ghost predicate Locked(inFlight: map<string, Flight>, locks: map<Key, string>, threads: map<string, Thread>, leaked: set<Key>) {
    && (forall id :: id in inFlight <==> id in threads && !threads[id].stage.Left?)
    && (forall id | id in inFlight :: threads[id].lock == if inFlight[id].beside.None? then Some(inFlight[id].key) else None)
    && (forall id | id in threads && threads[id].lock.Some? :: Holds(locks, threads[id].lock.value, id))
    && (forall k | k in locks && k !in leaked :: locks[k] in threads && threads[locks[k]].lock == Some(k))
    && (forall k | k in leaked :: k in locks && forall id | id in threads :: threads[id].lock != Some(k))
  }

  ghost predicate Exclusive(s: State) {
    FlightsApart(s.inFlight) && ReadersApart(s.inFlight, s.leases) && Locked(s.inFlight, s.locks, s.threads, s.leaked)
  }

  predicate Holds(locks: map<Key, string>, k: Key, id: string) {
    k in locks && locks[k] == id
  }

  predicate Settles(line: Line, rid: string) {
    line.id == rid && line.entry.status.Some? && !ActiveStatus(line.entry.status.value)
  }

  ghost predicate Settled(log: Ledger, rid: string) {
    exists line | line in log :: Settles(line, rid)
  }

  /** The ledger says of recovery `rid` what it was opened for, and its archive is there. */
  ghost predicate Guarded(log: Ledger, archives: set<string>, rid: string, g: Guard) {
    && Active(log, rid) && StateOf(log, rid).checkpointId == Some(g.checkpoint)
    && StateOf(log, rid).key == Some(g.key) && g.checkpoint in archives
  }

  ghost predicate Backed(logged: map<string, Guard>, checkpoint: Option<string>, recovery: Option<string>) {
    checkpoint.Some? ==> recovery.Some? && recovery.value in logged && logged[recovery.value].checkpoint == checkpoint.value
  }

  ghost predicate Logged(logged: map<string, Guard>, log: Ledger, archives: set<string>) {
    && (forall rid | rid in logged :: rid != "" && rid in Ids(log) && logged[rid].checkpoint != "")
    && (forall rid | rid in logged && !Settled(log, rid) :: Guarded(log, archives, rid, logged[rid]))
  }

  ghost predicate ThreadBacked(logged: map<string, Guard>, t: Thread) {
    && (t.recovery.Some? ==> t.recovery.value != "" && t.checkpoint.Some? && Backed(logged, t.checkpoint, t.recovery))
    && (t.checkpoint.Some? ==> t.checkpoint.value != "")
  }

  ghost predicate ThreadsBacked(logged: map<string, Guard>, threads: map<string, Thread>) {
    forall id | id in threads :: ThreadBacked(logged, threads[id])
  }

  ghost predicate EntriesBacked(logged: map<string, Guard>, entered: seq<Handled>) {
    forall i :: 0 <= i < |entered| ==> Backed(logged, entered[i].checkpoint, entered[i].recovery)
  }

  /** While a write holds the store between its checkpoint and its recovery line, the archive is there. */
  ghost predicate StoreHeld(storage: Option<string>, threads: map<string, Thread>, archives: set<string>) {
    storage.Some? ==>
      && storage.value in threads && threads[storage.value].checkpoint.Some? && !threads[storage.value].stage.Left?
      && (threads[storage.value].recovery.None? ==> threads[storage.value].checkpoint.value in archives)
  }

  /** The recoveries whose opening line can be read. */
  function Shown(s: State): map<string, Guard> {
    s.logged - s.swallowed
  }

  ghost predicate WriteAhead(s: State) {
    && Logged(Shown(s), s.ledger, s.archives) && EntriesBacked(s.logged, s.entered)
    && ThreadsBacked(s.logged, s.threads) && StoreHeld(s.storage, s.threads, s.archives)
  }

  lemma OnceRequested(s: State, id: string, a: Approval, persisted: bool)
    requires Once(s)
    ensures Once(Requested(s, id, a, persisted))
  {
  }

  lemma OnceSetStatus(s: State, id: string, status: ApprovalStatus, persisted: bool)
    requires Once(s) && id in s.approvals && (s.approvals[id].status.Pending? || s.approvals[id].status.Approved?)
    requires !status.Pending?
    ensures Once(SetStatus(s, id, status, persisted))
  {
  }

  lemma OnceBegun(s: State, id: string, known: bool, read: bool, recorded: bool)
    requires Once(s)
    ensures Once(Begun(s, id, known, read, recorded))
  {
  }

  lemma OnceCheckpointed(s: State, id: string, checkpoint: string, pruned: set<string>)
    requires Once(s)
    ensures Once(Checkpointed(s, id, checkpoint, pruned))
  {
  }

  lemma OnceEntered(s: State, id: string)
    requires Once(s)
    ensures Once(Entered(s, id))
  {
    var t := Entered(s, id);
    forall other ensures HasEntered(t.entered, other) <==> HasEntered(s.entered, other) || (t != s && other == id) {
      if t != s && other == id {
        assert t.entered[|s.entered|].id == id;
      }
      if HasEntered(s.entered, other) {
        var i :| 0 <= i < |s.entered| && s.entered[i].id == other;
        assert t.entered[i].id == other;
      }
    }
  }

  lemma OnceAdmittedExternal(s: State, id: string, key: Key, tool: string, read: bool)
    requires Once(s)
    ensures Once(BegunExternal(s, id, key, tool, read))
  {
  }

  lemma OncePopped(s: State, id: string)
    requires Once(s)
    ensures Once(Popped(s, id))
  {
  }

  lemma OnceReleased(s: State, id: string)
    requires Once(s)
    ensures Once(Released(s, id))
  {
  }

  lemma OnceCrashed(s: State, readable: bool)
    requires Once(s)
    ensures Once(Crashed(s, readable))
  {
  }

  lemma OnceFrame(s: State, t: State)
    requires Once(s) && t.approvals == s.approvals && t.snapshot == s.snapshot && t.issued == s.issued && t.entered == s.entered
    requires t.threads.Keys == s.threads.Keys && forall id | id in s.threads :: t.threads[id].stage == s.threads[id].stage
    ensures Once(t)
  {
  }

  lemma OnceOpened(s: State, id: string, recovery: string, key: Key, broken: bool)
    requires Once(s)
    ensures Once(Opened(s, id, recovery, key, broken))
  {
    hide Once;
    OnceFrame(s, Opened(s, id, recovery, key, broken));
  }

  lemma OnceSettling(s: State, id: string, v: Verdict, broken: bool)
    requires Once(s)
    ensures Once(Settling(s, id, v, broken))
  {
    hide Once;
    OnceFrame(s, Settling(s, id, v, broken));
  }

  lemma OnceRecorded(s: State, id: string, ok: bool)
    requires Once(s)
    ensures Once(Recorded(s, id, ok))
  {
  }

  lemma OnceDecided(s: State, id: string, approve: bool, persisted: bool)
    requires Once(s)
    ensures Once(Decided(s, id, approve, persisted)) && Once(Revised(s, id, persisted))
  {
    hide SetStatus, Once;
    if id in s.approvals && (s.approvals[id].status.Pending? || s.approvals[id].status.Approved?) {
      OnceSetStatus(s, id, if approve then Approved else Rejected, persisted);
      OnceSetStatus(s, id, RevisionRequested, persisted);
    }
  }

  lemma OnceLeftStorage(s: State, id: string)
    requires Once(s)
    ensures Once(LeftStorage(s, id))
  {
    hide Once;
    OnceFrame(s, LeftStorage(s, id));
  }

  lemma OnceNoted(s: State, line: Line, broken: bool)
    requires Once(s)
    ensures Once(Noted(s, line, broken))
  {
    hide Once, Faithful;
    OnceFrame(s, Noted(s, line, broken));
  }

  lemma OnceDeleted(s: State, ids: set<string>)
    requires Once(s)
    ensures Once(Deleted(s, ids))
  {
    hide Once, Protected;
    OnceFrame(s, Deleted(s, ids));
  }

  lemma OnceTorn(s: State, inCharacter: bool)
    requires Once(s)
    ensures Once(Torn(s, inCharacter))
  {
    hide Once;
    OnceFrame(s, Torn(s, inCharacter));
  }

  lemma OnceLeased(s: State, l: Lease)
    requires Once(s)
    ensures Once(Leased(s, l))
  {
    hide Once, Busy, Reading;
    OnceFrame(s, s.(leases := s.leases + {l}));
  }

  lemma OnceUnleased(s: State, l: Lease)
    requires Once(s)
    ensures Once(Unleased(s, l))
  {
    hide Once;
    OnceFrame(s, Unleased(s, l));
  }

  lemma OnceKept(s: State, a: Action)
    requires Once(s)
    ensures Once(Next(s, a))
  {
    hide Requested, Decided, Revised, Begun, BegunExternal, Checkpointed, Opened, Entered, LeftStorage, Recorded, Settling,
         Popped, Released, Leased, Unleased, Deleted, Noted, Crashed, Torn, Once, Exclusive, WriteAhead;
    match a
    case Request(id, approval, persisted) => OnceRequested(s, id, approval, persisted);
    case Decide(id, approve, persisted) => OnceDecided(s, id, approve, persisted);
    case Revise(id, persisted) => OnceDecided(s, id, false, persisted);
    case Begin(id, known, read, recorded) => OnceBegun(s, id, known, read, recorded);
    case BeginExternal(id, key, tool, read) => OnceAdmittedExternal(s, id, key, tool, read);
    case MakeCheckpoint(id, checkpoint, pruned) => OnceCheckpointed(s, id, checkpoint, pruned);
    case OpenRecovery(id, recovery, key, broken) => OnceOpened(s, id, recovery, key, broken);
    case Enter(id) => OnceEntered(s, id);
    case LeaveStorage(id) => OnceLeftStorage(s, id);
    case RecordOutcome(id, ok) => OnceRecorded(s, id, ok);
    case Settle(id, v, broken) => OnceSettling(s, id, v, broken);
    case Pop(id) => OncePopped(s, id);
    case Release(id) => OnceReleased(s, id);
    case TakeLease(l) => OnceLeased(s, l);
    case EndLease(l) => OnceUnleased(s, l);
    case Delete(ids) => OnceDeleted(s, ids);
    case Note(line, broken) => OnceNoted(s, line, broken);
    case Crash(readable) => OnceCrashed(s, readable);
    case Tear(inCharacter) => OnceTorn(s, inCharacter);
  }

  lemma StartedLocked(s: State, id: string, f: Flight)
    requires Locked(s.inFlight, s.locks, s.threads, s.leaked) && id !in s.threads
    requires f.beside.None? ==> f.key !in s.locks
    ensures var t := Started(s, id, f); Locked(t.inFlight, t.locks, t.threads, t.leaked)
  {
  }

  lemma StartedApart(s: State, id: string, f: Flight)
    requires Exclusive(s) && id !in s.inFlight
    requires Busy(s.inFlight, f.key, f.beside) == {} && !Reading(s.leases, f.key)
    ensures FlightsApart(s.inFlight[id := f]) && ReadersApart(s.inFlight[id := f], s.leases)
  {
    forall other | other in s.inFlight && Conflict(s.inFlight[other].key, f.key) ensures f.beside == Some(other) {
      assert other !in Busy(s.inFlight, f.key, f.beside);
    }
  }

  lemma LeftLocked(s: State, id: string)
    requires Locked(s.inFlight, s.locks, s.threads, s.leaked)
    ensures var t := Popped(s, id); Locked(t.inFlight, t.locks, t.threads, t.leaked)
  {
  }

  lemma ReleasedLocked(s: State, id: string)
    requires Locked(s.inFlight, s.locks, s.threads, s.leaked)
    ensures var t := Released(s, id); Locked(t.inFlight, t.locks, t.threads, t.leaked)
  {
  }

  lemma LeasedApart(s: State, l: Lease)
    requires ReadersApart(s.inFlight, s.leases)
    requires Busy(s.inFlight, l.key, None) == {} && !Reading(s.leases, l.key)
    ensures ReadersApart(s.inFlight, s.leases + {l})
  {
    forall id | id in s.inFlight ensures !Conflict(s.inFlight[id].key, l.key) {
      assert id !in Busy(s.inFlight, l.key, None);
    }
  }

  /** Changing how far a write is changes nothing about what it holds. */
  lemma AdvancedLocked(s: State, t: State, id: string)
    requires Locked(s.inFlight, s.locks, s.threads, s.leaked) && id in s.threads && t.inFlight == s.inFlight && t.locks == s.locks
    requires t.leaked == s.leaked
    requires id in t.threads && t.threads == s.threads[id := t.threads[id]] && t.threads[id].lock == s.threads[id].lock
    requires t.threads[id].stage.Left? == s.threads[id].stage.Left?
    ensures Locked(t.inFlight, t.locks, t.threads, t.leaked)
  {
  }

  lemma ExclusiveLeaked(s: State, id: string, known: bool, read: bool, recorded: bool)
    requires Exclusive(s) && Leaks(s, id, known, read, recorded)
    ensures Exclusive(Begun(s, id, known, read, recorded))
  {
    assert s.approvals[id].key !in s.locks;
  }

  lemma ExclusiveBegun(s: State, id: string, known: bool, read: bool, recorded: bool)
    requires Exclusive(s) && Once(s)
    ensures Exclusive(Begun(s, id, known, read, recorded))
  {
    var admission := Admit(s, id, known, read);
    if Leaks(s, id, known, read, recorded) {
      ExclusiveLeaked(s, id, known, read, recorded);
    } else if admission.Admitted? && recorded {
      var f := Flight(s.approvals[id].key, s.approvals[id].tool, admission.beside);
      StartedApart(s, id, f);
      StartedLocked(s, id, f);
    }
  }

  lemma ExclusiveBegunExternal(s: State, id: string, key: Key, tool: string, read: bool)
    requires Exclusive(s) && Once(s)
    ensures Exclusive(BegunExternal(s, id, key, tool, read))
  {
    if AdmitExternal(s, id, key, tool, read) {
      StartedApart(s, id, Flight(key, tool, None));
      StartedLocked(s, id, Flight(key, tool, None));
    }
  }

  lemma ExclusiveCheckpointed(s: State, id: string, checkpoint: string, pruned: set<string>)
    requires Exclusive(s)
    ensures Exclusive(Checkpointed(s, id, checkpoint, pruned))
  {
    if Checkpointed(s, id, checkpoint, pruned) != s {
      AdvancedLocked(s, Checkpointed(s, id, checkpoint, pruned), id);
    }
  }

  lemma ExclusiveOpened(s: State, id: string, recovery: string, key: Key, broken: bool)
    requires Exclusive(s)
    ensures Exclusive(Opened(s, id, recovery, key, broken))
  {
    hide Locked;
    if Opened(s, id, recovery, key, broken) != s {
      AdvancedLocked(s, Opened(s, id, recovery, key, broken), id);
    }
  }

  lemma ExclusiveEntered(s: State, id: string)
    requires Exclusive(s)
    ensures Exclusive(Entered(s, id))
  {
    hide Locked;
    if Entered(s, id) != s {
      AdvancedLocked(s, Entered(s, id), id);
    }
  }

  lemma ExclusiveFrame(s: State, t: State)
    requires Exclusive(s) && t.inFlight == s.inFlight && t.locks == s.locks && t.threads == s.threads && t.leaked == s.leaked
    requires t.leases <= s.leases
    ensures Exclusive(t)
  {
  }

  lemma ExclusiveRecorded(s: State, id: string, ok: bool)
    requires Exclusive(s)
    ensures Exclusive(Recorded(s, id, ok))
  {
    hide Exclusive;
    ExclusiveFrame(s, Recorded(s, id, ok));
  }

  lemma ExclusiveSettling(s: State, id: string, v: Verdict, broken: bool)
    requires Exclusive(s)
    ensures Exclusive(Settling(s, id, v, broken))
  {
    hide Exclusive;
    ExclusiveFrame(s, Settling(s, id, v, broken));
  }

  lemma ExclusiveRequested(s: State, id: string, a: Approval, persisted: bool)
    requires Exclusive(s)
    ensures Exclusive(Requested(s, id, a, persisted))
  {
    hide Exclusive, Pendings;
    ExclusiveFrame(s, Requested(s, id, a, persisted));
  }

  lemma ExclusiveSet(s: State, id: string, status: ApprovalStatus, persisted: bool)
    requires Exclusive(s) && id in s.approvals
    ensures Exclusive(SetStatus(s, id, status, persisted))
  {
    hide Exclusive, Pendings;
    ExclusiveFrame(s, SetStatus(s, id, status, persisted));
  }

  lemma ExclusiveCrashed(s: State, readable: bool)
    ensures Exclusive(Crashed(s, readable))
  {
  }

  lemma ExclusivePopped(s: State, id: string)
    requires Exclusive(s)
    ensures Exclusive(Popped(s, id))
  {
    LeftLocked(s, id);
  }

  lemma ExclusiveReleased(s: State, id: string)
    requires Exclusive(s)
    ensures Exclusive(Released(s, id))
  {
    ReleasedLocked(s, id);
  }

  lemma ExclusiveLeased(s: State, l: Lease)
    requires Exclusive(s)
    ensures Exclusive(Leased(s, l))
  {
    if l.token != "" && Busy(s.inFlight, l.key, None) == {} && !Reading(s.leases, l.key) {
      LeasedApart(s, l);
    }
  }

  lemma ExclusiveLeftStorage(s: State, id: string)
    requires Exclusive(s)
    ensures Exclusive(LeftStorage(s, id))
  {
    hide Exclusive;
    ExclusiveFrame(s, LeftStorage(s, id));
  }

  lemma ExclusiveNoted(s: State, line: Line, broken: bool)
    requires Exclusive(s)
    ensures Exclusive(Noted(s, line, broken))
  {
    hide Exclusive, Faithful;
    ExclusiveFrame(s, Noted(s, line, broken));
  }

  lemma ExclusiveDeleted(s: State, ids: set<string>)
    requires Exclusive(s)
    ensures Exclusive(Deleted(s, ids))
  {
    hide Exclusive, Protected;
    ExclusiveFrame(s, Deleted(s, ids));
  }

  lemma ExclusiveTorn(s: State, inCharacter: bool)
    requires Exclusive(s)
    ensures Exclusive(Torn(s, inCharacter))
  {
    hide Exclusive;
    ExclusiveFrame(s, Torn(s, inCharacter));
  }

  lemma ExclusiveUnleased(s: State, l: Lease)
    requires Exclusive(s)
    ensures Exclusive(Unleased(s, l))
  {
    hide Exclusive;
    ExclusiveFrame(s, Unleased(s, l));
  }

  lemma ExclusiveDecided(s: State, id: string, approve: bool, persisted: bool)
    requires Exclusive(s)
    ensures Exclusive(Decided(s, id, approve, persisted)) && Exclusive(Revised(s, id, persisted))
  {
    hide Exclusive, SetStatus;
    if id in s.approvals {
      ExclusiveSet(s, id, if approve then Approved else Rejected, persisted);
      ExclusiveSet(s, id, RevisionRequested, persisted);
    }
  }

  lemma ExclusiveKept(s: State, a: Action)
    requires Exclusive(s) && Once(s)
    ensures Exclusive(Next(s, a))
  {
    hide Requested, Decided, Revised, Begun, BegunExternal, Checkpointed, Opened, Entered, LeftStorage, Recorded, Settling,
         Popped, Released, Leased, Unleased, Deleted, Noted, Crashed, Torn, Once, Exclusive, WriteAhead;
    match a
    case Request(id, approval, persisted) => ExclusiveRequested(s, id, approval, persisted);
    case Decide(id, approve, persisted) => ExclusiveDecided(s, id, approve, persisted);
    case Revise(id, persisted) => ExclusiveDecided(s, id, false, persisted);
    case Begin(id, known, read, recorded) => ExclusiveBegun(s, id, known, read, recorded);
    case BeginExternal(id, key, tool, read) => ExclusiveBegunExternal(s, id, key, tool, read);
    case MakeCheckpoint(id, checkpoint, pruned) => ExclusiveCheckpointed(s, id, checkpoint, pruned);
    case OpenRecovery(id, recovery, key, broken) => ExclusiveOpened(s, id, recovery, key, broken);
    case Enter(id) => ExclusiveEntered(s, id);
    case LeaveStorage(id) => ExclusiveLeftStorage(s, id);
    case RecordOutcome(id, ok) => ExclusiveRecorded(s, id, ok);
    case Settle(id, v, broken) => ExclusiveSettling(s, id, v, broken);
    case Pop(id) => ExclusivePopped(s, id);
    case Release(id) => ExclusiveReleased(s, id);
    case TakeLease(l) => ExclusiveLeased(s, l);
    case EndLease(l) => ExclusiveUnleased(s, l);
    case Delete(ids) => ExclusiveDeleted(s, ids);
    case Note(line, broken) => ExclusiveNoted(s, line, broken);
    case Crash(readable) => ExclusiveCrashed(s, readable);
    case Tear(inCharacter) => ExclusiveTorn(s, inCharacter);
  }

  // Every line added to the ledger keeps an unsettled recovery as it was opened.

  lemma SettledGrows(log: Ledger, line: Line, rid: string)
    ensures Settled(log + [line], rid) <==> Settled(log, rid) || Settles(line, rid)
  {
    if Settled(log, rid) {
      var l :| l in log && Settles(l, rid);
      assert l in log + [line];
    }
    if Settles(line, rid) {
      assert line in log + [line];
    }
  }

  lemma IdsGrow(log: Ledger, line: Line)
    ensures Ids(log + [line]) == Ids(log) + if line.id != "" then {line.id} else {}
  {
    forall id | id in Ids(log) ensures id in Ids(log + [line]) {
      var l :| l in log && l.id == id && l.id != "";
      assert l in log + [line];
    }
    assert line in log + [line];
  }

  /** `line` names what recovery `rid` was opened for, or nothing. */
  predicate Names(line: Line, rid: string, g: Guard) {
    line.id == rid ==>
      && (line.entry.checkpointId.Some? ==> line.entry.checkpointId.value == g.checkpoint)
      && (line.entry.key.Some? ==> line.entry.key.value == g.key)
  }

  lemma LoggedAppend(logged: map<string, Guard>, log: Ledger, archives: set<string>, line: Line)
    requires Logged(logged, log, archives)
    requires forall rid | rid in logged :: Names(line, rid, logged[rid])
    ensures Logged(logged, log + [line], archives)
  {
    IdsGrow(log, line);
    forall rid | rid in logged && !Settled(log + [line], rid) ensures Guarded(log + [line], archives, rid, logged[rid]) {
      SettledGrows(log, line, rid);
      StateOfAppend(log, line, rid);
    }
  }

  lemma LoggedOpened(logged: map<string, Guard>, log: Ledger, archives: set<string>, rid: string, g: Guard)
    requires Logged(logged, log, archives)
    requires rid !in logged && rid !in Ids(log) && rid != "" && g.checkpoint != "" && g.checkpoint in archives
    ensures Logged(logged[rid := g], log + [Opening(rid, g)], archives)
  {
    var line := Opening(rid, g);
    LoggedAppend(logged, log, archives, line);
    IdsGrow(log, line);
    StateOfAppend(log, line, rid);
    StateOfAbsent(log, rid);
  }

  /** Removing unprotected archives leaves every unsettled recovery its archive. */
  lemma LoggedPruned(logged: map<string, Guard>, log: Ledger, archives: set<string>, left: set<string>)
    requires Logged(logged, log, archives)
    requires archives * Protected(log) <= left
    ensures Logged(logged, log, left)
  {
    forall rid | rid in logged && !Settled(log, rid) ensures Guarded(log, left, rid, logged[rid]) {
      ActiveIsListed(log, rid);
      assert logged[rid].checkpoint in Referenced(StateOf(log, rid));
    }
  }

  lemma WriteAheadStarted(s: State, id: string, f: Flight)
    requires WriteAhead(s) && id !in s.threads
    ensures WriteAhead(Started(s, id, f))
  {
  }

  lemma WriteAheadCheckpointed(s: State, id: string, checkpoint: string, pruned: set<string>)
    requires WriteAhead(s)
    ensures WriteAhead(Checkpointed(s, id, checkpoint, pruned))
  {
    var t := Checkpointed(s, id, checkpoint, pruned);
    LoggedPruned(Shown(s), s.ledger, s.archives, t.archives);
  }

  lemma BackedMore(s: State, rid: string, g: Guard)
    requires EntriesBacked(s.logged, s.entered) && ThreadsBacked(s.logged, s.threads) && rid !in s.logged
    ensures EntriesBacked(s.logged[rid := g], s.entered) && ThreadsBacked(s.logged[rid := g], s.threads)
  {
    var more := s.logged[rid := g];
    forall i | 0 <= i < |s.entered| ensures Backed(more, s.entered[i].checkpoint, s.entered[i].recovery) {
      assert Backed(s.logged, s.entered[i].checkpoint, s.entered[i].recovery);
    }
    forall other | other in s.threads ensures ThreadBacked(more, s.threads[other]) {
      assert ThreadBacked(s.logged, s.threads[other]);
    }
  }

  lemma ShownOpened(s: State, id: string, recovery: string, key: Key, broken: bool)
    requires Opened(s, id, recovery, key, broken).logged != s.logged
    ensures var t := Opened(s, id, recovery, key, broken);
            Shown(t) == if s.torn || broken then Shown(s) else Shown(s)[recovery := t.logged[recovery]]
  {
    var t := Opened(s, id, recovery, key, broken);
    if s.torn || broken {
      assert Shown(t) == Shown(s);
    } else {
      assert Shown(t) == Shown(s)[recovery := t.logged[recovery]];
    }
  }

  lemma WriteAheadOpened(s: State, id: string, recovery: string, key: Key, broken: bool)
    requires WriteAhead(s)
    ensures WriteAhead(Opened(s, id, recovery, key, broken))
  {
    var t := Opened(s, id, recovery, key, broken);
    if t.logged != s.logged {
      var g := Guard(s.threads[id].checkpoint.value, key);
      ShownOpened(s, id, recovery, key, broken);
      BackedMore(s, recovery, g);
      if !s.torn && !broken {
        LoggedOpened(Shown(s), s.ledger, s.archives, recovery, g);
      }
    }
  }

  lemma WriteAheadEntered(s: State, id: string)
    requires WriteAhead(s)
    ensures WriteAhead(Entered(s, id))
  {
    hide Logged;
    if id in s.threads {
      assert ThreadBacked(s.logged, s.threads[id]);
    }
  }

  lemma WriteAheadAppended(s: State, line: Line, broken: bool)
    requires WriteAhead(s)
    requires forall rid | rid in s.logged :: Names(line, rid, s.logged[rid])
    ensures WriteAhead(Written(s, line, broken))
  {
    LoggedAppend(Shown(s), s.ledger, s.archives, line);
  }

  lemma WriteAheadDeleted(s: State, ids: set<string>)
    requires WriteAhead(s)
    ensures WriteAhead(Deleted(s, ids))
  {
    hide Logged, EntriesBacked, ThreadsBacked, Protected;
    LoggedPruned(Shown(s), s.ledger, s.archives, Deleted(s, ids).archives);
  }

  lemma WriteAheadPopped(s: State, id: string)
    requires WriteAhead(s)
    ensures WriteAhead(Popped(s, id))
  {
    hide Logged, EntriesBacked;
    if id in s.threads {
      assert ThreadBacked(s.logged, s.threads[id]);
    }
  }

  lemma WriteAheadReleased(s: State, id: string)
    requires WriteAhead(s)
    ensures WriteAhead(Released(s, id))
  {
    hide Logged, EntriesBacked;
  }

  lemma WriteAheadFrame(s: State, t: State)
    requires WriteAhead(s)
    requires t.ledger == s.ledger && t.archives == s.archives && t.entered == s.entered
    requires t.logged == s.logged && t.swallowed == s.swallowed
    requires t.storage == s.storage || t.storage.None?
    requires t.threads == s.threads || (t.threads == map[] && t.storage.None?)
    ensures WriteAhead(t)
  {
  }

  lemma WriteAheadRequested(s: State, id: string, a: Approval, persisted: bool)
    requires WriteAhead(s)
    ensures WriteAhead(Requested(s, id, a, persisted))
  {
    hide WriteAhead, Pendings;
    WriteAheadFrame(s, Requested(s, id, a, persisted));
  }

  lemma WriteAheadSet(s: State, id: string, status: ApprovalStatus, persisted: bool)
    requires WriteAhead(s) && id in s.approvals
    ensures WriteAhead(SetStatus(s, id, status, persisted))
  {
    hide WriteAhead, Pendings;
    WriteAheadFrame(s, SetStatus(s, id, status, persisted));
  }

  lemma WriteAheadRecorded(s: State, id: string, ok: bool)
    requires WriteAhead(s)
    ensures WriteAhead(Recorded(s, id, ok))
  {
    hide WriteAhead;
    WriteAheadFrame(s, Recorded(s, id, ok));
  }

  lemma WriteAheadLeftStorage(s: State, id: string)
    requires WriteAhead(s)
    ensures WriteAhead(LeftStorage(s, id))
  {
    hide WriteAhead;
    WriteAheadFrame(s, s.(storage := None));
  }

  lemma WriteAheadUnleased(s: State, l: Lease)
    requires WriteAhead(s)
    ensures WriteAhead(Unleased(s, l))
  {
    hide WriteAhead;
    WriteAheadFrame(s, s.(leases := s.leases - {l}));
  }

  lemma WriteAheadTorn(s: State, inCharacter: bool)
    requires WriteAhead(s)
    ensures WriteAhead(Torn(s, inCharacter))
  {
    hide WriteAhead;
    WriteAheadFrame(s, Torn(s, inCharacter));
  }

  lemma WriteAheadCrashed(s: State, readable: bool)
    requires WriteAhead(s)
    ensures WriteAhead(Crashed(s, readable))
  {
    hide WriteAhead;
    WriteAheadFrame(s, Crashed(s, readable));
  }

  lemma WriteAheadDecided(s: State, id: string, approve: bool, persisted: bool)
    requires WriteAhead(s)
    ensures WriteAhead(Decided(s, id, approve, persisted)) && WriteAhead(Revised(s, id, persisted))
  {
    hide WriteAhead, SetStatus;
    if id in s.approvals {
      WriteAheadSet(s, id, if approve then Approved else Rejected, persisted);
      WriteAheadSet(s, id, RevisionRequested, persisted);
    }
  }

  lemma WriteAheadSettling(s: State, id: string, v: Verdict, broken: bool)
    requires WriteAhead(s)
    ensures WriteAhead(Settling(s, id, v, broken))
  {
    hide WriteAhead;
    if Settling(s, id, v, broken) != s {
      var rid := s.threads[id].recovery.value;
      WriteAheadAppended(s, Closing(rid, s.logged[rid], v), broken);
    }
  }

  lemma WriteAheadNoted(s: State, line: Line, broken: bool)
    requires WriteAhead(s)
    ensures WriteAhead(Noted(s, line, broken))
  {
    hide WriteAhead;
    if Faithful(s, line) {
      WriteAheadAppended(s, line, broken);
    }
  }

  lemma WriteAheadLeased(s: State, l: Lease)
    requires WriteAhead(s)
    ensures WriteAhead(Leased(s, l))
  {
    WriteAheadFrame(s, s.(leases := s.leases + {l}));
  }

  lemma WriteAheadBegun(s: State, id: string, known: bool, read: bool, recorded: bool)
    requires WriteAhead(s) && Once(s)
    ensures WriteAhead(Begun(s, id, known, read, recorded))
  {
    var admission := Admit(s, id, known, read);
    if Leaks(s, id, known, read, recorded) {
      WriteAheadFrame(s, Begun(s, id, known, read, recorded));
    } else if admission.Admitted? && recorded {
      WriteAheadStarted(s.(approvals := s.approvals[id := s.approvals[id].(status := Executing)]), id,
                        Flight(s.approvals[id].key, s.approvals[id].tool, admission.beside));
    }
  }

  lemma WriteAheadBegunExternal(s: State, id: string, key: Key, tool: string, read: bool)
    requires WriteAhead(s) && Once(s)
    ensures WriteAhead(BegunExternal(s, id, key, tool, read))
  {
    if AdmitExternal(s, id, key, tool, read) {
      WriteAheadStarted(s.(issued := s.issued + {id}), id, Flight(key, tool, None));
    }
  }

  lemma WriteAheadKept(s: State, a: Action)
    requires WriteAhead(s) && Once(s)
    ensures WriteAhead(Next(s, a))
  {
    hide Requested, Decided, Revised, Begun, BegunExternal, Checkpointed, Opened, Entered, LeftStorage, Recorded, Settling,
         Popped, Released, Leased, Unleased, Deleted, Noted, Crashed, Torn, Once, Exclusive, WriteAhead;
    match a
    case Request(id, approval, persisted) => WriteAheadRequested(s, id, approval, persisted);
    case Decide(id, approve, persisted) => WriteAheadDecided(s, id, approve, persisted);
    case Revise(id, persisted) => WriteAheadDecided(s, id, false, persisted);
    case Begin(id, known, read, recorded) => WriteAheadBegun(s, id, known, read, recorded);
    case BeginExternal(id, key, tool, read) => WriteAheadBegunExternal(s, id, key, tool, read);
    case MakeCheckpoint(id, checkpoint, pruned) => WriteAheadCheckpointed(s, id, checkpoint, pruned);
    case OpenRecovery(id, recovery, key, broken) => WriteAheadOpened(s, id, recovery, key, broken);
    case Enter(id) => WriteAheadEntered(s, id);
    case LeaveStorage(id) => WriteAheadLeftStorage(s, id);
    case RecordOutcome(id, ok) => WriteAheadRecorded(s, id, ok);
    case Settle(id, v, broken) => WriteAheadSettling(s, id, v, broken);
    case Pop(id) => WriteAheadPopped(s, id);
    case Release(id) => WriteAheadReleased(s, id);
    case TakeLease(l) => WriteAheadLeased(s, l);
    case EndLease(l) => WriteAheadUnleased(s, l);
    case Delete(ids) => WriteAheadDeleted(s, ids);
    case Note(line, broken) => WriteAheadNoted(s, line, broken);
    case Crash(readable) => WriteAheadCrashed(s, readable);
    case Tear(inCharacter) => WriteAheadTorn(s, inCharacter);
  }

  // Whole runs.

  ghost predicate Sound(s: State) {
    Once(s) && Exclusive(s) && WriteAhead(s)
  }

  lemma NextSound(s: State, a: Action)
    requires Sound(s)
    ensures Sound(Next(s, a))
  {
    OnceKept(s, a);
    ExclusiveKept(s, a);
    WriteAheadKept(s, a);
  }

  lemma {:induction false} RunSound(s: State, actions: seq<Action>)
    requires Sound(s)
    ensures Sound(Run(s, actions))
  {
    if actions != [] {
      var before := actions[..|actions| - 1];
      RunSound(s, before);
      NextSound(Run(s, before), actions[|actions| - 1]);
    }
  }

  lemma RunFromStart(ledger: Ledger, archives: set<string>, actions: seq<Action>)
    ensures Sound(Run(Start(ledger, archives), actions))
  {
    RunSound(Start(ledger, archives), actions);
  }

  /** No run, however interleaved and whatever crashes it contains, enters the handler of one approval twice. */
  lemma HandlerRunsAtMostOnce(ledger: Ledger, archives: set<string>, actions: seq<Action>, i: nat, j: nat)
    requires i < j < |Run(Start(ledger, archives), actions).entered|
    ensures var entered := Run(Start(ledger, archives), actions).entered; entered[i].id != entered[j].id
  {
    RunFromStart(ledger, archives, actions);
  }

  // The snapshot.

  lemma PendingsUpdate(approvals: map<string, Approval>, id: string, a: Approval)
    requires id in approvals && !approvals[id].status.Pending? && !a.status.Pending?
    ensures Pendings(approvals[id := a]) == Pendings(approvals)
  {
  }

  /** What a step that begins no write leaves as it is: no lock is leaked, no write put in flight, and a
      ledger that cannot be read stays so. */
  ghost predicate Calm(s: State, t: State) {
    t.leaked == s.leaked && t.inFlight.Keys <= s.inFlight.Keys && (s.garbled ==> t.garbled)
  }

  ghost predicate SameApprovals(s: State, t: State) {
    t.approvals == s.approvals && t.snapshot == s.snapshot
  }

  lemma CalmRequested(s: State, id: string, a: Approval, persisted: bool)
    ensures Calm(s, Requested(s, id, a, persisted))
  {
    hide Pendings;
  }

  lemma CalmDecided(s: State, id: string, approve: bool, persisted: bool)
    ensures Calm(s, Decided(s, id, approve, persisted))
  {
    hide Pendings;
  }

  lemma CalmRevised(s: State, id: string, persisted: bool)
    ensures Calm(s, Revised(s, id, persisted))
  {
    hide Pendings;
  }

  lemma CalmWorking(s: State, id: string, checkpoint: string, pruned: set<string>, ok: bool)
    ensures Calm(s, Checkpointed(s, id, checkpoint, pruned)) && Calm(s, Recorded(s, id, ok))
  {
    hide Protected;
  }

  lemma CalmOpened(s: State, id: string, recovery: string, key: Key, broken: bool)
    ensures var t := Opened(s, id, recovery, key, broken); Calm(s, t) && SameApprovals(s, t)
  {
    hide Ids;
  }

  lemma CalmEntered(s: State, id: string)
    ensures var t := Entered(s, id); Calm(s, t) && SameApprovals(s, t)
    ensures var t := LeftStorage(s, id); Calm(s, t) && SameApprovals(s, t)
  {
  }

  lemma CalmEnding(s: State, id: string, v: Verdict, broken: bool)
    ensures var t := Settling(s, id, v, broken); Calm(s, t) && SameApprovals(s, t)
    ensures var t := Popped(s, id); Calm(s, t) && SameApprovals(s, t)
    ensures var t := Released(s, id); Calm(s, t) && SameApprovals(s, t)
  {
  }

  lemma CalmLeased(s: State, l: Lease)
    ensures var t := Leased(s, l); Calm(s, t) && SameApprovals(s, t)
    ensures var t := Unleased(s, l); Calm(s, t) && SameApprovals(s, t)
  {
    hide Busy, Reading;
  }

  lemma CalmStored(s: State, ids: set<string>, inCharacter: bool)
    ensures var t := Deleted(s, ids); Calm(s, t) && SameApprovals(s, t)
    ensures var t := Torn(s, inCharacter); Calm(s, t) && SameApprovals(s, t)
  {
    hide Protected;
  }

  lemma CalmNoted(s: State, line: Line, broken: bool)
    ensures var t := Noted(s, line, broken); Calm(s, t) && SameApprovals(s, t)
  {
    hide Faithful;
  }

  lemma ExternalAside(s: State, id: string, key: Key, tool: string, read: bool)
    ensures var t := BegunExternal(s, id, key, tool, read);
            t.leaked == s.leaked && (s.garbled ==> t == s) && SameApprovals(s, t)
  {
  }

  predicate Asks(a: Action) {
    a.Request? || a.Decide? || a.Revise?
  }

  predicate Starts(a: Action) {
    a.Begin? || a.BeginExternal?
  }

  lemma Untouched(s: State, a: Action)
    requires !Starts(a) && !a.Crash?
    ensures Calm(s, Next(s, a)) && (!Asks(a) && !a.MakeCheckpoint? && !a.RecordOutcome? ==> SameApprovals(s, Next(s, a)))
  {
    hide Requested, Decided, Revised, Begun, BegunExternal, Checkpointed, Opened, Entered, LeftStorage, Recorded, Settling,
         Popped, Released, Leased, Unleased, Deleted, Noted, Crashed, Torn, Calm, SameApprovals;
    match a
    case Request(id, approval, persisted) => CalmRequested(s, id, approval, persisted);
    case Decide(id, approve, persisted) => CalmDecided(s, id, approve, persisted);
    case Revise(id, persisted) => CalmRevised(s, id, persisted);
    case MakeCheckpoint(id, checkpoint, pruned) => CalmWorking(s, id, checkpoint, pruned, false);
    case OpenRecovery(id, recovery, key, broken) => CalmOpened(s, id, recovery, key, broken);
    case Enter(id) => CalmEntered(s, id);
    case LeaveStorage(id) => CalmEntered(s, id);
    case RecordOutcome(id, ok) => CalmWorking(s, id, "", {}, ok);
    case Settle(id, v, broken) => CalmEnding(s, id, v, broken);
    case Pop(id) => CalmEnding(s, id, Unknown, false);
    case Release(id) => CalmEnding(s, id, Unknown, false);
    case TakeLease(l) => CalmLeased(s, l);
    case EndLease(l) => CalmLeased(s, l);
    case Delete(ids) => CalmStored(s, ids, false);
    case Note(line, broken) => CalmNoted(s, line, broken);
    case Tear(inCharacter) => CalmStored(s, {}, inCharacter);
  }

  /** What a step changes of the approvals is no pending approval's. */
  lemma MirrorUpdated(s: State, t: State, id: string)
    requires t.snapshot == s.snapshot && (t.approvals == s.approvals
             || (id in s.approvals && id in t.approvals && t.approvals == s.approvals[id := t.approvals[id]]
                 && !s.approvals[id].status.Pending? && !t.approvals[id].status.Pending?))
    ensures Pendings(t.approvals) == Pendings(s.approvals) && t.snapshot == s.snapshot
  {
    if t.approvals != s.approvals {
      PendingsUpdate(s.approvals, id, t.approvals[id]);
    }
  }

  lemma MirrorBegun(s: State, id: string, known: bool, read: bool, recorded: bool)
    ensures var t := Begun(s, id, known, read, recorded);
            Pendings(t.approvals) == Pendings(s.approvals) && t.snapshot == s.snapshot
  {
    hide Pendings, Busy, Blocking, Reading;
    MirrorUpdated(s, Begun(s, id, known, read, recorded), id);
  }

  lemma MirrorCheckpointed(s: State, id: string, checkpoint: string, pruned: set<string>)
    requires Once(s)
    ensures var t := Checkpointed(s, id, checkpoint, pruned);
            Pendings(t.approvals) == Pendings(s.approvals) && t.snapshot == s.snapshot
  {
    hide Pendings;
    MirrorUpdated(s, Checkpointed(s, id, checkpoint, pruned), id);
  }

  lemma MirrorRecorded(s: State, id: string, ok: bool)
    requires Once(s)
    ensures var t := Recorded(s, id, ok); Pendings(t.approvals) == Pendings(s.approvals) && t.snapshot == s.snapshot
  {
    hide Pendings;
    MirrorUpdated(s, Recorded(s, id, ok), id);
  }

  lemma MirrorRequested(s: State, id: string, a: Approval, persisted: bool)
    requires s.snapshot == Pendings(s.approvals)
    ensures var t := Requested(s, id, a, persisted); t.snapshot == Pendings(t.approvals)
  {
    hide Pendings;
  }

  lemma MirrorSet(s: State, id: string, status: ApprovalStatus, persisted: bool)
    requires s.snapshot == Pendings(s.approvals) && id in s.approvals
    ensures var t := SetStatus(s, id, status, persisted); t.snapshot == Pendings(t.approvals)
  {
    hide Pendings;
  }

  lemma MirrorDecided(s: State, id: string, approve: bool, persisted: bool)
    requires s.snapshot == Pendings(s.approvals)
    ensures var t := Decided(s, id, approve, persisted); t.snapshot == Pendings(t.approvals)
    ensures var t := Revised(s, id, persisted); t.snapshot == Pendings(t.approvals)
  {
    hide Pendings, SetStatus;
    if id in s.approvals {
      MirrorSet(s, id, if approve then Approved else Rejected, persisted);
      MirrorSet(s, id, RevisionRequested, persisted);
    }
  }

  lemma MirrorKept(s: State, a: Action)
    requires Once(s) && s.snapshot == Pendings(s.approvals) && a != Crash(false)
    ensures var t := Next(s, a); t.snapshot == Pendings(t.approvals)
  {
    hide Requested, Decided, Revised, Begun, BegunExternal, Checkpointed, Opened, Entered, LeftStorage, Recorded, Settling,
         Popped, Released, Leased, Unleased, Deleted, Noted, Torn, Once, Pendings;
    match a
    case Request(id, approval, persisted) => MirrorRequested(s, id, approval, persisted);
    case Decide(id, approve, persisted) => MirrorDecided(s, id, approve, persisted);
    case Revise(id, persisted) => MirrorDecided(s, id, false, persisted);
    case Begin(id, known, read, recorded) => MirrorBegun(s, id, known, read, recorded);
    case MakeCheckpoint(id, checkpoint, pruned) => MirrorCheckpointed(s, id, checkpoint, pruned);
    case RecordOutcome(id, ok) => MirrorRecorded(s, id, ok);
    case Crash(_) => PendingsTwice(s.approvals);
    case BeginExternal(id, key, tool, read) => ExternalAside(s, id, key, tool, read);
    case _ => Untouched(s, a);
  }

  lemma PendingsTwice(approvals: map<string, Approval>)
    ensures Pendings(Pendings(approvals)) == Pendings(approvals)
  {
  }

  /** As long as every restart can read the snapshot it holds exactly the pending approvals, so a
      restart loses no pending request and brings back no other. */
  lemma {:induction false} SnapshotHoldsThePending(ledger: Ledger, archives: set<string>, actions: seq<Action>)
    requires Crash(false) !in actions
    ensures var s := Run(Start(ledger, archives), actions);
            s.snapshot == Pendings(s.approvals) && Next(s, Crash(true)).approvals == Pendings(s.approvals)
  {
    if actions != [] {
      hide Next, Once, Pendings;
      var before := actions[..|actions| - 1];
      SnapshotHoldsThePending(ledger, archives, before);
      RunOnce(ledger, archives, before);
      MirrorKept(Run(Start(ledger, archives), before), actions[|actions| - 1]);
    }
    RestartReads(Run(Start(ledger, archives), actions));
  }

  lemma RunOnce(ledger: Ledger, archives: set<string>, actions: seq<Action>)
    ensures Once(Run(Start(ledger, archives), actions))
  {
    hide Once, Exclusive, WriteAhead, Run;
    RunFromStart(ledger, archives, actions);
  }

  lemma RestartReads(s: State)
    ensures Next(s, Crash(true)).approvals == s.snapshot
  {
  }

  /** Writes in flight and background reads are pairwise without conflict, except a dialog
      continuation and the write it continues; any other write holds its project's lock. */
  lemma MutualExclusion(ledger: Ledger, archives: set<string>, actions: seq<Action>)
    ensures var s := Run(Start(ledger, archives), actions);
            && (forall a, b | a in s.inFlight && b in s.inFlight && a != b && Conflict(s.inFlight[a].key, s.inFlight[b].key) ::
                  s.inFlight[a].beside == Some(b) || s.inFlight[b].beside == Some(a))
            && (forall a, l | a in s.inFlight && l in s.leases :: !Conflict(s.inFlight[a].key, l.key))
            && (forall l, m | l in s.leases && m in s.leases && l != m :: !Conflict(l.key, m.key))
            && (forall a | a in s.inFlight && s.inFlight[a].beside.None? :: Holds(s.locks, s.inFlight[a].key, a))
  {
    RunFromStart(ledger, archives, actions);
  }

  /** Two continuations of one write are in flight together only when their projects differ. */
  lemma ContinuationsApart(s: State, parent: string, a: string, b: string)
    requires Sound(s) && a in s.inFlight && b in s.inFlight && a != b && a != parent && b != parent
    requires s.inFlight[a].beside == Some(parent) && s.inFlight[b].beside == Some(parent)
    ensures !Conflict(s.inFlight[a].key, s.inFlight[b].key)
  {
  }

  /** So a write that names a project has at most one continuation in flight that touches it. */
  lemma OneContinuation(s: State, parent: string, a: string, b: string)
    requires Sound(s) && a in s.inFlight && b in s.inFlight && parent in s.inFlight && a != parent && b != parent
    requires s.inFlight[a].beside == Some(parent) && s.inFlight[b].beside == Some(parent)
    requires s.inFlight[parent].key.Project?
    requires Conflict(s.inFlight[a].key, s.inFlight[parent].key) && Conflict(s.inFlight[b].key, s.inFlight[parent].key)
    ensures a == b
  {
    if a != b {
      ContinuationsApart(s, parent, a, b);
    }
  }

  predicate IsContinuation(s: State, id: string, parent: string, key: Key) {
    id in s.approvals && s.approvals[id] == Approval(Approved, key, DIALOG_TOOL, parent, None)
  }

  /** `parent` is being executed with its checkpoint ready, and nothing but it stands in anyone's way. */
  ghost predicate OnlyParent(s: State, parent: string, others: set<string>) {
    && parent in s.inFlight && s.inFlight.Keys <= {parent} + others
    && parent in s.approvals && s.approvals[parent].status.Executing? && s.approvals[parent].checkpoint.Some?
    && s.leases == {} && !s.garbled
    && (forall rid | rid in ActiveIds(s.ledger) :: StateOf(s.ledger, rid).checkpointId == s.approvals[parent].checkpoint)
  }

  lemma ContinuationAdmitted(s: State, id: string, parent: string, key: Key, others: set<string>)
    requires OnlyParent(s, parent, others) && IsContinuation(s, id, parent, key) && id != parent
    requires forall o | o in others && o in s.inFlight :: !Conflict(s.inFlight[o].key, key)
    ensures var t := Next(s, Begin(id, true, true, true));
            && t.inFlight == s.inFlight[id := Flight(key, DIALOG_TOOL, Some(parent))]
            && OnlyParent(t, parent, others + {id})
            && forall other | other in s.approvals && other != id :: other in t.approvals && t.approvals[other] == s.approvals[other]
  {
    assert SourceOf(s, s.approvals[id]) == Some(parent);
    assert Busy(s.inFlight, key, Some(parent)) == {};
    assert Blocking(s.ledger, key, s.approvals[parent].checkpoint) == {};
  }

  /** Once a checkpointed handler has been entered, at every later point of the run its recovery is
      active for its checkpoint and the archive is still there, until a line settles it; unless its opening
      line was lost, because the file ended in part of another or because the line was a broken one. */
  lemma RecoveryBeforeWrite(ledger: Ledger, archives: set<string>, actions: seq<Action>, i: nat)
    requires i < |Run(Start(ledger, archives), actions).entered|
    ensures var s := Run(Start(ledger, archives), actions);
            var h := s.entered[i];
            h.checkpoint.Some? ==>
              && h.recovery.Some?
              && (h.recovery.value !in s.swallowed && !Settled(s.ledger, h.recovery.value) ==>
                    && Active(s.ledger, h.recovery.value)
                    && StateOf(s.ledger, h.recovery.value).checkpointId == h.checkpoint
                    && h.checkpoint.value in s.archives)
  {
    RunFromStart(ledger, archives, actions);
    var s := Run(Start(ledger, archives), actions);
    assert Backed(s.logged, s.entered[i].checkpoint, s.entered[i].recovery);
    if s.entered[i].checkpoint.Some? && s.entered[i].recovery.value !in s.swallowed {
      assert s.entered[i].recovery.value in Shown(s);
    }
  }

  /** What a read of the ledger finds. */
  predicate Shows(s: State, rid: string) {
    !s.garbled && Active(s.ledger, rid)
  }

  /** A recovery that is being opened is found afterwards exactly when the file ended with a whole line, can
      be read at all, and the new line is not broken; it is hidden for good in the two cases of a lost line. */
  lemma OpeningIsShown(s: State, id: string, recovery: string, key: Key, broken: bool)
    requires Next(s, OpenRecovery(id, recovery, key, broken)) != s
    ensures Shows(Next(s, OpenRecovery(id, recovery, key, broken)), recovery) <==> !s.torn && !broken && !s.garbled
    ensures recovery in Next(s, OpenRecovery(id, recovery, key, broken)).swallowed <==> s.torn || broken
  {
    StateOfAbsent(s.ledger, recovery);
    StateOfAppend(s.ledger, Opening(recovery, Guard(s.threads[id].checkpoint.value, key)), recovery);
  }

  /** The settling line decides: only an outcome that is unknown or still awaited keeps the recovery
      active.  A line that is lost settles nothing. */
  lemma SettlementDecides(s: State, id: string, v: Verdict, broken: bool)
    requires Sound(s) && id in s.threads && !s.threads[id].stage.Left? && s.threads[id].recovery.Some?
    ensures var t := Next(s, Settle(id, v, broken));
            if s.torn || broken || s.garbled then t.ledger == s.ledger
            else Active(t.ledger, s.threads[id].recovery.value) <==> v.Unknown? || v.Waiting?
  {
    var rid := s.threads[id].recovery.value;
    assert ThreadBacked(s.logged, s.threads[id]) && rid in s.logged;
    StateOfAppend(s.ledger, Closing(rid, s.logged[rid], v), rid);
  }

  /** Writes that were not in flight before the step and are after it. */
  predicate StartedBy(s: State, a: Action, id: string) {
    id !in s.inFlight && id in Next(s, a).inFlight
  }

  lemma StartedByAdmission(s: State, a: Action, id: string)
    requires StartedBy(s, a, id)
    ensures a.Begin? || a.BeginExternal?
    ensures a.id == id
    ensures !s.garbled
    ensures a.Begin? ==> Admit(s, id, a.known, a.read).Admitted?
    ensures a.Begin? ==> Next(s, a).inFlight[id].beside == Admit(s, id, a.known, a.read).beside
    ensures a.Begin? ==> Next(s, a).inFlight[id].key == s.approvals[id].key && Next(s, a).inFlight[id].tool == s.approvals[id].tool
    ensures a.BeginExternal? ==> AdmitExternal(s, id, a.key, a.tool, a.read) && Next(s, a).inFlight[id] == Flight(a.key, a.tool, None)
  {
    hide Requested, Decided, Revised, Begun, BegunExternal, Checkpointed, Opened, Entered, LeftStorage, Recorded, Settling,
         Popped, Released, Leased, Unleased, Deleted, Noted, Torn;
    if !Starts(a) && !a.Crash? {
      Untouched(s, a);
    } else if a.Begin? {
      BegunStarts(s, a.id, a.known, a.read, a.recorded, id);
    } else if a.BeginExternal? {
      ExternalStarts(s, a.id, a.key, a.tool, a.read, id);
    }
  }

  lemma BegunStarts(s: State, id: string, known: bool, read: bool, recorded: bool, other: string)
    requires var t := Begun(s, id, known, read, recorded); other !in s.inFlight && other in t.inFlight
    ensures other == id && Admit(s, id, known, read).Admitted? && !s.garbled
    ensures Begun(s, id, known, read, recorded).inFlight[id]
            == Flight(s.approvals[id].key, s.approvals[id].tool, Admit(s, id, known, read).beside)
  {
  }

  lemma ExternalStarts(s: State, id: string, key: Key, tool: string, read: bool, other: string)
    requires var t := BegunExternal(s, id, key, tool, read); other !in s.inFlight && other in t.inFlight
    ensures other == id && AdmitExternal(s, id, key, tool, read) && !s.garbled
    ensures BegunExternal(s, id, key, tool, read).inFlight[id] == Flight(key, tool, None)
  {
  }

  /** While a recovery is not settled no write starts that conflicts with its project, except the
      two recovery tools and a dialog click that continues the very write it protects. */
  lemma UnsettledRecoveryBlocks(s: State, a: Action, id: string, rid: string)
    requires Sound(s) && StartedBy(s, a, id)
    requires rid in s.logged && rid !in s.swallowed && !Settled(s.ledger, rid)
    ensures var f := Next(s, a).inFlight[id];
            || !Conflict(f.key, s.logged[rid].key) || Exempt(f.tool)
            || (f.tool == DIALOG_TOOL && f.beside.Some? && f.beside.value in s.inFlight
                && SourceCheckpoint(s, f.beside) == Some(s.logged[rid].checkpoint))
  {
    StartedByAdmission(s, a, id);
    assert rid in Shown(s);
    ActiveIsListed(s.ledger, rid);
    assert Guarded(s.ledger, s.archives, rid, s.logged[rid]);
    var f := Next(s, a).inFlight[id];
    var source := if a.Begin? then SourceCheckpoint(s, f.beside) else None;
    if Conflict(f.key, s.logged[rid].key) && source != Some(s.logged[rid].checkpoint) {
      assert rid in Blocking(s.ledger, f.key, source);
    }
  }

  // Runs that reach what the theorems leave open.

  /** One more step of a run. */
  ghost function Extended(s: State, trace: seq<Action>, a: Action): (r: seq<Action>)
    ensures r == trace + [a] && Run(s, r) == Next(Run(s, trace), a)
  {
    assert (trace + [a])[..|trace|] == trace;
    trace + [a]
  }

  /** A write that is approved as it is requested, and starts in a host that has nothing else to do. */
  lemma RunFirst(s: State, trace: seq<Action>, id: string, key: Key, tool: string) returns (more: seq<Action>)
    requires var t := Run(s, trace);
             && id !in t.issued && id !in t.threads && t.inFlight == map[] && t.locks == map[] && t.leases == {}
             && ActiveIds(t.ledger) == {} && !t.garbled && tool != DIALOG_TOOL
    ensures var t, u := Run(s, trace), Run(s, more);
            && u.approvals == t.approvals[id := Approval(Executing, key, tool, "", None)]
            && u.inFlight == map[id := Flight(key, tool, None)]
            && u.threads == t.threads[id := Thread(Some(key), None, None, Preparing)]
            && u.leases == {} && u.storage == t.storage && u.issued == t.issued + {id}
            && u.ledger == t.ledger && u.archives == t.archives && u.torn == t.torn && !u.garbled
            && u.logged == t.logged && u.swallowed == t.swallowed && u.entered == t.entered
  {
    var a := Approval(Approved, key, tool, "", None);
    more := Extended(s, trace, Request(id, a, true));
    var t := Run(s, more);
    assert Admit(t, id, true, true) == Admitted(None) by {
      assert Busy(t.inFlight, key, None) == {};
      assert Blocking(t.ledger, key, None) == {};
    }
    more := Extended(s, more, Begin(id, true, true, true));
  }

  /** It makes its checkpoint and opens its recovery. */
  lemma RunProtected(s: State, trace: seq<Action>, id: string, c: string, rid: string, key: Key, broken: bool)
    returns (more: seq<Action>)
    requires var t := Run(s, trace);
             && id in t.threads && t.threads[id] == Thread(t.threads[id].lock, None, None, Preparing)
             && id in t.approvals && t.storage.None? && c != "" && c !in t.archives && !t.garbled
             && rid != "" && rid !in Ids(t.ledger) && rid !in t.logged && rid !in t.swallowed
    ensures var t, u := Run(s, trace), Run(s, more);
            && u.approvals == t.approvals[id := t.approvals[id].(checkpoint := Some(c))]
            && u.inFlight == t.inFlight && u.leases == t.leases && u.storage.None? && u.issued == t.issued && !u.garbled
            && u.threads == t.threads[id := t.threads[id].(checkpoint := Some(c), recovery := Some(rid))]
            && u.ledger == (if t.torn || broken then t.ledger else t.ledger + [Opening(rid, Guard(c, key))])
            && (rid in u.swallowed <==> t.torn || broken) && u.entered == t.entered
  {
    more := Extended(s, trace, MakeCheckpoint(id, c, {}));
    more := Extended(s, more, OpenRecovery(id, rid, key, broken));
    more := Extended(s, more, LeaveStorage(id));
  }

  /** A host dies while it writes to the ledger.  In the next one a write makes its checkpoint, opens its
      recovery and enters its handler, and the ledger shows no recovery at all. */
  lemma TornLineHidesRecovery(id: string, c: string, rid: string, key: Key) returns (run: seq<Action>)
    requires c != "" && rid != ""
    ensures var s := Run(Start([], {}), run);
            s.entered == [Handled(id, Some(c), Some(rid))] && s.ledger == [] && !s.garbled && !Shows(s, rid)
  {
    hide Begun, Checkpointed, Opened, Requested, SetStatus, Settling, Popped, Released, Faithful, Admit;
    var s := Start([], {});
    run := Extended(s, [], Tear(false));
    run := Extended(s, run, Crash(true));
    assert ActiveIds([]) == {};
    run := HiddenWrite(s, run, id, c, rid, key, false);
  }

  /** It takes no fault at all when the line of the recovery is a broken one. */
  lemma BrokenLineHidesRecovery(id: string, c: string, rid: string, key: Key) returns (run: seq<Action>)
    requires c != "" && rid != ""
    ensures var s := Run(Start([], {}), run);
            s.entered == [Handled(id, Some(c), Some(rid))] && s.ledger == [] && !s.garbled && !Shows(s, rid)
  {
    assert ActiveIds([]) == {};
    run := HiddenWrite(Start([], {}), [], id, c, rid, key, true);
  }

  lemma HiddenWrite(s: State, trace: seq<Action>, id: string, c: string, rid: string, key: Key, broken: bool)
    returns (run: seq<Action>)
    requires s == Start([], {}) && c != "" && rid != ""
    requires var t := Run(s, trace); t == s.(torn := t.torn) && (t.torn || broken) && ActiveIds(t.ledger) == {}
    ensures var u := Run(s, run);
            u.entered == [Handled(id, Some(c), Some(rid))] && u.ledger == [] && !u.garbled && !Shows(u, rid)
  {
    hide Begun, Checkpointed, Opened, Requested, SetStatus, Settling, Popped, Released, Faithful, Admit;
    run := RunFirst(s, trace, id, key, "vrcforge_write");
    run := RunProtected(s, run, id, c, rid, key, broken);
    run := Extended(s, run, Enter(id));
    assert StateOf([], rid) == NOTHING;
  }

  // A ledger that cannot be read.

  /** Once part of a character is in the ledger nothing that conflicts or not starts any more, in this
      host or in any later one, so what it hides is not run over. */
  lemma {:induction false} GarbledStopsWrites(s: State, actions: seq<Action>)
    requires s.garbled
    ensures Run(s, actions).garbled && Run(s, actions).inFlight.Keys <= s.inFlight.Keys
  {
    if actions != [] {
      var before := actions[..|actions| - 1];
      GarbledStopsWrites(s, before);
      GarbledStep(Run(s, before), actions[|actions| - 1]);
    }
  }

  lemma GarbledStep(s: State, a: Action)
    requires s.garbled
    ensures Next(s, a).garbled && Next(s, a).inFlight.Keys <= s.inFlight.Keys
  {
    hide Requested, Decided, Revised, Begun, BegunExternal, Checkpointed, Opened, Entered, LeftStorage, Recorded, Settling,
         Popped, Released, Leased, Unleased, Deleted, Noted, Torn;
    if a.Begin? {
      BegunGarbled(s, a.id, a.known, a.read, a.recorded);
    } else if a.BeginExternal? {
      ExternalAside(s, a.id, a.key, a.tool, a.read);
    } else if !a.Crash? {
      Untouched(s, a);
    }
  }

  lemma BegunGarbled(s: State, id: string, known: bool, read: bool, recorded: bool)
    ensures var t := Begun(s, id, known, read, recorded); t.garbled == s.garbled && (s.garbled ==> t.inFlight == s.inFlight)
  {
  }

  /** A start leaves its lock behind exactly when it raises between taking it and beginning the write: the
      ledger cannot be read, or the refusal because of a recovery cannot be recorded. */
  lemma LockLeaks(s: State, a: Action, k: Key)
    requires k !in s.leaked
    ensures k in Next(s, a).leaked <==> a.Begin? && Leaks(s, a.id, a.known, a.read, a.recorded) && s.approvals[a.id].key == k
  {
    hide Requested, Decided, Revised, Begun, BegunExternal, Checkpointed, Opened, Entered, LeftStorage, Recorded, Settling,
         Popped, Released, Leased, Unleased, Deleted, Noted, Torn;
    if a.Begin? {
      BegunLeaks(s, a.id, a.known, a.read, a.recorded);
    } else if a.BeginExternal? {
      ExternalAside(s, a.id, a.key, a.tool, a.read);
    } else if !a.Crash? {
      Untouched(s, a);
    }
  }

  lemma BegunLeaks(s: State, id: string, known: bool, read: bool, recorded: bool)
    ensures Begun(s, id, known, read, recorded).leaked
            == s.leaked + if Leaks(s, id, known, read, recorded) then {s.approvals[id].key} else {}
  {
  }

  /** Until the host restarts it stays, and every write of that project that continues no other is refused. */
  lemma LeakedLockStays(s: State, a: Action, k: Key)
    requires k in s.leaked && !a.Crash?
    ensures k in Next(s, a).leaked
  {
    hide Requested, Decided, Revised, Begun, BegunExternal, Checkpointed, Opened, Entered, LeftStorage, Recorded, Settling,
         Popped, Released, Leased, Unleased, Deleted, Noted, Torn;
    if a.Begin? {
      BegunLeaks(s, a.id, a.known, a.read, a.recorded);
    } else if a.BeginExternal? {
      ExternalAside(s, a.id, a.key, a.tool, a.read);
    } else {
      Untouched(s, a);
    }
  }

  lemma LeakedLockRefuses(s: State, id: string, known: bool, read: bool, recorded: bool)
    requires Sound(s) && id in s.approvals && s.approvals[id].key in s.leaked && SourceOf(s, s.approvals[id]).None?
    ensures Next(s, Begin(id, known, read, recorded)) == s
  {
    assert s.approvals[id].key in s.locks;
  }

  /** From an empty host: one failed read, and a lock is held with no write running. */
  lemma LockLeaksReached(id: string, key: Key) returns (run: seq<Action>)
    ensures var s := Run(Start([], {}), run); s.leaked == {key} && key in s.locks && s.inFlight == map[] && s.threads == map[]
  {
    var s := Start([], {});
    run := Extended(s, [], Request(id, Approval(Approved, key, "vrcforge_write", "", None), true));
    assert Admit(Run(s, run), id, true, false) == Unread by {
      assert Busy(Run(s, run).inFlight, key, None) == {};
    }
    run := Extended(s, run, Begin(id, true, false, true));
  }

  /** A click is requested and approved as the continuation of `parent`. */
  lemma RunRequested(s: State, trace: seq<Action>, id: string, key: Key, parent: string) returns (more: seq<Action>)
    requires id !in Run(s, trace).issued
    ensures var t, u := Run(s, trace), Run(s, more);
            && u.approvals == t.approvals[id := Approval(Approved, key, DIALOG_TOOL, parent, None)]
            && u.inFlight == t.inFlight && u.leases == t.leases && u.ledger == t.ledger && u.issued == t.issued + {id}
            && u.garbled == t.garbled
  {
    more := Extended(s, trace, Request(id, Approval(Pending, key, DIALOG_TOOL, parent, None), true));
    more := Extended(s, more, Decide(id, true, true));
  }

  /** From an empty host: a write that names no project is being executed, its recovery open. */
  lemma ParentReached(parent: string, c: string, rid: string) returns (run: seq<Action>)
    requires c != "" && rid != ""
    ensures var t := Run(Start([], {}), run);
            && OnlyParent(t, parent, {}) && t.issued == {parent}
            && t.inFlight == map[parent := Flight(Global, "vrcforge_write", None)]
  {
    var s := Start([], {});
    assert ActiveIds([]) == {};
    run := RunFirst(s, [], parent, Global, "vrcforge_write");
    run := RunProtected(s, run, parent, c, rid, Global, false);
    OnlyOpening(rid, Guard(c, Global));
  }

  /** Beside it two clicks are requested and approved, for two projects... */
  lemma ClicksApproved(s: State, trace: seq<Action>, parent: string, a: string, b: string, p: string, q: string)
    returns (run: seq<Action>)
    requires OnlyParent(Run(s, trace), parent, {}) && a !in Run(s, trace).issued && b !in Run(s, trace).issued
    requires parent != a && parent != b && a != b
    ensures var t := Run(s, run);
            && OnlyParent(t, parent, {}) && t.inFlight == Run(s, trace).inFlight
            && IsContinuation(t, a, parent, Project(p)) && IsContinuation(t, b, parent, Project(q))
  {
    hide Run, ActiveIds;
    run := RunRequested(s, trace, a, Project(p), parent);
    run := RunRequested(s, run, b, Project(q), parent);
  }

  /** ...and both are started, the second beside the first. */
  lemma BothStarted(s: State, trace: seq<Action>, parent: string, a: string, b: string, p: string, q: string)
    returns (run: seq<Action>)
    requires var t := Run(s, trace);
             && OnlyParent(t, parent, {})
             && IsContinuation(t, a, parent, Project(p)) && IsContinuation(t, b, parent, Project(q))
    requires a != b && a != parent && b != parent && p != q
    ensures Run(s, run).inFlight
            == Run(s, trace).inFlight[a := Flight(Project(p), DIALOG_TOOL, Some(parent))]
                                     [b := Flight(Project(q), DIALOG_TOOL, Some(parent))]
  {
    hide Run, OnlyParent;
    ContinuationAdmitted(Run(s, trace), a, parent, Project(p), {});
    run := Extended(s, trace, Begin(a, true, true, true));
    ContinuationAdmitted(Run(s, run), b, parent, Project(q), {a});
    run := Extended(s, run, Begin(b, true, true, true));
  }

  /** So the bound of one continuation holds for a write that names a project only: a run from an empty
      host puts two continuations beside a write that names none, and both conflict with it. */
  lemma GlobalParentAdmitsTwo(parent: string, a: string, b: string, p: string, q: string, c: string, rid: string)
    returns (run: seq<Action>)
    requires parent != a && parent != b && a != b && p != q && c != "" && rid != ""
    ensures Run(Start([], {}), run).inFlight
            == map[parent := Flight(Global, "vrcforge_write", None),
                   a := Flight(Project(p), DIALOG_TOOL, Some(parent)),
                   b := Flight(Project(q), DIALOG_TOOL, Some(parent))]
    ensures Conflict(Project(p), Global) && Conflict(Project(q), Global)
  {
    hide Run, OnlyParent, Admit;
    var s := Start([], {});
    run := ParentReached(parent, c, rid);
    run := ClicksApproved(s, run, parent, a, b, p, q);
    run := BothStarted(s, run, parent, a, b, p, q);
  }

  lemma OnlyOpening(rid: string, g: Guard)
    ensures forall other | other in ActiveIds([] + [Opening(rid, g)]) ::
              StateOf([] + [Opening(rid, g)], other).checkpointId == Some(g.checkpoint)
  {
    forall other | other in ActiveIds([] + [Opening(rid, g)])
      ensures StateOf([] + [Opening(rid, g)], other).checkpointId == Some(g.checkpoint)
    {
      StateOfAppend([], Opening(rid, g), other);
      assert StateOf([], other) == NOTHING;
    }
  }
}
