/** The append-only ledger of interrupted writes and the fold that reads it.

    Entries that share an id are merged field by field, a later value replacing an
    earlier one and an absent field keeping it.  A recovery blocks writes and
    protects its checkpoints while its merged status is an active one. */
module RecoveryLedger {
  import opened FileSystem

  datatype Status = Applying | NeedsRecovery | RestoreFailed
                  | Applied | Restored | NotApplied | Resolved | Dismissed

  predicate ActiveStatus(s: Status) {
    s.Applying? || s.NeedsRecovery? || s.RestoreFailed?
  }

  /** A project's lock key; `Global` stands for a write that names no project. */
  datatype Key = Global | Project(root: string)

  predicate Conflict(a: Key, b: Key) {
    a == b || a.Global? || b.Global?
  }

  datatype Entry = Entry(
    status: Option<Status>,
    key: Option<Key>,
    checkpointId: Option<string>,
    safetyId: Option<string>,
    safetyIds: Option<seq<string>>,
    attemptCount: Option<nat>,
    attemptLimit: Option<nat>,
    successCount: Option<nat>,
    zeroStreak: Option<nat>,
    autoBlocked: Option<bool>)

  const NOTHING := Entry(None, None, None, None, None, None, None, None, None, None)

  datatype Line = Line(id: string, entry: Entry)

  type Ledger = seq<Line>

  function Later<T>(earlier: Option<T>, later: Option<T>): Option<T> {
    if later.Some? then later else earlier
  }

  function Merge(a: Entry, b: Entry): Entry {
    Entry(Later(a.status, b.status), Later(a.key, b.key), Later(a.checkpointId, b.checkpointId),
          Later(a.safetyId, b.safetyId), Later(a.safetyIds, b.safetyIds),
          Later(a.attemptCount, b.attemptCount), Later(a.attemptLimit, b.attemptLimit),
          Later(a.successCount, b.successCount), Later(a.zeroStreak, b.zeroStreak),
          Later(a.autoBlocked, b.autoBlocked))
  }

  /** What the ledger says of one recovery: the merge of its lines, in order. */
  function StateOf(log: Ledger, id: string): Entry {
    if log == [] then NOTHING
    else
      var before := StateOf(log[..|log| - 1], id);
      var last := log[|log| - 1];
      if last.id == id then Merge(before, last.entry) else before
  }

  predicate Active(log: Ledger, id: string) {
    id != "" && StateOf(log, id).status.Some? && ActiveStatus(StateOf(log, id).status.value)
  }

  function Ids(log: Ledger): set<string> {
    set l | l in log && l.id != "" :: l.id
  }

  function ActiveIds(log: Ledger): set<string> {
    set id | id in Ids(log) && Active(log, id)
  }

  /** The checkpoints one merged recovery refers to: the write's own and those of its restore attempts. */
  function Referenced(e: Entry): set<string> {
    (if e.checkpointId.Some? then {e.checkpointId.value} else {})
    + (if e.safetyId.Some? then {e.safetyId.value} else {})
    + (if e.safetyIds.Some? then Elements(e.safetyIds.value) else {})
    - {""}
  }

  function Protected(log: Ledger): set<string> {
    set id, c | id in ActiveIds(log) && c in Referenced(StateOf(log, id)) :: c
  }

  lemma StateOfAppend(log: Ledger, line: Line, id: string)
    ensures StateOf(log + [line], id)
            == if line.id == id then Merge(StateOf(log, id), line.entry) else StateOf(log, id)
  {
    assert (log + [line])[..|log|] == log;
  }

  lemma StateOfAbsent(log: Ledger, id: string)
    requires forall l | l in log :: l.id != id
    ensures StateOf(log, id) == NOTHING
  {
  }

  /** `line` neither settles recovery `id` nor changes what it protects or blocks. */
  predicate Unsettling(line: Line, id: string, checkpoint: string, key: Key) {
    line.id == id ==>
      && (line.entry.status.Some? ==> ActiveStatus(line.entry.status.value))
      && (line.entry.checkpointId.Some? ==> line.entry.checkpointId.value == checkpoint)
      && (line.entry.key.Some? ==> line.entry.key.value == key)
  }

  /** A recovery stays active, keeps its checkpoint protected and its project blocked,
      through every extension of the ledger that does not settle it. */
  lemma {:induction false} ActiveUntilSettled(log: Ledger, more: Ledger, id: string, checkpoint: string, key: Key)
    requires Active(log, id) && checkpoint != ""
    requires StateOf(log, id).checkpointId == Some(checkpoint) && StateOf(log, id).key == Some(key)
    requires forall l | l in more :: Unsettling(l, id, checkpoint, key)
    ensures Active(log + more, id) && checkpoint in Protected(log + more)
    ensures StateOf(log + more, id).checkpointId == Some(checkpoint) && StateOf(log + more, id).key == Some(key)
  {
    if more == [] {
      assert log + more == log;
      ActiveIsListed(log, id);
    } else {
      var front, last := more[..|more| - 1], more[|more| - 1];
      assert last in more && forall l | l in front :: l in more;
      ActiveUntilSettled(log, front, id, checkpoint, key);
      assert log + more == (log + front) + [last];
      StateOfAppend(log + front, last, id);
      ActiveIsListed(log + more, id);
    }
  }

  /** An active recovery has a line in the ledger, so the checkpoints it refers to are protected. */
  lemma ActiveIsListed(log: Ledger, id: string)
    requires Active(log, id)
    ensures id in ActiveIds(log) && Referenced(StateOf(log, id)) <= Protected(log)
  {
    if forall l | l in log :: l.id != id {
      StateOfAbsent(log, id);
    }
  }

  /** The latest status alone decides: a settling line ends a recovery whatever came before. */
  lemma SettledByLine(log: Ledger, line: Line)
    requires line.entry.status.Some? && !ActiveStatus(line.entry.status.value)
    ensures !Active(log + [line], line.id)
  {
    StateOfAppend(log, line, line.id);
  }

  /** Reads the whole ledger into one merged entry per id, as the service does before each decision. */
  method Coalesce(log: Ledger, includeResolved: bool) returns (states: map<string, Entry>)
    ensures forall id :: id in states <==> id in (if includeResolved then Ids(log) else ActiveIds(log))
    ensures forall id | id in states :: states[id] == StateOf(log, id)
  {
    states := map[];
    for i := 0 to |log|
      invariant forall id :: id in states <==> id in Ids(log[..i])
      invariant forall id | id in states :: states[id] == StateOf(log[..i], id)
    {
      var line := log[i];
      assert log[..i + 1] == log[..i] + [line];
      if line.id != "" {
        var previous := if line.id in states then states[line.id] else NOTHING;
        if line.id !in states {
          StateOfAbsent(log[..i], line.id);
        }
        forall id ensures StateOf(log[..i + 1], id)
            == if line.id == id then Merge(StateOf(log[..i], id), line.entry) else StateOf(log[..i], id)
        {
          StateOfAppend(log[..i], line, id);
        }
        states := states[line.id := Merge(previous, line.entry)];
      } else {
        forall id | id != "" ensures StateOf(log[..i + 1], id) == StateOf(log[..i], id) {
          StateOfAppend(log[..i], line, id);
        }
      }
    }
    assert log[..|log|] == log;
    if !includeResolved {
      states := map id | id in states && states[id].status.Some? && ActiveStatus(states[id].status.value) :: states[id];
    }
  }
}
