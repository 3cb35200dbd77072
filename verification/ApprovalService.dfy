/** The service that owns the shared state of approved writes.

    Each method is one critical section under the shared-state lock, or one step a
    write makes outside it, and does to the fields what `Next` says; `Apply` chains
    them as one approved write does, from its start to the release of its lock. */
module ApprovalService {
  import opened FileSystem
  import opened RecoveryLedger
  import opened SupervisedWrites

  const SNAPSHOT_MAX_ITEMS: nat := 128

  /** What one write meets: whether it needs a checkpoint, fresh names, how its handler ends, how its
      recovery is judged when all went well and when something failed, and which of its lines are broken. */
  datatype World = World(checkpointed: bool, checkpoint: string, pruned: set<string>, recovery: string, key: Key,
                         ok: bool, verdict: Verdict, failure: Verdict,
                         openingBroken: bool, verdictBroken: bool, failureBroken: bool)

  /** What an append leaves in the file: when it raises, that may be nothing, part of the line or all of it. */
  datatype Mark = Nothing | Part(inCharacter: bool) | Whole

  /** How far a write comes before its handler: the checkpoint may raise, or the recovery line may. */
  datatype Beginning = Plain | NoCheckpoint | NoRecovery(mark: Mark) | Guarded

  /** How the recording of an outcome goes: it raises before the approval is marked, after that, or in settling. */
  datatype Ending = Unmarked | Unrecorded | Unsettled(mark: Mark) | Done

  /** Everything that can raise in one write, and whether it did. */
  datatype Course = Course(start: Beginning, success: Option<Ending>, failure: Option<Ending>)

  predicate Ready(c: Course) {
    c.start.Plain? || c.start.Guarded?
  }

  /** A failure is recorded exactly when no success was, and a success only when the handler was entered and succeeded. */
  predicate Proper(w: World, c: Course) {
    && (c.start.Plain? <==> !w.checkpointed)
    && (c.success.Some? <==> Ready(c) && w.ok) && c.success != Some(Unmarked)
    && (c.failure.Some? <==> c.success != Some(Done))
    && (Cut(c.success) || Cut(c.failure) ==> c.start.Guarded?)
  }

  predicate Cut(e: Option<Ending>) {
    e.Some? && e.value.Unsettled?
  }

  function Raised(c: Course): nat {
    (if Ready(c) then 0 else 1) + RaisedIn(c.success) + RaisedIn(c.failure)
  }

  function RaisedIn(e: Option<Ending>): nat {
    if e.None? || e.value.Done? then 0 else 1
  }

  function MarkSteps(mark: Mark, a: Action): seq<Action> {
    match mark
    case Nothing => []
    case Part(inCharacter) => [Action.Tear(inCharacter)]
    case Whole => [a]
  }

  function OpeningOf(id: string, w: World): Action {
    Action.OpenRecovery(id, w.recovery, w.key, w.openingBroken)
  }

  function StartSteps(id: string, w: World, b: Beginning): seq<Action> {
    match b
    case Plain => [Action.Enter(id)]
    case NoCheckpoint => []
    case NoRecovery(mark) =>
      [Action.MakeCheckpoint(id, w.checkpoint, w.pruned)] + MarkSteps(mark, OpeningOf(id, w)) + [Action.LeaveStorage(id)]
    case Guarded =>
      [Action.MakeCheckpoint(id, w.checkpoint, w.pruned)] + MarkSteps(Whole, OpeningOf(id, w)) + [Action.LeaveStorage(id)]
      + [Action.Enter(id)]
  }

  function SettleSteps(id: string, guarded: bool, v: Verdict, broken: bool, e: Ending): seq<Action> {
    match e
    case Unsettled(mark) => MarkSteps(mark, Action.Settle(id, v, broken))
    case Done => if guarded then [Action.Settle(id, v, broken)] else []
    case _ => []
  }

  function EndSteps(id: string, ok: bool, guarded: bool, v: Verdict, broken: bool, e: Option<Ending>): seq<Action> {
    if e.None? || e.value.Unmarked? then []
    else [Action.RecordOutcome(id, ok)] + SettleSteps(id, guarded, v, broken, e.value)
  }

  function Outcome(id: string, w: World, c: Course): seq<Action> {
    EndSteps(id, true, c.start.Guarded?, w.verdict, w.verdictBroken, c.success)
    + EndSteps(id, false, c.start.Guarded?, w.failure, w.failureBroken, c.failure)
  }

  /** The steps of one write on its course. */
  function Steps(id: string, w: World, c: Course): seq<Action> {
    StartSteps(id, w, c.start) + Outcome(id, w, c) + [Action.Pop(id)] + [Action.Release(id)]
  }

  /** How a request for changes ends. */
  datatype Revision = Missing | Decided | Unlinked | Used | NoReason | Unsaved | Asked

  lemma NoSteps(s: State)
    ensures Run(s, []) == s
  {
  }

  lemma {:induction false} RunAppend(s: State, first: seq<Action>, second: seq<Action>)
    ensures Run(s, first + second) == Run(Run(s, first), second)
  {
    if second == [] {
      assert first + second == first;
    } else {
      var n := |second| - 1;
      RunAppend(s, first, second[..n]);
      assert (first + second)[..|first + second| - 1] == first + second[..n];
    }
  }

  /** The write knows its recovery, whether or not the line that opens it was lost. */
  ghost function Bound(s: State, id: string, recovery: string, g: Guard, lost: bool): State
    requires id in s.threads
  {
    s.(threads := s.threads[id := s.threads[id].(recovery := Some(recovery))],
       logged := s.logged[recovery := g],
       swallowed := if lost then s.swallowed + {recovery} else s.swallowed)
  }

  lemma OpeningStep(s: State, id: string, recovery: string, g: Guard, broken: bool)
    requires s.storage == Some(id) && recovery != "" && recovery !in Ids(s.ledger)
    requires recovery !in s.logged && recovery !in s.swallowed
    requires id in s.threads && s.threads[id].stage.Preparing?
    requires s.threads[id].checkpoint == Some(g.checkpoint) && s.threads[id].recovery.None?
    ensures Written(s, Opening(recovery, g), broken).threads == s.threads
    ensures Next(s, OpenRecovery(id, recovery, g.key, broken))
            == Bound(Written(s, Opening(recovery, g), broken), id, recovery, g, s.torn || broken)
  {
  }

  lemma RequestedStep(s: State, id: string, a: Approval)
    requires id !in s.issued && (a.status.Pending? || a.status.Approved?) && a.checkpoint.None?
    ensures Next(s, Action.Request(id, a, false)) == s.(issued := s.issued + {id})
    ensures Next(s, Action.Request(id, a, true))
            == s.(approvals := s.approvals[id := a], snapshot := Pendings(s.approvals[id := a]), issued := s.issued + {id})
  {
  }

  lemma TearStep(s: State, inCharacter: bool)
    ensures Next(s, Tear(inCharacter)) == Torn(s, inCharacter)
    ensures Torn(s, inCharacter).threads == s.threads
  {
  }

  /** What is in the ledger of one write's recovery: the line that opens it, the one that settles it after a
      success, the one that settles it after a failure. */
  datatype Trail = Trail(announced: bool, concluded: bool, abandoned: bool)

  function Lines(w: World, d: Trail): Ledger {
    var g := Guard(w.checkpoint, w.key);
    (if d.announced then [Opening(w.recovery, g)] else [])
    + (if d.concluded then [Closing(w.recovery, g, w.verdict)] else [])
    + (if d.abandoned then [Closing(w.recovery, g, w.failure)] else [])
  }

  lemma LineSays(before: Ledger, line: Line, there: bool)
    requires line.entry.status.Some?
    ensures StateOf(before + if there then [line] else [], line.id).status
            == if there then line.entry.status else StateOf(before, line.id).status
  {
    if there {
      StateOfAppend(before, line, line.id);
    } else {
      assert before + [] == before;
    }
  }

  /** What the ledger says of the recovery of one write is what its last line says. */
  lemma LinesSay(before: Ledger, w: World, d: Trail)
    requires w.recovery != "" && w.recovery !in Ids(before)
    ensures StateOf(before + Lines(w, d), w.recovery).status
            == if d.abandoned then Some(SettledStatus(w.failure))
               else if d.concluded then Some(SettledStatus(w.verdict))
               else if d.announced then Some(Applying) else None
  {
    var g := Guard(w.checkpoint, w.key);
    StateOfAbsent(before, w.recovery);
    LineSays(before, Opening(w.recovery, g), d.announced);
    var one := before + if d.announced then [Opening(w.recovery, g)] else [];
    LineSays(one, Closing(w.recovery, g, w.verdict), d.concluded);
    var two := one + if d.concluded then [Closing(w.recovery, g, w.verdict)] else [];
    LineSays(two, Closing(w.recovery, g, w.failure), d.abandoned);
    assert before + Lines(w, d) == two + if d.abandoned then [Closing(w.recovery, g, w.failure)] else [];
  }

  /** The handler entry of one write: a checkpointed one is backed by its recovery. */
  function EntryOf(id: string, w: World): Handled {
    if w.checkpointed then Handled(id, Some(w.checkpoint), Some(w.recovery)) else Handled(id, None, None)
  }

  /** Approval `id` has another status and possibly a checkpoint; no other approval has changed. */
  ghost predicate SameBut(before: map<string, Approval>, after: map<string, Approval>, id: string, status: ApprovalStatus) {
    && after.Keys == before.Keys && id in before
    && after[id] == before[id].(status := status, checkpoint := after[id].checkpoint)
    && forall other | other in before && other != id :: after[other] == before[other]
  }

  /** How a write ends, from the state before it was begun.  It is applied only if its handler was entered and
      succeeded, and its recovery settled as applied only then; a checkpointed handler is entered only with
      its recovery opened, and a failure is never shown as a success. */
  ghost predicate Ended(before: State, after: State, id: string, w: World, c: Course, d: Trail) {
    && id in after.approvals && SameBut(before.approvals, after.approvals, id, after.approvals[id].status)
    && after.entered == before.entered + (if Ready(c) then [EntryOf(id, w)] else [])
    && after.ledger == before.ledger + Lines(w, d)
    && StatusFits(after.approvals[id].status, w, c) && TrailFits(before.torn, w, c, d)
    && StateOf(after.ledger, w.recovery).status
       == if d.abandoned then Some(SettledStatus(w.failure))
          else if d.concluded then Some(SettledStatus(w.verdict))
          else if d.announced then Some(Applying) else None
  }

  /** What the approval shows in the end. */
  predicate StatusFits(status: ApprovalStatus, w: World, c: Course) {
    && status in {Executing, Succeeded, SupervisedWrites.Failed}
    && (status.Succeeded? <==> Ready(c) && w.ok && (c.success == Some(Done) || c.failure == Some(Unmarked)))
    && (status.Executing? <==> !(Ready(c) && w.ok) && c.failure == Some(Unmarked))
    && (Raised(c) == 0 ==> status == if w.ok then Succeeded else SupervisedWrites.Failed)
    && (Raised(c) == 1 ==> !status.Succeeded?)
  }

  /** What the ledger shows in the end. */
  predicate TrailFits(torn: bool, w: World, c: Course, d: Trail) {
    && (d.announced || d.concluded || d.abandoned ==> w.checkpointed)
    && (Ready(c) && w.checkpointed ==> (d.announced <==> !torn && !w.openingBroken))
    && (d.concluded ==> Ready(c) && w.ok)
    && (d.abandoned ==> c.success != Some(Done) && Ready(c))
    && (w.checkpointed && c.success == Some(Done) ==> (d.concluded <==> !w.verdictBroken))
    && (w.checkpointed && Ready(c) && c.success.None? && c.failure == Some(Done) ==> (d.abandoned <==> !w.failureBroken))
  }

  lemma StatusIs(status: ApprovalStatus, w: World, c: Course)
    requires Proper(w, c)
    requires status == if c.failure.Some? && !c.failure.value.Unmarked? then SupervisedWrites.Failed
                       else if c.success.Some? then Succeeded else Executing
    ensures StatusFits(status, w, c)
  {
  }

  /** Right after its start a write has nothing of its own but its lock. */
  ghost predicate Fresh(s: State, id: string, w: World) {
    && s.storage.None? && id in s.approvals && s.approvals[id].status.Executing?
    && id in s.threads && s.threads[id] == Thread(s.threads[id].lock, None, None, Preparing)
    && w.checkpoint != "" && w.checkpoint !in s.archives
    && w.recovery != "" && w.recovery !in Ids(s.ledger) && w.recovery !in s.logged && w.recovery !in s.swallowed
  }

  /** What a write has by the time its handler may be entered, having started from `s`. */
  ghost predicate Underway(s: State, t: State, id: string, w: World, b: Beginning, announced: bool) {
    && SameBut(s.approvals, t.approvals, id, Executing)
    && t.ledger == s.ledger + (if announced then [Opening(w.recovery, Guard(w.checkpoint, w.key))] else [])
    && id in t.threads && !t.threads[id].stage.Left? && t.storage != Some(id)
    && (b.Plain? || b.Guarded? ==> t.threads[id].stage.Handling?)
    && (b.Guarded? ==>
          && !t.torn && !t.garbled && t.threads[id].recovery == Some(w.recovery)
          && w.recovery in t.logged && t.logged[w.recovery] == Guard(w.checkpoint, w.key)
          && (announced <==> !s.torn && !w.openingBroken))
    && (announced ==> !b.Plain?)
    && t.entered == s.entered + (if b.Plain? then [Handled(id, None, None)]
                                 else if b.Guarded? then [Handled(id, Some(w.checkpoint), Some(w.recovery))] else [])
  }

  lemma RunOne(s: State, a: Action)
    ensures Run(s, [a]) == Next(s, a)
  {
    assert [a][..0] == [];
    assert Run(s, []) == s;
  }

  lemma Checkpointing(s: State, id: string, w: World)
    requires Fresh(s, id, w) && !s.garbled
    ensures var t := Next(s, Action.MakeCheckpoint(id, w.checkpoint, w.pruned));
            && SameBut(s.approvals, t.approvals, id, Executing) && t.storage == Some(id)
            && id in t.threads && t.threads[id] == Thread(s.threads[id].lock, Some(w.checkpoint), None, Preparing)
            && t.ledger == s.ledger && t.torn == s.torn && t.garbled == s.garbled && t.entered == s.entered
            && t.logged == s.logged && t.swallowed == s.swallowed
  {
    hide Next, Protected;
    CheckpointStep(s, id, w.checkpoint, w.pruned);
  }

  /** A recovery line is being written for a checkpoint that was made. */
  ghost predicate Awaiting(s: State, id: string, w: World) {
    && s.storage == Some(id) && id in s.threads && s.threads[id].stage.Preparing?
    && s.threads[id].checkpoint == Some(w.checkpoint) && s.threads[id].recovery.None?
    && w.recovery != "" && w.recovery !in Ids(s.ledger) && w.recovery !in s.logged && w.recovery !in s.swallowed
  }

  lemma Announcing(s: State, id: string, w: World, mark: Mark)
    requires Awaiting(s, id, w)
    ensures var t := Run(s, MarkSteps(mark, OpeningOf(id, w)));
            var g := Guard(w.checkpoint, w.key);
            && t.approvals == s.approvals && t.storage == s.storage && t.entered == s.entered
            && t.ledger == s.ledger + (if mark.Whole? && !s.torn && !w.openingBroken then [Opening(w.recovery, g)] else [])
            && id in t.threads && t.threads[id] == s.threads[id].(recovery := if mark.Whole? then Some(w.recovery) else None)
            && (mark.Whole? ==> !t.torn && t.garbled == s.garbled && w.recovery in t.logged && t.logged[w.recovery] == g)
  {
    hide Next, Opening, Run;
    match mark {
      case Nothing =>
        NoSteps(s);
      case Part(inCharacter) =>
        RunOne(s, Action.Tear(inCharacter));
        TearStep(s, inCharacter);
      case Whole =>
        RunOne(s, OpeningOf(id, w));
        OpeningStep(s, id, w.recovery, Guard(w.checkpoint, w.key), w.openingBroken);
    }
  }

  lemma LeavingStorage(s: State, id: string)
    requires s.storage == Some(id)
    ensures Next(s, Action.LeaveStorage(id)) == s.(storage := None)
  {
  }

  lemma Entering(s: State, id: string)
    requires id in s.threads && s.threads[id].stage.Preparing? && (s.threads[id].checkpoint.Some? ==> s.threads[id].recovery.Some?)
    ensures Next(s, Action.Enter(id))
            == s.(threads := s.threads[id := s.threads[id].(stage := Handling)],
                  entered := s.entered + [Handled(id, s.threads[id].checkpoint, s.threads[id].recovery)])
  {
  }

  /** From the start up to the release of the store. */
  lemma Protecting(s: State, id: string, w: World, mark: Mark)
    requires Fresh(s, id, w) && !s.garbled
    ensures var t := Run(s, StartSteps(id, w, NoRecovery(mark)));
            var g := Guard(w.checkpoint, w.key);
            && SameBut(s.approvals, t.approvals, id, Executing) && t.storage.None? && t.entered == s.entered
            && t.ledger == s.ledger + (if mark.Whole? && !s.torn && !w.openingBroken then [Opening(w.recovery, g)] else [])
            && id in t.threads && t.threads[id].stage.Preparing? && t.threads[id].checkpoint == Some(w.checkpoint)
            && t.threads[id].recovery == (if mark.Whole? then Some(w.recovery) else None)
            && (mark.Whole? ==> !t.torn && t.garbled == s.garbled && w.recovery in t.logged && t.logged[w.recovery] == g)
  {
    hide Next, Opening, Run, SameBut, MarkSteps;
    var first, second, last := Action.MakeCheckpoint(id, w.checkpoint, w.pruned), MarkSteps(mark, OpeningOf(id, w)), Action.LeaveStorage(id);
    Checkpointing(s, id, w);
    RunOne(s, first);
    var t := Next(s, first);
    Announcing(t, id, w, mark);
    RunAppend(s, [first], second);
    var u := Run(t, second);
    LeavingStorage(u, id);
    RunOne(u, last);
    RunAppend(s, [first] + second, [last]);
  }

  lemma Beginnings(s: State, id: string, w: World, b: Beginning) returns (announced: bool)
    requires Fresh(s, id, w) && (s.garbled ==> b.Plain? || b.NoCheckpoint?)
    ensures Underway(s, Run(s, StartSteps(id, w, b)), id, w, b, announced)
  {
    hide Next, Opening, Run, SameBut;
    announced := false;
    match b {
      case Plain =>
        RunOne(s, Action.Enter(id));
        Entering(s, id);
        Unchanged(s, id);
      case NoCheckpoint =>
        NoSteps(s);
        Unchanged(s, id);
      case NoRecovery(mark) =>
        Protecting(s, id, w, mark);
        announced := mark.Whole? && !s.torn && !w.openingBroken;
      case Guarded =>
        Protecting(s, id, w, Whole);
        announced := !s.torn && !w.openingBroken;
        var t := Run(s, StartSteps(id, w, NoRecovery(Whole)));
        Entering(t, id);
        RunOne(t, Action.Enter(id));
        RunAppend(s, StartSteps(id, w, NoRecovery(Whole)), [Action.Enter(id)]);
    }
  }

  lemma Unchanged(s: State, id: string)
    requires id in s.approvals && s.approvals[id].status.Executing?
    ensures SameBut(s.approvals, s.approvals, id, Executing)
  {
  }

  /** Recording an outcome is possible, and the settling line is one for this write's recovery. */
  ghost predicate Recordable(s: State, id: string, w: World, guarded: bool) {
    && id in s.approvals && id in s.threads && !s.threads[id].stage.Left?
    && (guarded ==> s.threads[id].recovery == Some(w.recovery) && w.recovery in s.logged
                    && s.logged[w.recovery] == Guard(w.checkpoint, w.key))
  }

  lemma Recording(s: State, id: string, ok: bool)
    requires id in s.approvals && id in s.threads && !s.threads[id].stage.Left? && (ok ==> s.threads[id].stage.Handling?)
    ensures Next(s, Action.RecordOutcome(id, ok))
            == s.(approvals := s.approvals[id := s.approvals[id].(status := if ok then Succeeded else SupervisedWrites.Failed)])
  {
  }

  /** A settling line is in the ledger afterwards only if it was written, and certainly if it was written whole. */
  lemma Settlings(s: State, id: string, w: World, v: Verdict, broken: bool, mark: Mark) returns (settled: bool)
    requires Recordable(s, id, w, true)
    ensures var t := Run(s, MarkSteps(mark, Action.Settle(id, v, broken)));
            && t.approvals == s.approvals && t.threads == s.threads && t.entered == s.entered && t.logged == s.logged
            && t.ledger == s.ledger + (if settled then [Closing(w.recovery, Guard(w.checkpoint, w.key), v)] else [])
    ensures mark.Whole? && !s.torn && !s.garbled ==> (settled <==> !broken)
  {
    hide Next, Closing, Run;
    settled := mark.Whole? && !s.torn && !s.garbled && !broken;
    match mark {
      case Nothing =>
        NoSteps(s);
      case Part(inCharacter) =>
        RunOne(s, Action.Tear(inCharacter));
        TearStep(s, inCharacter);
      case Whole =>
        RunOne(s, Action.Settle(id, v, broken));
        if s.garbled {
          Unreadable(s, id, v, broken);
        } else {
          SettlingStep(s, id, v, broken);
        }
    }
  }

  lemma Unreadable(s: State, id: string, v: Verdict, broken: bool)
    requires s.garbled
    ensures Next(s, Action.Settle(id, v, broken)) == s
  {
  }

  lemma Endings(s: State, id: string, w: World, ok: bool, guarded: bool, v: Verdict, broken: bool, e: Option<Ending>) returns (settled: bool)
    requires Recordable(s, id, w, guarded) && (e.Some? && ok ==> s.threads[id].stage.Handling?)
    requires e.Some? && e.value.Unsettled? ==> guarded
    ensures var t := Run(s, EndSteps(id, ok, guarded, v, broken, e));
            && t.threads == s.threads && t.entered == s.entered && t.logged == s.logged
            && t.approvals == (if e.None? || e.value.Unmarked? then s.approvals
                               else s.approvals[id := s.approvals[id].(status := if ok then Succeeded else SupervisedWrites.Failed)])
            && t.ledger == s.ledger + (if settled then [Closing(w.recovery, Guard(w.checkpoint, w.key), v)] else [])
            && (e.None? ==> t == s)
    ensures settled ==> guarded && e.Some?
    ensures e == Some(Done) && guarded && !s.torn && !s.garbled ==> (settled <==> !broken)
  {
    hide Next, Closing, Run, MarkSteps, SettleSteps;
    settled := false;
    NoSteps(s);
    if e.Some? && !e.value.Unmarked? {
      var first := Action.RecordOutcome(id, ok);
      RunOne(s, first);
      Recording(s, id, ok);
      var t := Next(s, first);
      var mark := if e.value.Unsettled? then e.value.mark else if e.value.Done? && guarded then Whole else Nothing;
      var rest := MarkSteps(mark, Action.Settle(id, v, broken));
      SettleStepsAre(id, guarded, v, broken, e.value, mark);
      RunAppend(s, [first], rest);
      if guarded {
        settled := Settlings(t, id, w, v, broken, mark);
      } else {
        NoSteps(t);
      }
    }
  }

  lemma NoMarkSteps(a: Action)
    ensures MarkSteps(Nothing, a) == []
  {
  }

  lemma SettleStepsAre(id: string, guarded: bool, v: Verdict, broken: bool, e: Ending, mark: Mark)
    requires mark == if e.Unsettled? then e.mark else if e.Done? && guarded then Whole else Nothing
    ensures SettleSteps(id, guarded, v, broken, e) == MarkSteps(mark, Action.Settle(id, v, broken))
    ensures mark.Nothing? ==> MarkSteps(mark, Action.Settle(id, v, broken)) == []
  {
  }

  lemma PoppedStep(s: State, id: string)
    ensures var t := Next(s, Action.Pop(id)); t.approvals == s.approvals && t.ledger == s.ledger && t.entered == s.entered
  {
  }

  lemma ReleasedStep(s: State, id: string)
    ensures var t := Next(s, Action.Release(id)); t.approvals == s.approvals && t.ledger == s.ledger && t.entered == s.entered
  {
  }

  lemma Leaving(s: State, id: string)
    ensures var t := Run(s, [Action.Pop(id)] + [Action.Release(id)]);
            t.approvals == s.approvals && t.ledger == s.ledger && t.entered == s.entered
  {
    hide Run, Next;
    RunOne(s, Action.Pop(id));
    PoppedStep(s, id);
    RunAppend(s, [Action.Pop(id)], [Action.Release(id)]);
    var t := Next(s, Action.Pop(id));
    RunOne(t, Action.Release(id));
    ReleasedStep(t, id);
  }

  ghost predicate Over(s: State, t: State, id: string, w: World, c: Course, concluded: bool, abandoned: bool)
    requires id in s.approvals
  {
    var g := Guard(w.checkpoint, w.key);
    && t.entered == s.entered
    && t.ledger == s.ledger + (if concluded then [Closing(w.recovery, g, w.verdict)] else [])
                   + (if abandoned then [Closing(w.recovery, g, w.failure)] else [])
    && t.approvals == (if OutcomeStatus(c).None? then s.approvals
                       else s.approvals[id := s.approvals[id].(status := OutcomeStatus(c).value)])
    && (concluded || abandoned ==> c.start.Guarded?) && (concluded ==> c.success.Some?) && (abandoned ==> c.failure.Some?)
    && (c.start.Guarded? && c.success == Some(Done) ==> (concluded <==> !w.verdictBroken))
    && (c.start.Guarded? && c.success.None? && c.failure == Some(Done) ==> (abandoned <==> !w.failureBroken))
  }

  /** Both recordings of an outcome, one after the other. */
  lemma OutcomeEnds(s: State, id: string, w: World, c: Course) returns (concluded: bool, abandoned: bool)
    requires Proper(w, c) && Recordable(s, id, w, c.start.Guarded?) && (Ready(c) ==> s.threads[id].stage.Handling?)
    requires c.start.Guarded? ==> !s.torn && !s.garbled
    ensures Over(s, Run(s, Outcome(id, w, c)), id, w, c, concluded, abandoned)
  {
    hide Run, EndSteps, Closing;
    var guarded := c.start.Guarded?;
    var first := EndSteps(id, true, guarded, w.verdict, w.verdictBroken, c.success);
    var second := EndSteps(id, false, guarded, w.failure, w.failureBroken, c.failure);
    concluded := Endings(s, id, w, true, guarded, w.verdict, w.verdictBroken, c.success);
    var t := Run(s, first);
    abandoned := Endings(t, id, w, false, guarded, w.failure, w.failureBroken, c.failure);
    RunAppend(s, first, second);
  }

  /** What was recorded last, if anything was. */
  function OutcomeStatus(c: Course): Option<ApprovalStatus> {
    if c.failure.Some? && !c.failure.value.Unmarked? then Some(SupervisedWrites.Failed)
    else if c.success.Some? && !c.success.value.Unmarked? then Some(Succeeded) else None
  }

  lemma StatusAfter(a: map<string, Approval>, b: map<string, Approval>, after: map<string, Approval>, id: string, w: World, c: Course)
    requires SameBut(a, b, id, Executing) && Proper(w, c)
    requires after == if OutcomeStatus(c).None? then b else b[id := b[id].(status := OutcomeStatus(c).value)]
    ensures id in after && SameBut(a, after, id, after[id].status) && StatusFits(after[id].status, w, c)
  {
    StatusIs(after[id].status, w, c);
  }

  lemma LedgerAfter(s: State, t: State, u: State, id: string, w: World, c: Course, d: Trail)
    requires Underway(s, t, id, w, c.start, d.announced) && id in t.approvals && Over(t, u, id, w, c, d.concluded, d.abandoned)
    ensures u.ledger == s.ledger + Lines(w, d)
  {
    hide Opening, Closing, SameBut;
  }

  lemma EntriesAfter(s: State, t: State, u: State, id: string, w: World, c: Course, d: Trail)
    requires Underway(s, t, id, w, c.start, d.announced) && id in t.approvals && Over(t, u, id, w, c, d.concluded, d.abandoned)
    requires Proper(w, c)
    ensures u.entered == s.entered + (if Ready(c) then [EntryOf(id, w)] else []) && TrailFits(s.torn, w, c, d)
  {
    hide Opening, Closing, SameBut;
  }

  /** The end of every course. */
  lemma CourseEnds(s: State, id: string, w: World, c: Course) returns (d: Trail)
    requires Fresh(s, id, w) && Proper(w, c) && (s.garbled ==> c.start.Plain? || c.start.NoCheckpoint?)
    ensures Ended(s, Run(s, Steps(id, w, c)), id, w, c, d)
  {
    hide Run, StartSteps, Outcome, Lines, StatusFits, TrailFits;
    var announced := Beginnings(s, id, w, c.start);
    var first, second, last := StartSteps(id, w, c.start), Outcome(id, w, c), [Action.Pop(id)] + [Action.Release(id)];
    var t := Run(s, first);
    var concluded, abandoned := OutcomeEnds(t, id, w, c);
    var u := Run(t, second);
    d := Trail(announced, concluded, abandoned);
    LedgerAfter(s, t, u, id, w, c, d);
    EntriesAfter(s, t, u, id, w, c, d);
    StatusAfter(s.approvals, t.approvals, u.approvals, id, w, c);
    LinesSay(s.ledger, w, d);
    Leaving(u, id);
    StepsJoin(s, id, w, c);
  }

  lemma StepsJoin(s: State, id: string, w: World, c: Course)
    ensures Run(s, Steps(id, w, c))
            == Run(Run(Run(s, StartSteps(id, w, c.start)), Outcome(id, w, c)), [Action.Pop(id)] + [Action.Release(id)])
  {
    hide Run, StartSteps, Outcome;
    var first, second, last := StartSteps(id, w, c.start), Outcome(id, w, c), [Action.Pop(id)] + [Action.Release(id)];
    RunAppend(s, first, second);
    RunAppend(s, first + second, last);
    assert Steps(id, w, c) == first + second + last;
  }

  /** After its start a write is fresh, and nothing but its approval has changed of what its end speaks about. */
  lemma BegunFresh(s: State, id: string, known: bool, read: bool, w: World)
    requires Sound(s) && s.storage.None? && Admit(s, id, known, read).Admitted?
    requires w.checkpoint != "" && w.checkpoint !in s.archives
    requires w.recovery != "" && w.recovery !in Ids(s.ledger) && w.recovery !in s.logged && w.recovery !in s.swallowed
    ensures var t := Next(s, Action.Begin(id, known, read, true));
            && Fresh(t, id, w) && t.torn == s.torn && t.garbled == s.garbled && t.entered == s.entered && t.ledger == s.ledger
            && SameBut(s.approvals, t.approvals, id, Executing)
  {
    AdmittedFresh(s, id, known, read);
    hide Sound, Next, Admit, Ids;
    AdmittedStep(s, id, known, read, true);
  }

  lemma CarriedEnds(s: State, id: string, known: bool, read: bool, w: World, c: Course) returns (d: Trail)
    requires Sound(s) && s.storage.None? && Admit(s, id, known, read).Admitted?
    requires w.checkpoint != "" && w.checkpoint !in s.archives
    requires w.recovery != "" && w.recovery !in Ids(s.ledger) && w.recovery !in s.logged && w.recovery !in s.swallowed
    requires Proper(w, c) && (s.garbled ==> c.start.Plain? || c.start.NoCheckpoint?)
    ensures Ended(s, Run(Next(s, Action.Begin(id, known, read, true)), Steps(id, w, c)), id, w, c, d)
  {
    BegunFresh(s, id, known, read, w);
    hide Sound, Next, Admit, Run, Steps, Fresh, StatusFits, TrailFits;
    d := CourseEnds(Next(s, Action.Begin(id, known, read, true)), id, w, c);
  }

  class Service {
    var approvals: map<string, Approval>
    var inFlight: map<string, Flight>
    var locks: map<Key, string>
    var leases: set<Lease>
    var storage: Option<string>
    var snapshot: map<string, Approval>
    var ledger: Ledger
    var archives: set<string>
    var torn: bool
    var garbled: bool
    ghost var threads: map<string, Thread>
    ghost var leaked: set<Key>
    ghost var issued: set<string>
    ghost var logged: map<string, Guard>
    ghost var swallowed: set<string>
    ghost var entered: seq<Handled>
    ghost var faults: nat

    ghost function View(): State
      reads this
    {
      State(approvals, inFlight, locks, leases, storage, threads, leaked, snapshot, ledger, archives, torn, garbled,
            issued, logged, swallowed, entered)
    }

    constructor (ledger: Ledger, archives: set<string>)
      ensures View() == Start(ledger, archives) && faults == 0
    {
      approvals, inFlight, locks, leases, storage := map[], map[], map[], {}, None;
      snapshot, this.ledger, this.archives, torn, garbled := map[], ledger, archives, false, false;
      leaked := {};
      threads, issued, logged, swallowed, entered, faults := map[], {}, map[], {}, [], 0;
    }

    /** A step that may raise: everything that is written or read, and every call into other components. */
    method Attempt() returns (ok: bool)
      modifies this`faults
      ensures faults == old(faults) + (if ok then 0 else 1) && View() == old(View())
    {
      ok := *;
      if !ok {
        faults := faults + 1;
      }
    }

    /** A look at the ledger, which raises also when there is part of a character in it. */
    method Read() returns (ok: bool)
      modifies this`faults
      ensures faults == old(faults) + (if ok then 0 else 1) && View() == old(View()) && (ok ==> !garbled)
    {
      ok := Attempt();
      if ok && garbled {
        ok, faults := false, faults + 1;
      }
    }

    /** Writes the pending approvals, and only those, to the durable snapshot; all or nothing. */
    method PersistPending() returns (ok: bool)
      modifies this`snapshot, this`faults
      ensures ok <==> |Pendings(approvals)| <= SNAPSHOT_MAX_ITEMS && faults == old(faults)
      ensures faults >= old(faults)
      ensures ok ==> |Pendings(approvals)| <= SNAPSHOT_MAX_ITEMS && snapshot == Pendings(approvals)
      ensures !ok ==> snapshot == old(snapshot)
    {
      var pending: map<string, Approval> := map[];
      var todo := approvals.Keys;
      while todo != {}
        invariant todo <= approvals.Keys
        invariant pending == map id | id in approvals && id !in todo && approvals[id].status.Pending? :: approvals[id]
      {
        var id :| id in todo;
        todo := todo - {id};
        if approvals[id].status.Pending? {
          pending := pending[id := approvals[id]];
        }
      }
      assert pending == Pendings(approvals);
      ok := |pending| <= SNAPSHOT_MAX_ITEMS;
      if ok {
        ok := Attempt();
      }
      if ok {
        snapshot := pending;
      }
    }

    /** Queues a new request, or a request that is approved as it is made. */
    method Request(id: string, approval: Approval) returns (ok: bool)
      requires id !in issued && id !in approvals
      requires (approval.status.Pending? || approval.status.Approved?) && approval.checkpoint.None?
      modifies this`approvals, this`issued, this`snapshot, this`faults
      ensures View() == Next(old(View()), Action.Request(id, approval, ok))
      ensures ok <==> |Pendings(old(approvals)[id := approval])| <= SNAPSHOT_MAX_ITEMS && faults == old(faults)
    {
      RequestedStep(View(), id, approval);
      hide Next, Pendings;
      ok := Queue(id, approval);
    }

    method Queue(id: string, approval: Approval) returns (ok: bool)
      requires id !in approvals
      modifies this`approvals, this`issued, this`snapshot, this`faults
      ensures issued == old(issued) + {id}
      ensures if ok then approvals == old(approvals)[id := approval] && snapshot == Pendings(approvals)
              else approvals == old(approvals) && snapshot == old(snapshot)
      ensures ok <==> |Pendings(old(approvals)[id := approval])| <= SNAPSHOT_MAX_ITEMS && faults == old(faults)
    {
      ghost var before := approvals;
      approvals := approvals[id := approval];
      issued := issued + {id};
      ok := PersistPending();
      if !ok {
        approvals := approvals - {id};
        assert approvals == before;
      }
    }

    /** The approvals with one status changed fit into the snapshot. */
    predicate Saved(approvals: map<string, Approval>, id: string, status: ApprovalStatus)
      requires id in approvals
    {
      |Pendings(approvals[id := approvals[id].(status := status)])| <= SNAPSHOT_MAX_ITEMS
    }

    /** A decision is taken only if it can be persisted; a failed write puts the old status back. */
    method Transition(id: string, status: ApprovalStatus) returns (ok: bool)
      requires id in approvals
      modifies this`approvals, this`snapshot, this`faults
      ensures View() == SetStatus(old(View()), id, status, ok)
      ensures Saved(old(approvals), id, status) && faults == old(faults) <==> ok
    {
      var previous := approvals[id];
      ghost var before := approvals;
      approvals := approvals[id := previous.(status := status)];
      ok := PersistPending();
      if !ok {
        approvals := approvals[id := previous];
        assert approvals == before;
      }
    }

    method Decide(id: string, approve: bool) returns (ok: bool)
      modifies this`approvals, this`snapshot, this`faults
      ensures View() == Next(old(View()), Action.Decide(id, approve, ok))
      ensures ok ==> id in approvals && approvals[id].status == if approve then Approved else Rejected
      ensures ok <==> id in old(approvals) && (old(approvals)[id].status.Pending? || old(approvals)[id].status.Approved?)
                      && Saved(old(approvals), id, if approve then Approved else Rejected) && faults == old(faults)
    {
      ok := false;
      if id in approvals && (approvals[id].status.Pending? || approvals[id].status.Approved?) {
        ok := Transition(id, if approve then Approved else Rejected);
      }
    }

    /** Changes are asked for once in a task, with a reason, and only while the approval is pending. */
    method Revise(id: string, linked: bool, used: bool, reason: bool) returns (r: Revision)
      modifies this`approvals, this`snapshot, this`faults
      ensures View() == Next(old(View()), Action.Revise(id, r.Asked?))
      ensures r.Asked? || r.Unsaved? <==>
                id in old(approvals) && old(approvals)[id].status.Pending? && linked && !used && reason
      ensures r.Asked? || r.Unsaved? ==> (r.Asked? <==> Saved(old(approvals), id, RevisionRequested) && faults == old(faults))
      ensures r.Asked? ==> approvals[id].status.RevisionRequested? && id !in snapshot
      ensures !r.Asked? ==> approvals == old(approvals)
    {
      if id !in approvals {
        return Missing;
      }
      if !approvals[id].status.Pending? {
        return Decided;
      }
      if !linked {
        return Unlinked;
      }
      if used {
        return Used;
      }
      if !reason {
        return NoReason;
      }
      var ok := Transition(id, RevisionRequested);
      r := if ok then Asked else Unsaved;
    }

    /** Looks up what stands in the way of an approved write, in the order it is asked. */
    method Admission(id: string, known: bool) returns (r: SupervisedWrites.Admission, ghost read: bool)
      modifies this`faults
      ensures r == Admit(View(), id, known, read)
      ensures faults == old(faults) + if read then 0 else 1
    {
      read := true;
      if id !in approvals {
        return NotFound, read;
      }
      var a := approvals[id];
      if !a.status.Approved? {
        return NotApproved, read;
      }
      if !known {
        return NoHandler, read;
      }
      if Reading(leases, a.key) {
        return BackgroundRead, read;
      }
      var source, ready := None, None;
      if a.tool == DIALOG_TOOL && a.source in approvals && approvals[a.source].status.Executing?
         && a.source in inFlight && approvals[a.source].checkpoint.Some? {
        source, ready := Some(a.source), approvals[a.source].checkpoint;
      }
      if Busy(inFlight, a.key, source) != {} {
        return ConcurrentWrite, read;
      }
      if source.None? && a.key in locks {
        return LockHeld, read;
      }
      var readable := Read();
      read := readable;
      if !readable {
        return Unread, read;
      }
      if Blocking(ledger, a.key, ready) != {} && !Exempt(a.tool) {
        return RecoveryBlocked, read;
      }
      r := Admitted(source);
    }

    /** Starts an approved write.  When the transition cannot be recorded everything is put back; but when
        the ledger cannot be read, or a refusal because of a recovery cannot be recorded, the lock stays taken. */
    method Begin(id: string, known: bool)
      returns (r: SupervisedWrites.Admission, ghost read: bool, recorded: bool)
      requires Sound(View())
      modifies this
      ensures r == Admit(old(View()), id, known, read)
      ensures View() == Next(old(View()), Action.Begin(id, known, read, recorded))
      ensures faults == old(faults) + (if read then 0 else 1) + (if recorded then 0 else 1) && (r.Admitted? ==> read)
    {
      recorded := true;
      ghost var before := View();
      r, read := Admission(id, known);
      hide Next, Admit, Leaks, Launched;
      if r.RecoveryBlocked? {
        recorded := Attempt();
      }
      if r.Admitted? {
        AdmittedFresh(before, id, known, read);
        recorded := StartWrite(id, r.beside);
        AdmittedStep(before, id, known, read, recorded);
      } else if (r.Unread? || (r.RecoveryBlocked? && !recorded)) && !MayContinue(id) {
        LeakStep(before, id, known, read, recorded);
        Leak(approvals[id].key, id);
      } else {
        NoLeak(before, id, known, read, recorded);
        RefusedStep(before, id, known, read, recorded);
      }
    }

    predicate MayContinue(id: string)
      reads this
    {
      id !in approvals || Continues(approvals[id])
    }

    /** It continues a write that is being executed, and needs no lock of its own. */
    predicate Continues(a: Approval)
      reads this
      ensures Continues(a) <==> SourceOf(View(), a).Some?
    {
      a.tool == DIALOG_TOOL && a.source in approvals && approvals[a.source].status.Executing?
      && a.source in inFlight && approvals[a.source].checkpoint.Some?
    }

    method Leak(key: Key, id: string)
      modifies this`locks, this`leaked
      ensures View() == old(View()).(locks := old(locks)[key := id], leaked := old(leaked) + {key})
    {
      locks := locks[key := id];
      leaked := leaked + {key};
    }

    method StartWrite(id: string, beside: Option<string>) returns (recorded: bool)
      requires id in approvals && approvals[id].status.Approved? && id !in inFlight && id !in threads
      requires beside.None? ==> approvals[id].key !in locks
      modifies this`approvals, this`inFlight, this`locks, this`threads, this`faults
      ensures faults == old(faults) + if recorded then 0 else 1
      ensures View() == if recorded then Launched(old(View()), id, beside) else old(View())
    {
      recorded := Transact(id, beside);
    }

    method Transact(id: string, beside: Option<string>) returns (recorded: bool)
      requires id in approvals && approvals[id].status.Approved? && id !in inFlight && id !in threads
      requires beside.None? ==> approvals[id].key !in locks
      modifies this`approvals, this`inFlight, this`locks, this`threads, this`faults
      ensures faults == old(faults) + if recorded then 0 else 1
      ensures !recorded ==> approvals == old(approvals) && inFlight == old(inFlight)
      ensures !recorded ==> locks == old(locks) && threads == old(threads)
      ensures recorded ==>
                var a := old(approvals)[id];
                && approvals == old(approvals)[id := a.(status := Executing)]
                && inFlight == old(inFlight)[id := Flight(a.key, a.tool, beside)]
                && locks == (if beside.None? then old(locks)[a.key := id] else old(locks))
                && threads == old(threads)[id := Thread(if beside.None? then Some(a.key) else None, None, None, Preparing)]
    {
      ghost var was, flights, held := approvals, inFlight, locks;
      var a := approvals[id];
      var locked := beside.None?;
      if locked {
        locks := locks[a.key := id];
      }
      inFlight := inFlight[id := Flight(a.key, a.tool, beside)];
      approvals := approvals[id := a.(status := Executing)];
      recorded := Attempt();
      if recorded {
        threads := threads[id := Thread(if locked then Some(a.key) else None, None, None, Preparing)];
      } else {
        approvals := approvals[id := a];
        inFlight := inFlight - {id};
        if locked {
          locks := locks - {a.key};
          Undone(held, a.key, id);
        }
        Undone(flights, id, Flight(a.key, a.tool, beside));
        assert approvals == was;
      }
    }

    /** Starts an external write.  It was prepared earlier: when the mode in force now asks for an approval
        the write was not prepared with, it is refused.  It looks for recoveries before it looks for writes. */
    method BeginExternal(id: string, key: Key, tool: string, confirmed: bool, asks: bool, read: bool) returns (ok: bool)
      requires id !in issued
      modifies this`inFlight, this`locks, this`threads, this`issued
      ensures ok <==> (confirmed || !asks) && AdmitExternal(old(View()), id, key, tool, read)
      ensures View() == if confirmed || !asks then Next(old(View()), Action.BeginExternal(id, key, tool, read)) else old(View())
    {
      hide Requested, Begun, Checkpointed, Opened, Entered, Recorded, Settling, Popped, Released, Crashed, Faithful, SetStatus, Started;
      if !confirmed && asks {
        return false;
      }
      if Reading(leases, key) {
        return false;
      }
      if !read || garbled {
        return false;
      }
      if Blocking(ledger, key, None) != {} && !Exempt(tool) {
        return false;
      }
      if Busy(inFlight, key, None) != {} {
        return false;
      }
      if key in locks {
        return false;
      }
      Launch(id, key, tool);
      ok := true;
    }

    method Launch(id: string, key: Key, tool: string)
      modifies this`inFlight, this`locks, this`threads, this`issued
      ensures View() == Started(old(View()).(issued := old(issued) + {id}), id, Flight(key, tool, None))
    {
      locks := locks[key := id];
      inFlight := inFlight[id := Flight(key, tool, None)];
      issued, threads := issued + {id}, threads[id := Thread(Some(key), None, None, Preparing)];
    }

    method TakeLease(lease: Lease) returns (ok: bool)
      modifies this`leases
      ensures View() == Next(old(View()), Action.TakeLease(lease))
      ensures ok <==> lease.token != "" && Busy(inFlight, lease.key, None) == {} && !Reading(old(leases), lease.key)
    {
      ok := lease.token != "" && Busy(inFlight, lease.key, None) == {} && !Reading(leases, lease.key);
      if ok {
        leases := leases + {lease};
      }
    }

    method EndLease(lease: Lease)
      modifies this`leases
      ensures View() == Next(old(View()), Action.EndLease(lease))
    {
      leases := leases - {lease};
    }

    /** Takes the store and adds the checkpoint; older archives no recovery refers to may be pruned meanwhile. */
    method MakeCheckpoint(id: string, checkpoint: string, pruned: set<string>)
      requires storage.None? && checkpoint != "" && checkpoint !in archives && !garbled
      requires id in threads && threads[id] == Thread(threads[id].lock, None, None, Preparing)
      modifies this`storage, this`threads, this`approvals, this`archives
      ensures View() == Next(old(View()), Action.MakeCheckpoint(id, checkpoint, pruned))
      ensures storage == Some(id) && threads == old(threads)[id := old(threads)[id].(checkpoint := Some(checkpoint))]
      ensures approvals.Keys == old(approvals).Keys
    {
      CheckpointStep(View(), id, checkpoint, pruned);
      hide Next, Protected;
      storage := Some(id);
      threads := threads[id := threads[id].(checkpoint := Some(checkpoint))];
      archives := archives + {checkpoint} - (pruned - Protected(ledger) - {checkpoint});
      if id in approvals {
        approvals := approvals[id := approvals[id].(checkpoint := Some(checkpoint))];
      }
    }

    /** Appends a line to the ledger file without looking at how the file ends, or at whether its text will be
        read as one line.  When it raises, nothing, part of the line or all of it may have been written. */
    method Append(line: Line, broken: bool) returns (mark: Mark, ok: bool)
      modifies this`ledger, this`torn, this`garbled, this`faults
      ensures ok ==> mark.Whole?
      ensures faults == old(faults) + if ok then 0 else 1
      ensures View() == match mark
                        case Nothing => old(View())
                        case Part(inCharacter) => Torn(old(View()), inCharacter)
                        case Whole => Written(old(View()), line, broken)
    {
      ok := Attempt();
      mark := *;
      mark := if ok then Whole else mark;
      match mark {
        case Nothing =>
        case Part(inCharacter) =>
          torn, garbled := true, garbled || inCharacter;
        case Whole =>
          if !torn && !broken {
            ledger := ledger + [line];
          }
          torn := false;
      }
    }

    /** Writes the recovery line while the store is still held. */
    method OpenRecovery(id: string, recovery: string, checkpoint: string, key: Key, broken: bool)
      returns (mark: Mark, ok: bool, ghost trace: seq<Action>)
      requires storage == Some(id) && recovery != "" && recovery !in Ids(ledger)
      requires recovery !in logged && recovery !in swallowed
      requires id in threads && threads[id].stage.Preparing?
      requires threads[id].checkpoint == Some(checkpoint) && threads[id].recovery.None?
      modifies this`threads, this`ledger, this`torn, this`garbled, this`logged, this`swallowed, this`faults
      ensures View() == Run(old(View()), trace)
      ensures trace == MarkSteps(mark, Action.OpenRecovery(id, recovery, key, broken)) && (ok ==> mark.Whole?)
      ensures faults == old(faults) + if ok then 0 else 1
      ensures id in threads && threads[id].lock == old(threads)[id].lock && threads[id].stage.Preparing?
      ensures ok ==> threads[id].recovery == Some(recovery) && recovery in logged && logged[recovery] == Guard(checkpoint, key)
    {
      hide Next, Run, Written, Torn;
      ghost var before := View();
      var g := Guard(checkpoint, key);
      mark, ok := Append(Opening(recovery, g), broken);
      OpeningStep(before, id, recovery, g, broken);
      NoSteps(before);
      trace := [];
      if mark.Whole? {
        Bind(id, recovery, g, before.torn || broken);
        trace := Extended(before, trace, Action.OpenRecovery(id, recovery, key, broken));
      } else if mark.Part? {
        TearStep(before, mark.inCharacter);
        trace := Extended(before, trace, Action.Tear(mark.inCharacter));
      }
    }

    ghost method Bind(id: string, recovery: string, g: Guard, lost: bool)
      requires id in threads
      modifies this`threads, this`logged, this`swallowed
      ensures View() == Bound(old(View()), id, recovery, g, lost)
    {
      threads := threads[id := threads[id].(recovery := Some(recovery))];
      logged := logged[recovery := g];
      swallowed := if lost then swallowed + {recovery} else swallowed;
    }

    method LeaveStorage(id: string)
      requires storage == Some(id)
      modifies this`storage
      ensures storage.None? && View() == Next(old(View()), Action.LeaveStorage(id))
    {
      storage := None;
    }

    ghost method Enter(id: string)
      requires id in threads && threads[id].stage.Preparing?
      requires threads[id].checkpoint.Some? ==> threads[id].recovery.Some?
      modifies this`threads, this`entered
      ensures View() == Next(old(View()), Action.Enter(id))
      ensures threads == old(threads)[id := old(threads)[id].(stage := Handling)]
    {
      entered := entered + [Handled(id, threads[id].checkpoint, threads[id].recovery)];
      threads := threads[id := threads[id].(stage := Handling)];
    }

    method RecordOutcome(id: string, ok: bool)
      requires id in threads && !threads[id].stage.Left? && id in approvals && (ok ==> threads[id].stage.Handling?)
      modifies this`approvals
      ensures View() == Next(old(View()), Action.RecordOutcome(id, ok))
      ensures approvals.Keys == old(approvals).Keys
    {
      approvals := approvals[id := approvals[id].(status := if ok then Succeeded else SupervisedWrites.Failed)];
    }

    /** Settling looks at the ledger first, and raises when it cannot be read. */
    method Settle(id: string, recovery: string, guard: Guard, verdict: Verdict, broken: bool)
      returns (mark: Mark, ok: bool, ghost trace: seq<Action>)
      requires id in threads && !threads[id].stage.Left? && threads[id].recovery == Some(recovery)
      requires recovery in logged && logged[recovery] == guard
      modifies this`ledger, this`torn, this`garbled, this`faults
      ensures View() == Run(old(View()), trace)
      ensures trace == MarkSteps(mark, Action.Settle(id, verdict, broken)) && (ok ==> mark.Whole?)
      ensures faults == old(faults) + if ok then 0 else 1
      ensures old(garbled) ==> mark.Nothing?
    {
      hide Next, Run, Written, Torn;
      ghost var before := View();
      trace, mark := [], Nothing;
      NoSteps(before);
      ok := Read();
      if !ok {
        return;
      }
      mark, ok := Append(Closing(recovery, guard, verdict), broken);
      SettlingStep(before, id, verdict, broken);
      if mark.Whole? {
        trace := Extended(before, trace, Action.Settle(id, verdict, broken));
      } else if mark.Part? {
        TearStep(before, mark.inCharacter);
        trace := Extended(before, trace, Action.Tear(mark.inCharacter));
      }
    }

    method Pop(id: string)
      requires id in threads && !threads[id].stage.Left? && storage != Some(id)
      modifies this`inFlight, this`threads
      ensures View() == Next(old(View()), Action.Pop(id))
      ensures threads == old(threads)[id := old(threads)[id].(stage := Left)] && inFlight == old(inFlight) - {id}
    {
      inFlight := inFlight - {id};
      threads := threads[id := threads[id].(stage := Left)];
    }

    method Release(id: string, lock: Option<Key>)
      requires id in threads && threads[id].stage.Left? && threads[id].lock == lock
      modifies this`locks, this`threads
      ensures View() == Next(old(View()), Action.Release(id))
      ensures locks == (if lock.Some? then old(locks) - {lock.value} else old(locks)) && id !in threads
    {
      if lock.Some? {
        locks := locks - {lock.value};
      }
      threads := threads - {id};
    }

    /** The store is held from the checkpoint to the recovery line; either may fail to be made, and does only by raising. */
    method Protect(id: string, w: World) returns (b: Beginning, ghost trace: seq<Action>)
      requires storage.None? && w.checkpoint != "" && w.checkpoint !in archives
      requires w.recovery != "" && w.recovery !in Ids(ledger) && w.recovery !in logged && w.recovery !in swallowed
      requires id in threads && threads[id] == Thread(threads[id].lock, None, None, Preparing)
      modifies this`storage, this`threads, this`approvals, this`archives, this`ledger, this`torn, this`garbled,
               this`logged, this`swallowed, this`faults
      ensures View() == Run(old(View()), trace) && storage.None? && approvals.Keys == old(approvals).Keys
      ensures !b.Plain? && trace + (if b.Guarded? then [Action.Enter(id)] else []) == StartSteps(id, w, b)
      ensures faults == (old(faults) + if b.Guarded? then 0 else 1) && (old(garbled) ==> b.NoCheckpoint?)
      ensures id in threads && threads[id].lock == old(threads)[id].lock && threads[id].stage.Preparing?
      ensures b.Guarded? ==> threads[id].recovery == Some(w.recovery)
      ensures b.Guarded? ==> w.recovery in logged && logged[w.recovery] == Guard(w.checkpoint, w.key)
    {
      trace, b := [], NoCheckpoint;
      NoSteps(View());
      hide Next, Run, View, MarkSteps;
      var ok := Read();
      if !ok {
        return;
      }
      ghost var before := View();
      MakeCheckpoint(id, w.checkpoint, w.pruned);
      trace := Extended(before, trace, Action.MakeCheckpoint(id, w.checkpoint, w.pruned));
      b := NoRecovery(Nothing);
      NoMarkSteps(OpeningOf(id, w));
      ok := Attempt();
      if ok {
        var mark;
        ghost var added;
        mark, ok, added := OpenRecovery(id, w.recovery, w.checkpoint, w.key, w.openingBroken);
        RunAppend(before, trace, added);
        trace := trace + added;
        b := if ok then Guarded else NoRecovery(mark);
      }
      LeaveStorage(id);
      trace := Extended(before, trace, Action.LeaveStorage(id));
    }

    /** One approved write from its start to the release of its lock.  Whatever fails on the way, it is a
        run of the steps, and what it held is free again: except that a start that raised after it took its
        lock leaves that, and nothing else, behind.  If the start goes through (`begun`), the write takes a
        course `c` that is proper for it, raising exactly as often as the course says; and so `d` is what is
        in the ledger of its recovery, and how it ends follows from how its handler ended and from what raised. */
    method Apply(id: string, known: bool, w: World)
      returns (r: SupervisedWrites.Admission, ghost begun: bool, ghost c: Course, ghost d: Trail, ghost trace: seq<Action>)
      requires Sound(View()) && storage.None?
      requires w.checkpoint != "" && w.checkpoint !in archives
      requires w.recovery != "" && w.recovery !in Ids(ledger) && w.recovery !in logged && w.recovery !in swallowed
      modifies this
      ensures exists read :: r == Admit(old(View()), id, known, read)
      ensures View() == Run(old(View()), trace) && Sound(View())
      ensures inFlight == old(inFlight) && leases == old(leases) && storage.None?
      ensures if leaked == old(leaked) then locks == old(locks)
              else (r.Unread? || r.RecoveryBlocked?) && id in old(approvals)
                   && leaked == old(leaked) + {old(approvals)[id].key} && locks == old(locks)[old(approvals)[id].key := id]
      ensures faults >= old(faults) && (begun ==> r.Admitted?) && (r.Admitted? && faults == old(faults) ==> begun)
      ensures !begun ==> View() == old(View()).(locks := locks, leaked := leaked)
      ensures begun ==> Proper(w, c) && faults == old(faults) + Raised(c)
      ensures begun ==> trace == [Action.Begin(id, known, true, true)] + Steps(id, w, c)
      ensures begun ==> Ended(old(View()), View(), id, w, c, d)
    {
      hide Sound, Next, Run, Admit, Ended, Steps, Raised, Proper;
      ghost var before := View();
      ghost var read;
      var recorded;
      r, read, recorded := Begin(id, known);
      NoSteps(before);
      trace := Extended(before, [], Action.Begin(id, known, read, recorded));
      RunSound(before, trace);
      begun, c, d := recorded && r.Admitted?, Course(Plain, None, None), Trail(false, false, false);
      if !recorded || !r.Admitted? {
        NotBegun(before, id, known, read, recorded);
        return;
      }
      ghost var rest;
      rest, c := Carry(before, id, known, read, r.beside, w);
      d := CarriedEnds(before, id, known, read, w, c);
      RunAppend(before, trace, rest);
      trace := trace + rest;
      RunSound(before, trace);
    }

    /** What follows a start gives everything back that the start took. */
    method Carry(ghost before: State, id: string, ghost known: bool, ghost read: bool, beside: Option<string>, w: World)
      returns (ghost trace: seq<Action>, ghost c: Course)
      requires Sound(before) && before.storage.None? && Admit(before, id, known, read) == Admitted(beside)
      requires View() == Next(before, Action.Begin(id, known, read, true))
      requires w.checkpoint != "" && w.checkpoint !in before.archives
      requires w.recovery != "" && w.recovery !in Ids(before.ledger)
      requires w.recovery !in before.logged && w.recovery !in before.swallowed
      modifies this
      ensures View() == Run(old(View()), trace)
      ensures inFlight == before.inFlight && locks == before.locks && leases == before.leases
      ensures storage.None? && leaked == before.leaked
      ensures trace == Steps(id, w, c) && Proper(w, c) && faults == old(faults) + Raised(c)
      ensures before.garbled ==> c.start.Plain? || c.start.NoCheckpoint?
    {
      AdmittedFresh(before, id, known, read);
      BegunIs(before, id, known, read);
      hide Sound, Next, Run, Admit, Steps, Raised, Proper;
      var lock := if beside.None? then Some(approvals[id].key) else None;
      trace, c := Execute(id, lock, w);
      Undone(before.inFlight, id, Flight(before.approvals[id].key, before.approvals[id].tool, beside));
      if lock.Some? {
        Undone(before.locks, lock.value, id);
      }
    }

    method Execute(id: string, lock: Option<Key>, w: World) returns (ghost trace: seq<Action>, ghost c: Course)
      requires storage.None? && w.checkpoint != "" && w.checkpoint !in archives
      requires w.recovery != "" && w.recovery !in Ids(ledger) && w.recovery !in logged && w.recovery !in swallowed
      requires id in approvals && id in threads && threads[id] == Thread(lock, None, None, Preparing)
      modifies this`approvals, this`inFlight, this`locks, this`storage, this`threads, this`archives, this`ledger, this`torn,
               this`garbled, this`logged, this`swallowed, this`entered, this`faults
      ensures View() == Run(old(View()), trace)
      ensures inFlight == old(inFlight) - {id} && storage.None?
      ensures locks == if lock.Some? then old(locks) - {lock.value} else old(locks)
      ensures trace == Steps(id, w, c) && Proper(w, c) && faults == old(faults) + Raised(c)
      ensures old(garbled) ==> c.start.Plain? || c.start.NoCheckpoint?
    {
      hide Next, Run, StartSteps, EndSteps;
      ghost var before := View();
      var b;
      b, trace := Prepare(id, lock, w);
      ghost var rest, success, failure;
      rest, success, failure := Finish(id, lock, w, b.Guarded?, (b.Plain? || b.Guarded?) && w.ok);
      c := Course(b, success, failure);
      RunAppend(before, trace, rest);
      assert trace + rest == Steps(id, w, c);
      trace := trace + rest;
    }

    /** Up to the entry of the handler, which is reached exactly when the write needs no checkpoint or is protected. */
    method Prepare(id: string, lock: Option<Key>, w: World) returns (b: Beginning, ghost trace: seq<Action>)
      requires storage.None? && w.checkpoint != "" && w.checkpoint !in archives
      requires w.recovery != "" && w.recovery !in Ids(ledger) && w.recovery !in logged && w.recovery !in swallowed
      requires id in approvals && id in threads && threads[id] == Thread(lock, None, None, Preparing)
      modifies this`approvals, this`storage, this`threads, this`archives, this`ledger, this`torn, this`garbled,
               this`logged, this`swallowed, this`entered, this`faults
      ensures View() == Run(old(View()), trace) && storage.None? && Running(id) && threads[id].lock == lock
      ensures trace == StartSteps(id, w, b) && (b.Plain? <==> !w.checkpointed)
      ensures faults == old(faults) + if b.Plain? || b.Guarded? then 0 else 1
      ensures b.Plain? || b.Guarded? ==> threads[id].stage.Handling?
      ensures b.Guarded? ==> Guarding(id, w)
      ensures old(garbled) ==> b.Plain? || b.NoCheckpoint?
    {
      ghost var before := View();
      trace := [];
      NoSteps(before);
      hide Next, Run;
      b := Plain;
      if w.checkpointed {
        b, trace := Protect(id, w);
      }
      if b.Plain? || b.Guarded? {
        Enter(id);
        trace := Extended(before, trace, Action.Enter(id));
      }
    }

    /** The handler succeeded: the approval is marked applied and its recovery settled.  Recording either may raise. */
    method Conclude(id: string, w: World, guarded: bool) returns (e: Ending, ghost trace: seq<Action>)
      requires Running(id) && threads[id].stage.Handling? && (guarded ==> Guarding(id, w))
      modifies this`approvals, this`ledger, this`torn, this`garbled, this`faults
      ensures View() == Run(old(View()), trace) && id in approvals
      ensures !e.Unmarked? && trace == EndSteps(id, true, guarded, w.verdict, w.verdictBroken, Some(e)) && (e.Unsettled? ==> guarded)
      ensures faults == old(faults) + RaisedIn(Some(e))
    {
      hide Next, Run, View;
      ghost var before := View();
      NoSteps(before);
      RecordOutcome(id, true);
      trace := Extended(before, [], Action.RecordOutcome(id, true));
      e := Unrecorded;
      var ok := Attempt();
      if ok {
        e, trace := Conclusion(before, trace, id, w, guarded, w.verdict, w.verdictBroken);
      }
    }

    /** The settling that ends the recording of an outcome. */
    method Conclusion(ghost before: State, ghost recorded: seq<Action>, id: string, w: World, guarded: bool, v: Verdict, broken: bool)
      returns (e: Ending, ghost trace: seq<Action>)
      requires View() == Run(before, recorded) && Running(id) && (guarded ==> Guarding(id, w))
      modifies this`ledger, this`torn, this`garbled, this`faults
      ensures View() == Run(before, trace) && (e.Done? || (e.Unsettled? && guarded))
      ensures trace == recorded + SettleSteps(id, guarded, v, broken, e)
      ensures faults == old(faults) + RaisedIn(Some(e))
    {
      hide Next, Run;
      e, trace := Done, recorded;
      if guarded {
        ghost var added;
        var mark, ok;
        mark, ok, added := Settle(id, w.recovery, Guard(w.checkpoint, w.key), v, broken);
        e := if ok then Done else Unsettled(mark);
        RunAppend(before, trace, added);
        trace := trace + added;
      }
    }

    /** Something raised, in the handler or after it: the approval is marked failed, also one that was marked
        applied, and its recovery settled by what the failure shows.  Each of these may raise in turn. */
    method Abandon(id: string, w: World, guarded: bool) returns (e: Ending, ghost trace: seq<Action>)
      requires Running(id) && (guarded ==> Guarding(id, w))
      modifies this`approvals, this`ledger, this`torn, this`garbled, this`faults
      ensures View() == Run(old(View()), trace)
      ensures trace == EndSteps(id, false, guarded, w.failure, w.failureBroken, Some(e)) && (e.Unsettled? ==> guarded)
      ensures faults == old(faults) + RaisedIn(Some(e))
    {
      hide Next, Run, View;
      ghost var before := View();
      NoSteps(before);
      trace, e := [], Unmarked;
      var ok := Attempt();
      if !ok {
        return;
      }
      RecordOutcome(id, false);
      trace, e := Extended(before, trace, Action.RecordOutcome(id, false)), Unrecorded;
      ok := Attempt();
      if ok {
        e, trace := Conclusion(before, trace, id, w, guarded, w.failure, w.failureBroken);
      }
    }

    ghost predicate Running(id: string)
      reads this
    {
      id in approvals && id in threads && !threads[id].stage.Left?
    }

    ghost predicate Guarding(id: string, w: World)
      requires id in threads
      reads this
    {
      threads[id].recovery == Some(w.recovery) && w.recovery in logged && logged[w.recovery] == Guard(w.checkpoint, w.key)
    }

    /** The outcome is recorded and the recovery settled as the handler ended, or as a failure if that raises.
        Whichever of these steps raises, what was held is given back. */
    method Finish(id: string, lock: Option<Key>, w: World, guarded: bool, ok: bool)
      returns (ghost trace: seq<Action>, ghost success: Option<Ending>, ghost failure: Option<Ending>)
      requires storage.None? && Running(id) && threads[id].lock == lock
      requires ok ==> threads[id].stage.Handling?
      requires guarded ==> Guarding(id, w)
      modifies this`approvals, this`ledger, this`torn, this`garbled, this`inFlight, this`threads, this`locks, this`faults
      ensures View() == Run(old(View()), trace)
      ensures inFlight == old(inFlight) - {id} && id !in threads
      ensures locks == if lock.Some? then old(locks) - {lock.value} else old(locks)
      ensures (success.Some? <==> ok) && success != Some(Unmarked) && (failure.Some? <==> success != Some(Done))
      ensures Cut(success) || Cut(failure) ==> guarded
      ensures trace == EndSteps(id, true, guarded, w.verdict, w.verdictBroken, success)
                       + EndSteps(id, false, guarded, w.failure, w.failureBroken, failure)
                       + [Action.Pop(id)] + [Action.Release(id)]
      ensures faults == old(faults) + RaisedIn(success) + RaisedIn(failure)
    {
      ghost var before := View();
      trace, success, failure := [], None, None;
      NoSteps(before);
      hide Next, Run, View, SettleSteps;
      var done := false;
      if ok {
        var e;
        e, trace := Conclude(id, w, guarded);
        done, success := e.Done?, Some(e);
      }
      if !done {
        var e;
        ghost var rest;
        e, rest := Abandon(id, w, guarded);
        failure := Some(e);
        RunAppend(before, trace, rest);
        trace := trace + rest;
      }
      Pop(id);
      trace := Extended(before, trace, Action.Pop(id));
      Release(id, lock);
      trace := Extended(before, trace, Action.Release(id));
    }

    /** The host dies and another takes over what is on disk; an unreadable snapshot restores nothing. */
    method Restart(readable: bool)
      modifies this`approvals, this`inFlight, this`locks, this`leases, this`storage, this`threads, this`leaked
      ensures View() == Crashed(old(View()), readable)
    {
      Forget();
      approvals := if readable then snapshot else map[];
    }

    method Forget()
      modifies this`inFlight, this`locks, this`leases, this`storage, this`threads, this`leaked
      ensures View() == old(View()).(inFlight := map[], locks := map[], leases := {}, storage := None, threads := map[], leaked := {})
    {
      inFlight, locks, leases, storage, threads, leaked := map[], map[], {}, None, map[], {};
    }
  }

  lemma Undone<K, V>(m: map<K, V>, k: K, v: V)
    requires k !in m
    ensures m[k := v] - {k} == m
  {
  }

  lemma AdmittedFresh(s: State, id: string, known: bool, read: bool)
    requires Sound(s) && Admit(s, id, known, read).Admitted?
    ensures id !in s.inFlight && id !in s.threads && id in s.approvals && s.approvals[id].status.Approved?
    ensures Admit(s, id, known, read).beside.None? ==> s.approvals[id].key !in s.locks
  {
  }

  /** An approved write that is being executed. */
  function Launched(s: State, id: string, beside: Option<string>): State
    requires id in s.approvals
  {
    var a := s.approvals[id];
    Started(s.(approvals := s.approvals[id := a.(status := Executing)]), id, Flight(a.key, a.tool, beside))
  }

  lemma AdmittedStep(s: State, id: string, known: bool, read: bool, recorded: bool)
    requires Admit(s, id, known, read).Admitted? && id in s.approvals
    ensures Next(s, Action.Begin(id, known, read, recorded))
            == if recorded then Launched(s, id, Admit(s, id, known, read).beside) else s
  {
    hide Busy, Blocking, Reading, Exempt, Started;
  }

  lemma NoLeak(s: State, id: string, known: bool, read: bool, recorded: bool)
    requires var r := Admit(s, id, known, read);
             !(r.Unread? || (r.RecoveryBlocked? && !recorded)) || id !in s.approvals || SourceOf(s, s.approvals[id]).Some?
    ensures !Leaks(s, id, known, read, recorded)
  {
  }

  lemma RefusedStep(s: State, id: string, known: bool, read: bool, recorded: bool)
    requires !Admit(s, id, known, read).Admitted? && !Leaks(s, id, known, read, recorded)
    ensures Next(s, Action.Begin(id, known, read, recorded)) == s
  {
    hide Admit, Leaks;
  }

  lemma LeakStep(s: State, id: string, known: bool, read: bool, recorded: bool)
    requires var r := Admit(s, id, known, read); r.Unread? || (r.RecoveryBlocked? && !recorded)
    requires id in s.approvals && SourceOf(s, s.approvals[id]).None?
    ensures Next(s, Action.Begin(id, known, read, recorded))
            == s.(locks := s.locks[s.approvals[id].key := id], leaked := s.leaked + {s.approvals[id].key})
  {
  }

  /** A start that does not lead to a write leaves everything as it was, or its lock behind. */
  lemma NotBegun(s: State, id: string, known: bool, read: bool, recorded: bool)
    requires Sound(s) && (!Admit(s, id, known, read).Admitted? || !recorded)
    ensures var t := Next(s, Action.Begin(id, known, read, recorded));
            if t.leaked == s.leaked then t == s
            else (Admit(s, id, known, read).Unread? || Admit(s, id, known, read).RecoveryBlocked?) && id in s.approvals
                 && t == s.(locks := s.locks[s.approvals[id].key := id], leaked := s.leaked + {s.approvals[id].key})
  {
    if Leaks(s, id, known, read, recorded) {
      assert s.approvals[id].key !in s.leaked;
    }
  }

  lemma BegunIs(s: State, id: string, known: bool, read: bool)
    requires Sound(s) && Admit(s, id, known, read).Admitted?
    ensures var a, beside := s.approvals[id], Admit(s, id, known, read).beside;
            var t := Next(s, Action.Begin(id, known, read, true));
            && id in t.threads && t.threads[id] == Thread(if beside.None? then Some(a.key) else None, None, None, Preparing)
            && t.approvals.Keys == s.approvals.Keys && t.approvals[id].key == a.key && t.leaked == s.leaked
            && t.inFlight == s.inFlight[id := Flight(a.key, a.tool, beside)]
            && t.locks == (if beside.None? then s.locks[a.key := id] else s.locks)
            && t.leases == s.leases && t.storage == s.storage && t.archives == s.archives && t.ledger == s.ledger
            && t.logged == s.logged && t.swallowed == s.swallowed
  {
    hide Busy, Blocking, Reading, Exempt, Admit, Next, Sound;
    AdmittedFresh(s, id, known, read);
    AdmittedStep(s, id, known, read, true);
  }

  lemma CheckpointStep(s: State, id: string, checkpoint: string, pruned: set<string>)
    requires s.storage.None? && checkpoint != "" && checkpoint !in s.archives && !s.garbled
    requires id in s.threads && s.threads[id] == Thread(s.threads[id].lock, None, None, Preparing)
    ensures Next(s, Action.MakeCheckpoint(id, checkpoint, pruned))
            == s.(storage := Some(id),
                  threads := s.threads[id := s.threads[id].(checkpoint := Some(checkpoint))],
                  approvals := if id in s.approvals then s.approvals[id := s.approvals[id].(checkpoint := Some(checkpoint))]
                               else s.approvals,
                  archives := s.archives + {checkpoint} - (pruned - Protected(s.ledger) - {checkpoint}))
  {
    hide Protected;
  }

  lemma SettlingStep(s: State, id: string, v: Verdict, broken: bool)
    requires !s.garbled && id in s.threads && !s.threads[id].stage.Left? && s.threads[id].recovery.Some?
    requires s.threads[id].recovery.value in s.logged
    ensures var rid := s.threads[id].recovery.value;
            Next(s, Action.Settle(id, v, broken)) == Written(s, Closing(rid, s.logged[rid], v), broken)
  {
  }
}
