/** The append-only log of goals and deliveries, and the two folds that read it.

    A delivery is one scheduled occurrence of a goal.  Its events move it through
    its states; those that advance the schedule also change the goal.  `Legal`
    says which event may follow which history. */
module GoalLog {
  import opened FileSystem
  import opened UsageTotals

  type Time = int

  const SECOND: int := 1_000_000
  const MAX_ATTEMPTS: nat := 3

  /** The hash of a goal and the time an occurrence was scheduled for, taken as injective. */
  datatype DeliveryId = DeliveryId(goal: nat, scheduledFor: Time)

  datatype DeliveryStatus = Pending | Claimed | Running | Draining | Applying | Blocked | Parked
                          | Failed | Interrupted | Skipped | Completed | Materialized | Denied

  datatype Kind = Approval | Question

  datatype Phase = Wake | ProjectLock | ProviderCall | ApplyPhase | Deliver

  /** Whose a goal is: "" where nothing is recorded.  Project paths are taken normalized. */
  datatype Owner = Owner(chat: string, session: string, project: string)

  datatype Delivery = Delivery(
    owner: Owner,
    status: DeliveryStatus,
    terminal: bool,
    revision: nat,
    attempt: nat,
    consumeRetry: bool,
    retryable: bool,
    retryAt: Option<Time>,
    scheduleAdvanced: bool,
    continuation: bool,            // continuationScheduleAdvanced
    nextWakeAt: Option<Time>,
    kind: Option<Kind>,
    approval: Option<nat>,
    question: Option<nat>,
    answered: bool,
    reminderAt: Option<Time>,
    reminded: bool,
    phase: Option<Phase>,
    deadline: Option<Time>,
    runner: Option<nat>,
    completedAt: Option<Time>,
    resultAvailable: bool,
    usage: Usage)

  datatype GoalStatus = Active | Paused | Finished | Cancelled | Stuck

  datatype Goal = Goal(
    owner: Owner,
    status: GoalStatus,
    revision: nat,
    wakeAt: Option<Time>,
    every: nat,
    wakeCount: nat,
    elapsed: nat,                  // whole seconds
    lastActive: Option<Time>,
    blockedReason: string,
    blockedAttempts: nat,
    blockedTurn: string,
    usage: Usage)

  /** What an event says about the schedule. */
  datatype Advance = Stays | Advances(nextWake: Option<Time>)

  /** The usage of one event and the delivery's new total; no keys means no receipt. */
  datatype Receipt = Receipt(delta: Usage, total: Usage)

  datatype Step =
    | Add(deadline: Time, runner: nat, owner: Owner)
    | Claim(deadline: Time, runner: nat, attempt: nat)
    | Begin(runner: nat)
    | SetPhase(phase: Phase, deadline: Time)
    | SetApprovalPhase(phase: Phase, deadline: Time)
    | RestoreWait
    | Complete(at: Time, advance: Advance, receipt: Receipt, recovered: bool)
    | Corrupt
    | Interrupt(retryAt: Option<Time>, consume: bool)
    | Fail(at: Time, terminal: bool, retryable: bool, retryAt: Option<Time>, advance: Advance, receipt: Receipt)
    | Skip(again: Time)
    | Defer(again: Time)
    | Drain(phase: Phase)
    | Block(kind: Kind, reference: nat, reminderAt: Option<Time>, receipt: Receipt)
    | Deny(at: Time, denied: Option<nat>, advance: Advance, receipt: Receipt)
    | Park(at: Time, advance: Advance, receipt: Receipt)
    | Answer(continuation: bool)
    | Remind
    | Acknowledge
    | Materialize

  datatype Change =
    | Create(at: Time, wakeAt: Option<Time>, every: nat, owner: Owner)
    | Update(at: Time, status: GoalStatus, wakeAt: Option<Time>, every: nat, elapsed: nat, lastActive: Option<Time>, reset: bool)
    | TryBlock(at: Time, status: GoalStatus, reason: string, attempts: nat, turn: string, elapsed: nat, lastActive: Option<Time>)
    | BindOwner(owner: Owner)
    | CloseContinuation(wakeAt: Option<Time>)
    | ScheduleContinuation(wakeAt: Option<Time>)

  datatype Event = OfDelivery(id: DeliveryId, revision: nat, step: Step) | OfGoal(goal: nat, revision: nat, change: Change)

  type Log = seq<Event>

  // What a step says, whatever it is applied to.

  function AdvanceOf(s: Step): Advance {
    if s.Complete? || s.Fail? || s.Deny? || s.Park? then s.advance else Stays
  }

  function DeltaOf(s: Step): Usage {
    if s.Complete? || s.Fail? || s.Block? || s.Deny? || s.Park? then s.receipt.delta else NO_USAGE
  }

  // The delivery fold.

  /** The usage and schedule fields an event leaves behind. */
  function Marked(d: Delivery, a: Advance, r: Receipt): Delivery {
    d.(scheduleAdvanced := a.Advances?,
       nextWakeAt := if a.Advances? then a.nextWake else d.nextWakeAt,
       usage := if r.delta.keys == [] then d.usage else r.total)
  }

  function Added(revision: nat, deadline: Time, runner: nat, owner: Owner): Delivery {
    Delivery(owner, Pending, false, revision, 1, false, false, None, false, false, None, None, None, None, false, None, false,
             Some(Wake), Some(deadline), Some(runner), None, false, NO_USAGE)
  }

  /** The steps that end an occurrence, or make it wait. */
  predicate Concluding(s: Step) {
    s.Complete? || s.Corrupt? || s.Fail? || s.Block? || s.Deny? || s.Park?
  }

  function Concluded(d: Delivery, s: Step): Delivery
    requires Concluding(s)
  {
    match s
    case Complete(at, advance, receipt, _) =>
      Marked(d, advance, receipt).(status := Completed, terminal := true, retryAt := None, deadline := None,
                                  completedAt := Some(at), resultAvailable := true)
    case Corrupt =>
      d.(scheduleAdvanced := false, status := Failed, terminal := true, retryable := false, retryAt := None,
         resultAvailable := false)
    case Fail(_, terminal, retryable, retryAt, advance, receipt) =>
      Marked(d, advance, receipt).(status := Failed, terminal := terminal, consumeRetry := !terminal,
                                  retryable := retryable, retryAt := retryAt, deadline := None)
    case Block(kind, reference, reminderAt, receipt) =>
      var e := Marked(d, Stays, receipt).(status := Blocked, terminal := true, kind := Some(kind),
                                        retryable := false, retryAt := None, deadline := None);
      if kind.Approval? then e.(approval := Some(reference))
      else e.(question := Some(reference), reminderAt := reminderAt, reminded := false)
    case Deny(_, denied, advance, receipt) =>
      Marked(d, advance, receipt).(status := Denied, terminal := true, approval := denied,
                                  retryable := false, retryAt := None, deadline := None)
    case Park(_, advance, receipt) =>
      Marked(d, advance, receipt).(status := Parked, terminal := true, retryable := false, retryAt := None, deadline := None)
  }

  /** One event merged into the record that came before it. */
  function Applied(d: Delivery, s: Step): Delivery {
    match s
    case Add(_, _, _) => d
    case Claim(deadline, runner, attempt) =>
      d.(status := Claimed, terminal := false, attempt := attempt, consumeRetry := false, retryable := false, retryAt := None,
         phase := Some(Wake), deadline := Some(deadline), runner := Some(runner))
    case Begin(runner) => d.(status := Running, terminal := false, runner := Some(runner))
    case SetPhase(phase, deadline) => d.(phase := Some(phase), deadline := Some(deadline))
    case SetApprovalPhase(phase, deadline) =>
      var e := d.(phase := Some(phase), deadline := Some(deadline));
      if phase.ApplyPhase? then e.(status := Applying, terminal := false) else e
    case RestoreWait => d.(status := Blocked, terminal := true, phase := None, deadline := None)
    case Interrupt(retryAt, consume) =>
      var e := d.(status := Interrupted, terminal := false, consumeRetry := consume, retryable := true, retryAt := retryAt);
      if consume then e else e.(deadline := None, runner := None)
    case Skip(again) =>
      d.(status := Skipped, terminal := false, consumeRetry := false, retryable := true, retryAt := Some(again), deadline := None)
    case Defer(again) =>
      d.(status := Interrupted, terminal := false, consumeRetry := false, retryable := true, retryAt := Some(again), deadline := None)
    case Drain(phase) => d.(status := Draining, terminal := false, phase := Some(phase), retryable := true, retryAt := None)
    case Answer(continuation) =>
      d.(status := Interrupted, terminal := false, answered := true, continuation := continuation, consumeRetry := false,
         retryable := true, retryAt := None, deadline := None)
    case Remind => d.(status := Parked, terminal := true, reminded := true)
    case Acknowledge => d
    case Materialize => d.(status := Materialized, terminal := true)
    case _ => Concluded(d, s)
  }

  function DeliveryStep(d: Option<Delivery>, id: DeliveryId, e: Event): Option<Delivery> {
    if !e.OfDelivery? || e.id != id then d
    else if d.None? then (if e.step.Add? then Some(Added(e.revision, e.step.deadline, e.step.runner, e.step.owner)) else None)
    else Some(Applied(d.value, e.step).(revision := e.revision))
  }

  function DeliveryOf(log: Log, id: DeliveryId): Option<Delivery> {
    if log == [] then None else DeliveryStep(DeliveryOf(log[..|log| - 1], id), id, log[|log| - 1])
  }

  // The goal fold.

  function Changed(g: Goal, c: Change): Goal {
    match c
    case Create(_, _, _, _) => g
    case Update(_, status, wakeAt, every, elapsed, lastActive, reset) =>
      var h := g.(status := status, wakeAt := wakeAt, every := every, elapsed := elapsed, lastActive := lastActive);
      if reset then h.(blockedReason := "", blockedAttempts := 0, blockedTurn := "") else h
    case TryBlock(_, status, reason, attempts, turn, elapsed, lastActive) =>
      g.(status := status, elapsed := elapsed, lastActive := lastActive,
         blockedReason := reason, blockedAttempts := attempts, blockedTurn := turn)
    case BindOwner(owner) => g.(owner := owner)
    case CloseContinuation(wakeAt) => g.(wakeAt := wakeAt)
    case ScheduleContinuation(wakeAt) => g.(wakeAt := wakeAt)
  }

  /** A delivery's event adds its usage to the goal and, if it advances the schedule, wakes the goal once more. */
  function Touched(g: Goal, s: Step): Goal {
    var h := if DeltaOf(s).keys == [] then g else g.(usage := Merged(g.usage, DeltaOf(s)));
    match AdvanceOf(s)
    case Stays => h
    case Advances(nextWake) => h.(wakeAt := nextWake, wakeCount := g.wakeCount + 1, revision := g.revision + 1)
  }

  function GoalStep(g: Option<Goal>, goal: nat, e: Event): Option<Goal> {
    match e
    case OfDelivery(id, _, step) => if id.goal == goal && g.Some? then Some(Touched(g.value, step)) else g
    case OfGoal(other, revision, change) =>
      if other != goal then g
      else if g.Some? then Some(Changed(g.value, change).(revision := revision))
      else if change.Create? then Some(Goal(change.owner, Active, revision, change.wakeAt, change.every, 0, 0, Some(change.at), "", 0, "", NO_USAGE))
      else None
  }

  function GoalOf(log: Log, goal: nat): Option<Goal> {
    if log == [] then None else GoalStep(GoalOf(log[..|log| - 1], goal), goal, log[|log| - 1])
  }

  // Which event may follow.

  predicate TerminalStatus(s: DeliveryStatus) {
    s.Completed? || s.Materialized? || s.Denied? || s.Blocked? || s.Parked?
  }

  predicate IsTerminal(d: Delivery) {
    d.terminal || TerminalStatus(d.status)
  }

  /** The occurrence has advanced the schedule already, itself or before its continuation. */
  predicate Already(d: Delivery) {
    d.scheduleAdvanced || d.continuation
  }

  function NextWake(g: Goal, at: Time): Option<Time> {
    if g.every > 0 then Some(at + g.every * 60 * SECOND) else None
  }

  function Ends(d: Delivery, g: Goal, at: Time): Advance {
    if Already(d) then Stays else Advances(NextWake(g, at))
  }

  ghost predicate Receivable(d: Delivery, r: Receipt) {
    Stored(r.delta) && (r.delta.keys != [] ==> r.total == Merged(d.usage, r.delta))
  }

  /** The retry may start: the delivery is out of hand, not closed, and the attempt is one it still has. */
  predicate Reclaims(d: Delivery, attempt: nat) {
    && (d.status.Failed? || d.status.Interrupted? || d.status.Skipped?) && !IsTerminal(d)
    && attempt == d.attempt + (if d.consumeRetry then 1 else 0) <= MAX_ATTEMPTS
  }

  predicate Deniable(d: Delivery) {
    !(d.status.Denied? || d.status.Completed? || d.status.Materialized? || d.status.Failed? || d.status.Parked?
      || d.status.Draining?)
  }

  ghost predicate Possible(d: Delivery, g: Goal, s: Step) {
    match s
    case Add(_, _, _) => false
    case Claim(_, _, attempt) => (d.status.Pending? && d.revision == 1 && attempt == 1) || Reclaims(d, attempt)
    case Begin(_) => !IsTerminal(d) && (d.status.Pending? || d.status.Claimed? || d.status.Failed? || d.status.Interrupted?)
    case SetPhase(_, _) => !IsTerminal(d) && !d.status.Draining?
    case SetApprovalPhase(_, _) =>
      !(d.status.Completed? || d.status.Materialized? || d.status.Denied? || d.status.Failed? || d.status.Parked?)
    case RestoreWait => d.status.Applying?
    case Complete(at, advance, receipt, recovered) =>
      && Receivable(d, receipt)
      && if recovered then !IsTerminal(d) && !d.status.Draining? && !d.status.Applying? && advance == Advances(NextWake(g, at))
         else ((d.status.Running? && !IsTerminal(d)) || d.status.Blocked? || d.status.Applying?) && advance == Ends(d, g, at)
    case Corrupt => d.status.Completed?
    case Interrupt(retryAt, consume) =>
      if consume then d.status.Running? && retryAt.None? else (d.status.Pending? || d.status.Claimed?) && retryAt.Some?
    case Fail(at, terminal, retryable, retryAt, advance, receipt) =>
      && (!IsTerminal(d) || (d.status.Blocked? && !retryable)) && !d.status.Failed? && Receivable(d, receipt)
      && (terminal <==> !(retryable && d.attempt < MAX_ATTEMPTS)) && (retryAt.Some? <==> !terminal)
      && advance == if terminal then Ends(d, g, at) else Stays
    case Skip(_) => !IsTerminal(d) && !(d.status.Skipped? && d.retryAt.Some?)
    case Defer(_) => !IsTerminal(d) && (d.status.Pending? || d.status.Claimed?)
    case Drain(_) => !IsTerminal(d) && !d.status.Draining?
    case Block(_, _, _, receipt) => !IsTerminal(d) && !d.status.Draining? && Receivable(d, receipt)
    case Deny(at, _, advance, receipt) =>
      && Deniable(d) && advance == Ends(d, g, at) && Receivable(d, receipt)
    case Park(at, advance, receipt) => !IsTerminal(d) && advance == Ends(d, g, at) && Receivable(d, receipt)
    case Answer(continuation) =>
      (d.status.Blocked? || d.status.Parked?) && d.kind == Some(Question) && !d.answered && continuation == Already(d)
    case Remind => d.status.Blocked? && d.kind == Some(Question) && !d.reminded && d.reminderAt.Some?
    case Acknowledge => true
    case Materialize => d.status.Completed?
  }

  /** What leaving the active state adds to the stored seconds: the fraction of a second is dropped. */
  function Seconds(g: Goal, at: Time): nat {
    if g.lastActive.Some? && at > g.lastActive.value then (g.elapsed * SECOND + (at - g.lastActive.value)) / SECOND else g.elapsed
  }

  predicate Over(s: GoalStatus) {
    s.Finished? || s.Cancelled?
  }

  /** A goal that is woken by the clock has a chat to be woken in. */
  predicate Owned(owner: Owner, wakeAt: Option<Time>, every: nat) {
    wakeAt.Some? || every > 0 ==> owner.chat != ""
  }

  predicate Allowed(g: Goal, c: Change) {
    match c
    case Create(_, _, _, _) => false
    case Update(at, status, wakeAt, every, elapsed, lastActive, reset) =>
      && Owned(g.owner, wakeAt, every)
      && !status.Stuck? && (Over(g.status) ==> status == g.status)
      && (if g.status.Active? && !status.Active? then elapsed == Seconds(g, at) && lastActive.None?
          else if status.Active? && !g.status.Active? then elapsed == g.elapsed && lastActive == Some(at)
          else elapsed == g.elapsed && lastActive == g.lastActive)
      && (reset <==> status.Active? && !g.status.Active?)
    case TryBlock(at, status, reason, attempts, turn, elapsed, lastActive) =>
      && g.status.Active? && (turn != "" ==> turn != g.blockedTurn)
      && attempts == (if g.blockedReason == reason then g.blockedAttempts + 1 else 1)
      && (if attempts >= 3 then status.Stuck? && elapsed == Seconds(g, at) && lastActive.None?
          else status.Active? && elapsed == g.elapsed && lastActive == g.lastActive)
    case BindOwner(owner) => g.owner.chat == "" && owner.chat != ""
    case CloseContinuation(_) => g.owner.chat != ""
    case ScheduleContinuation(_) => g.owner.chat != ""
  }

  /** An occurrence is added for the time its goal is to be woken, in the name of the goal's owner. */
  predicate Occurs(g: Goal, id: DeliveryId, owner: Owner) {
    g.status.Active? && g.wakeAt == Some(id.scheduledFor) && owner == g.owner && owner.chat != ""
  }

  ghost predicate Enabled(log: Log, e: Event) {
    match e
    case OfDelivery(id, revision, step) =>
      && GoalOf(log, id.goal).Some?
      && if step.Add? then DeliveryOf(log, id).None? && revision == 1 && Occurs(GoalOf(log, id.goal).value, id, step.owner)
         else DeliveryOf(log, id).Some? && revision == DeliveryOf(log, id).value.revision + 1
              && Possible(DeliveryOf(log, id).value, GoalOf(log, id.goal).value, step)
    case OfGoal(goal, revision, change) =>
      if change.Create? then GoalOf(log, goal).None? && revision == 1 && Owned(change.owner, change.wakeAt, change.every)
      else GoalOf(log, goal).Some? && revision == GoalOf(log, goal).value.revision + 1
           && Allowed(GoalOf(log, goal).value, change)
  }

  ghost predicate Legal(log: Log) {
    log == [] || (Legal(log[..|log| - 1]) && Enabled(log[..|log| - 1], log[|log| - 1]))
  }

  lemma Appended(log: Log, e: Event)
    ensures Legal(log + [e]) <==> Legal(log) && Enabled(log, e)
    ensures forall id :: DeliveryOf(log + [e], id) == DeliveryStep(DeliveryOf(log, id), id, e)
    ensures forall g :: GoalOf(log + [e], g) == GoalStep(GoalOf(log, g), g, e)
  {
    assert (log + [e])[..|log|] == log;
  }
}
